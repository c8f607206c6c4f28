/** A run of four replicas, one of them faulty, in which a decided batch is carried into the next view. */
module WorkedRuns {
  import opened PbftTypes
  import opened Quorums
  import opened NewViewRule
  import opened NewViewSafety
  import opened NewViewExamples
  import opened ReplicaSteps
  import opened PbftSystem
  import opened PromptRuns
  import opened Agreement
  import opened SystemRuns
  import opened ExampleRuns

  // ----- View 0: replicas 1 and 2 prepare and commit the batch -----

  function Proposal(b: RequestBatch): PrePrepare {
    PrePrepare(0, 1, Hash(b), b, 0)
  }

  function Vote(b: RequestBatch, i: nat): Prepare {
    Prepare(0, 1, Hash(b), i)
  }

  function Pledge(b: RequestBatch, i: nat): Commit {
    Commit(0, 1, Hash(b), i)
  }

  function Entry(b: RequestBatch): PQ {
    PQ(1, Hash(b), 0)
  }

  function Filed(b: RequestBatch, prepares: seq<Prepare>, sentCommit: bool, commits: seq<Commit>): map<Slot, Cert> {
    map[Slot(0, 1) := Cert(Hash(b), Some(Proposal(b)), true, prepares, sentCommit, commits)]
  }

  /** Replica i has prepared the batch ... */
  function Started(b: RequestBatch, i: nat): State {
    Initial(i).(got := {PrePrepareMsg(Proposal(b))}, batches := {Hash(b)}, accepted := {Entry(b)},
                certs := Filed(b, [Vote(b, i)], false, []), made := {PrepareMsg(Vote(b, i))})
  }

  lemma BackupPrepares(b: RequestBatch, i: nat)
    requires 0 < i < 4
    ensures Leads(ExampleConfig, Initial(i), Started(b, i))
  {
    hide Leads;
    Start(ExampleConfig, Initial(i));
    Casts(Initial(i), Initial(i), Proposal(b));
    assert Cast(Initial(i), Proposal(b)) == Started(b, i);
  }

  /** ... has heard the prepare of the other one of 1 and 2, and has committed ... */
  function Sure(b: RequestBatch, i: nat): State
    requires i < 3
  {
    var s := Started(b, i);
    s.(got := s.got + {PrepareMsg(Vote(b, 3 - i))},
       certs := Filed(b, [Vote(b, i), Vote(b, 3 - i)], true, [Pledge(b, i)]),
       made := s.made + {CommitMsg(Pledge(b, i))})
  }

  lemma BackupCommits(b: RequestBatch, i: nat)
    requires 0 < i < 3
    ensures Leads(ExampleConfig, Started(b, i), Sure(b, i))
  {
    hide Leads;
    var s, q := Started(b, i), Vote(b, 3 - i);
    Start(ExampleConfig, s);
    Convinces(s, s, Proposal(b), q);
    assert Convinced(s, Proposal(b), q).certs == Sure(b, i).certs;
  }

  function Pledges(b: RequestBatch, i: nat): seq<Commit>
    requires i < 3
  {
    [Pledge(b, i), Pledge(b, 0), Pledge(b, 3 - i)]
  }

  /** ... and, with the commits of 0 and the other one, executes the batch. */
  function Busy(b: RequestBatch, i: nat): State
    requires i < 3
  {
    var s := Sure(b, i);
    s.(got := s.got + {CommitMsg(Pledge(b, 0))} + {CommitMsg(Pledge(b, 3 - i))},
       certs := Filed(b, [Vote(b, i), Vote(b, 3 - i)], true, Pledges(b, i)),
       exec := Some(1), execs := [Exec(1, Hash(b), 0)])
  }

  lemma BackupExecutes(b: RequestBatch, i: nat)
    requires 0 < i < 3
    ensures Leads(ExampleConfig, Sure(b, i), Busy(b, i))
  {
    hide Leads;
    var s, c0, c1 := Sure(b, i), Pledge(b, 0), Pledge(b, 3 - i);
    Start(ExampleConfig, s);
    ExecutesWith(s, s, Slot(0, 1), c0, c1);
    assert [Pledge(b, i)] + [c0, c1] == Pledges(b, i);
    assert Busied(s, Slot(0, 1), c0, c1).certs == Busy(b, i).certs;
    assert s.execs + [Exec(1, Hash(b), 0)] == Busy(b, i).execs;
  }

  lemma StageFacts(b: RequestBatch, i: nat)
    requires 0 < i < 3
    ensures Started(b, i).got == {PrePrepareMsg(Proposal(b))} && Started(b, i).made == {PrepareMsg(Vote(b, i))}
    ensures Sure(b, i).got == {PrePrepareMsg(Proposal(b)), PrepareMsg(Vote(b, 3 - i))}
    ensures Sure(b, i).made == {PrepareMsg(Vote(b, i)), CommitMsg(Pledge(b, i))}
    ensures Busy(b, i).got == Sure(b, i).got + {CommitMsg(Pledge(b, 0)), CommitMsg(Pledge(b, 3 - i))}
    ensures Busy(b, i).made == Sure(b, i).made
  {
  }

  /** What is sent until 1 and 2 have committed. */
  function FirstVotes(b: RequestBatch): set<Msg> {
    {PrePrepareMsg(Proposal(b)), PrepareMsg(Vote(b, 1)), PrepareMsg(Vote(b, 2)),
     CommitMsg(Pledge(b, 0)), CommitMsg(Pledge(b, 1)), CommitMsg(Pledge(b, 2))}
  }

  lemma BothPrepare(b: RequestBatch) returns (net: set<Msg>)
    ensures Here(Started(b, 1), Started(b, 2), Initial(3), net) && NoNewViewIn(net)
    ensures {PrePrepareMsg(Proposal(b)), CommitMsg(Pledge(b, 0)), PrepareMsg(Vote(b, 1)), PrepareMsg(Vote(b, 2))} <= net
  {
    hide Leads, Here, Initial, Started;
    var i1, i2, i3, m, m' := Initial(1), Initial(2), Initial(3), PrePrepareMsg(Proposal(b)), CommitMsg(Pledge(b, 0));
    StageFacts(b, 1);
    StageFacts(b, 2);
    BackupPrepares(b, 1);
    BackupPrepares(b, 2);
    AllStart();
    FaultySends(i1, i2, i3, {}, m);
    FaultySends(i1, i2, i3, {} + {m}, m');
    net := {} + {m} + {m'};
    FirstGoes(i1, i2, i3, net, Started(b, 1));
    net := net + Started(b, 1).made;
    SecondGoes(Started(b, 1), i2, i3, net, Started(b, 2));
    net := net + Started(b, 2).made;
  }

  /** Replicas 1 and 2 have committed the batch. */
  lemma BothCommit(b: RequestBatch) returns (net: set<Msg>)
    ensures Here(Sure(b, 1), Sure(b, 2), Initial(3), net) && NoNewViewIn(net) && FirstVotes(b) <= net
  {
    hide Leads, Here, Initial, Started, Sure;
    net := BothPrepare(b);
    StageFacts(b, 1);
    StageFacts(b, 2);
    BackupCommits(b, 1);
    BackupCommits(b, 2);
    FirstGoes(Started(b, 1), Started(b, 2), Initial(3), net, Sure(b, 1));
    net := net + Sure(b, 1).made;
    SecondGoes(Sure(b, 1), Started(b, 2), Initial(3), net, Sure(b, 2));
    net := net + Sure(b, 2).made;
  }

  // ----- The view change -----

  /** The faulty replica says that it leaves view 0. */
  const FalseCall: ViewChange := Says(1, [], [], 0)

  function Report(b: RequestBatch, i: nat): ViewChange {
    Says(1, [Entry(b)], [Entry(b)], i)
  }

  function Reporting(b: RequestBatch, s: State): State {
    Gone(s, Report(b, s.id), map[1 := Entry(b)], map[QKey(Hash(b), 1) := Entry(b)])
  }

  /** A replica that saw nothing leaves view 0 with the others. */
  function Idle(i: nat, m: ViewChange): State {
    Gone(Called(Initial(i), FalseCall, m), Says(1, [], [], i), map[], map[])
  }

  lemma IdleFollows(i: nat, m: ViewChange)
    requires i != 0 && m.sender != 0 && m.sender != i && m.v == 1
    ensures Leads(ExampleConfig, Initial(i), Idle(i, m))
    ensures Idle(i, m).got == {ViewChangeMsg(FalseCall), ViewChangeMsg(m)}
    ensures Idle(i, m).made == {ViewChangeMsg(Says(1, [], [], i))} && Idle(i, m).acts == map[] && !Idle(i, m).lost
  {
    hide Leads;
    Start(ExampleConfig, Initial(i));
    NothingToReport(ExampleConfig, Called(Initial(i), FalseCall, m));
    FollowsCalls(Initial(i), Initial(i), FalseCall, m, Says(1, [], [], i), map[], map[]);
  }

  /** Replica 1 was told to prepare something else for the number of the batch ... */
  function Left1(b: RequestBatch): State {
    Reporting(b, Contradicted(Busy(b, 1), 1))
  }

  /** ... and replica 2 follows it. */
  function Left2(b: RequestBatch): State {
    Reporting(b, Called(Sure(b, 2), FalseCall, Report(b, 1)))
  }

  lemma BatchIsReported(b: RequestBatch, i: nat, s: State, commits: seq<Commit>)
    requires 0 < i < 3 && s.view == 0 && s.pset == map[] && s.qset == map[] && s.batches == {Hash(b)}
    requires s.certs == Filed(b, [Vote(b, i), Vote(b, 3 - i)], true, commits)
    ensures CalcP(ExampleConfig, s) == map[1 := Entry(b)] && CalcQ(s) == map[QKey(Hash(b), 1) := Entry(b)]
  {
    CompleteIsPrepared(s, Slot(0, 1));
    OneToReport(ExampleConfig, s, 1, s.certs[Slot(0, 1)]);
  }

  lemma FirstLeaves(b: RequestBatch)
    ensures Leads(ExampleConfig, Sure(b, 1), Left1(b))
    ensures Left1(b).got == Busy(b, 1).got + {PrePrepareMsg(NullProposal(1))}
    ensures Left1(b).made == Sure(b, 1).made + {ViewChangeMsg(Report(b, 1))}
  {
    hide Leads, CalcP, CalcQ;
    BackupExecutes(b, 1);
    BatchIsReported(b, 1, Contradicted(Busy(b, 1), 1), Pledges(b, 1));
    LeavesOnNull(Sure(b, 1), Busy(b, 1), 1, Report(b, 1), map[1 := Entry(b)], map[QKey(Hash(b), 1) := Entry(b)]);
  }

  lemma SecondFollows(b: RequestBatch)
    ensures Leads(ExampleConfig, Sure(b, 2), Left2(b))
    ensures Left2(b).got == Sure(b, 2).got + {ViewChangeMsg(FalseCall), ViewChangeMsg(Report(b, 1))}
    ensures Left2(b).made == Sure(b, 2).made + {ViewChangeMsg(Report(b, 2))} && Left2(b).acts == map[] && !Left2(b).lost
  {
    hide Leads, CalcP, CalcQ;
    Start(ExampleConfig, Sure(b, 2));
    BatchIsReported(b, 2, Called(Sure(b, 2), FalseCall, Report(b, 1)), [Pledge(b, 2)]);
    FollowsCalls(Sure(b, 2), Sure(b, 2), FalseCall, Report(b, 1), Report(b, 2), map[1 := Entry(b)],
                 map[QKey(Hash(b), 1) := Entry(b)]);
  }

  /** The faulty replica contradicts itself, and all leave view 0. */
  lemma ViewIsLeft(b: RequestBatch) returns (net: set<Msg>)
    ensures Here(Left1(b), Left2(b), Idle(3, Report(b, 1)), net) && NoNewViewIn(net)
    ensures {ViewChangeMsg(Report(b, 1)), ViewChangeMsg(Report(b, 2)), ViewChangeMsg(Says(1, [], [], 3))} <= net
  {
    hide Leads, Here, Initial, Sure, Busy, Left1, Left2, Idle, Report;
    net := BothCommit(b);
    StageFacts(b, 1);
    StageFacts(b, 2);
    var m, m' := PrePrepareMsg(NullProposal(1)), ViewChangeMsg(FalseCall);
    FaultySends(Sure(b, 1), Sure(b, 2), Initial(3), net, m);
    FaultySends(Sure(b, 1), Sure(b, 2), Initial(3), net + {m}, m');
    net := net + {m} + {m'};
    FirstLeaves(b);
    FirstGoes(Sure(b, 1), Sure(b, 2), Initial(3), net, Left1(b));
    net := net + Left1(b).made;
    SecondFollows(b);
    SecondGoes(Left1(b), Sure(b, 2), Initial(3), net, Left2(b));
    net := net + Left2(b).made;
    assert Report(b, 1).sender == 1 && Report(b, 1).v == 1 by { ReportFields(b); }
    IdleFollows(3, Report(b, 1));
    ThirdGoes(Left1(b), Left2(b), Initial(3), net, Idle(3, Report(b, 1)));
    net := net + Idle(3, Report(b, 1)).made;
  }

  lemma ReportFields(b: RequestBatch)
    ensures Report(b, 1).sender == 1 && Report(b, 1).v == 1
  {
  }

  // ----- View 1 -----

  function Sent(b: RequestBatch): NewView {
    NewView(1, [Report(b, 1), Report(b, 2), Says(1, [], [], 3)], map[1 := Hash(b)], 1)
  }

  lemma SentIsSound(b: RequestBatch)
    ensures SoundNewView(ExampleConfig, Sent(b))
    ensures Selected(ExampleConfig, Sent(b).vset, 0) && Assign(ExampleConfig, Sent(b).vset, 0) == Some(Sent(b).xset)
    ensures Aligned(ExampleConfig, Sent(b))
  {
    hide Selected, Assign;
    PlainStart(Sent(b).vset, Entry(b));
    EntryIsCarried(Sent(b).vset, Entry(b));
    StartIsAligned(Sent(b));
  }

  lemma StartIsAligned(nv: NewView)
    requires Selected(ExampleConfig, nv.vset, 0)
    ensures Aligned(ExampleConfig, nv)
  {
    forall cp | Selected(ExampleConfig, nv.vset, cp) ensures cp == 0 {
      SelectedIsUnique(ExampleConfig, nv.vset, cp, 0);
    }
  }

  /** Replica 1, the primary, has entered view 1. */
  function Entered(b: RequestBatch): State {
    var s := Left1(b);
    DoActivate(s.(got := s.got + {NewViewMsg(Sent(b))}), Sent(b), 0, 1)
  }

  lemma PrimaryEnters(b: RequestBatch)
    ensures Leads(ExampleConfig, Left1(b), Entered(b))
    ensures Entered(b).got == Left1(b).got + {NewViewMsg(Sent(b))}
  {
    hide Leads, Selected, Assign, Aligned, ActivatedCerts;
    var s, nv := Left1(b), Sent(b);
    SentIsSound(b);
    Start(ExampleConfig, s);
    Hears(ExampleConfig, s, s, NewViewMsg(nv));
    var s1 := s.(got := s.got + {NewViewMsg(nv)});
    TakeStep(ExampleConfig, s, s1, Activate(nv, 0, 1));
  }

  lemma ViewIsEntered(b: RequestBatch) returns (net: set<Msg>)
    ensures Here(Entered(b), Left2(b), Idle(3, Report(b, 1)), net)
  {
    hide Leads, Here, SoundNewView, Entered, Left1, Left2, Idle;
    net := ViewIsLeft(b);
    HeardAlready(Left1(b), Left2(b), Idle(3, Report(b, 1)), net);
    SentIsSound(b);
    PrimaryEnters(b);
    NewViewComes(Left1(b), Left2(b), Idle(3, Report(b, 1)), net, Sent(b));
    net := net + {NewViewMsg(Sent(b))};
    FirstGoes(Left1(b), Left2(b), Idle(3, Report(b, 1)), net, Entered(b));
    net := net + Entered(b).made;
  }

  lemma TwoPreparers(v: nat, n: nat, d: Digest, ms: set<Msg>)
    requires v == 0 && PrepareMsg(Prepare(v, n, d, 1)) in ms && PrepareMsg(Prepare(v, n, d, 2)) in ms
    ensures PreparedEvidence(ExampleConfig, ms, v, n, d)
  {
    assert {1, 2} <= Preparers(ExampleConfig, ms, v, n, d);
    SubsetCard({1, 2}, Preparers(ExampleConfig, ms, v, n, d));
  }

  lemma ThreeCommitters(v: nat, n: nat, d: Digest, ms: set<Msg>)
    requires CommitMsg(Commit(v, n, d, 0)) in ms && CommitMsg(Commit(v, n, d, 1)) in ms
    requires CommitMsg(Commit(v, n, d, 2)) in ms
    ensures |Committers(ms, v, n)| >= 3
  {
    assert {0, 1, 2} <= Committers(ms, v, n);
    SubsetCard({0, 1, 2}, Committers(ms, v, n));
  }

  lemma EnteredFacts(b: RequestBatch)
    ensures PrepareMsg(Vote(b, 1)) in Entered(b).Msgs() && PrepareMsg(Vote(b, 2)) in Entered(b).Msgs()
    ensures CommitMsg(Pledge(b, 0)) in Entered(b).Msgs() && CommitMsg(Pledge(b, 1)) in Entered(b).Msgs()
    ensures CommitMsg(Pledge(b, 2)) in Entered(b).Msgs()
    ensures Entry(b) in Entered(b).accepted && PQ(1, Hash(b), 1) in Entered(b).accepted
    ensures Entered(b).acts == map[1 := Act(Sent(b), 0, 1)] && !Entered(b).lost
  {
    hide ActivatedCerts;
    assert 1 in Sent(b).xset;
  }

  lemma PrimaryCommitted(b: RequestBatch, sys: System)
    requires 1 in sys.states && sys.states[1] == Entered(b)
    ensures CommittedAt(ExampleConfig, sys, 1, 0, 1, Hash(b))
  {
    hide PreparedEvidence, Committers, Entered;
    EnteredFacts(b);
    TwoPreparers(0, 1, Hash(b), Entered(b).Msgs());
    ThreeCommitters(0, 1, Hash(b), Entered(b).Msgs());
  }

  lemma OnlyThatView(b: RequestBatch, sys: System)
    requires forall i :: i in sys.states ==>
              sys.states[i].acts == map[] || sys.states[i].acts == map[1 := Act(Sent(b), 0, 1)]
    ensures (forall v, n, d :: NullsGuarded(ExampleConfig, sys, v, n, d)) && Kept(sys, 0, 1, Hash(b))
  {
    forall n: nat, d | 0 < n ensures NullBranchGuarded(ExampleConfig, Sent(b).vset, n, d) {
      LowWatermarksGuardNulls(ExampleConfig, Sent(b).vset, 0, n, d);
    }
    hide NullBranchGuarded;
  }

  /** A decided batch survives a view change, and the conditions of `DecidedValuesSurvive` and of the
      agreement results hold: replica 1 has committed it in view 0 and has entered view 1, which assigns
      it again. Replica 1 left view 0 because the faulty primary contradicted itself, the others because
      they heard view-changes of two. */
  lemma DecisionIsCarried(b: RequestBatch) returns (sys: System)
    ensures FaultBound(ExampleConfig, FaultyPrimary) && PromptlyReachable(ExampleConfig, FaultyPrimary, sys)
    ensures NoBatchLost(sys) && CommittedAt(ExampleConfig, sys, 1, 0, 1, Hash(b))
    ensures (forall v, n, d :: NullsGuarded(ExampleConfig, sys, v, n, d)) && Kept(sys, 0, 1, Hash(b))
    ensures 1 in sys.states && sys.states[1].acts == map[1 := Act(Sent(b), 0, 1)]
    ensures PQ(1, Hash(b), 1) in sys.states[1].accepted
  {
    hide Leads, PromptlyReachable, FaultBound, NullsGuarded, Kept, CommittedAt, Entered, Left2, Sent, Idle, Sure;
    var net := ViewIsEntered(b);
    EnteredFacts(b);
    SecondFollows(b);
    IdleFollows(3, Report(b, 1));
    sys := System(Trio(Entered(b), Left2(b), Idle(3, Report(b, 1))), net);
    PrimaryCommitted(b, sys);
    OnlyThatView(b, sys);
  }
}
