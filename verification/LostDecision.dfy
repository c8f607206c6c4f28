/** A run of four replicas, one of them faulty, in which the null branch of the decision procedure
    discards a batch that was decided and executed, and another correct replica then executes the null
    request in its place. */
module LostDecision {
  import opened PbftTypes
  import opened NewViewRule
  import opened NewViewSafety
  import opened NewViewExamples
  import opened ReplicaSteps
  import opened PbftSystem
  import opened PromptRuns
  import opened Agreement
  import opened SystemRuns
  import opened ExampleRuns
  import opened WorkedRuns

  // ----- Replica 1 leaves while it executes the batch, and reports its checkpoint later -----

  function One(i: nat): Checkpoint {
    Checkpoint(1, i, "one")
  }

  function Finished1(b: RequestBatch): State {
    Done(Left1(b), "one")
  }

  lemma FirstFinishes(b: RequestBatch)
    ensures Leads(ExampleConfig, Left1(b), Finished1(b))
    ensures Finished1(b).got == Left1(b).got && Finished1(b).made == Left1(b).made + {CheckpointMsg(One(1))}
    ensures var s := Finished1(b);
            s.id == 1 && s.view == 1 && !s.active && s.h == 0 && s.certs == map[] && s.acts == map[] && !s.lost
  {
    hide Leads;
    Start(ExampleConfig, Left1(b));
    assert ExampleConfig.Floor(1) == 1;
    ExecutionEnds(Left1(b), Left1(b), "one");
  }

  // ----- Replica 2 has a stable checkpoint before it leaves -----

  /** It has finished the batch, and stored the checkpoints of 0, 1 and 2. */
  function Stable2(b: RequestBatch): State {
    Stored(Stored(Done(Busy(b, 2), "one"), One(0)), One(1))
  }

  lemma SecondIsStable(b: RequestBatch)
    ensures Leads(ExampleConfig, Sure(b, 2), Stable2(b))
    ensures Stable2(b) == Busy(b, 2).(lastExec := 1, exec := None, chkpts := map[0 := "XXX GENESIS", 1 := "one"],
                                      made := Busy(b, 2).made + {CheckpointMsg(One(2))},
                                      got := Busy(b, 2).got + {CheckpointMsg(One(0)), CheckpointMsg(One(1))},
                                      ckpts := {One(0), One(1), One(2)})
  {
    hide Leads;
    BackupExecutes(b, 2);
    assert ExampleConfig.Floor(1) == 1;
    ExecutionEnds(Sure(b, 2), Busy(b, 2), "one");
    Stores(Sure(b, 2), Done(Busy(b, 2), "one"), One(0));
    Stores(Sure(b, 2), Stored(Done(Busy(b, 2), "one"), One(0)), One(1));
  }

  /** Its watermark has passed the batch ... */
  function Moved2(b: RequestBatch): State {
    Stable2(b).(h := 1, certs := map[], batches := {}, ckpts := {}, chkpts := map[1 := "one"])
  }

  /** The only certificate goes, and with it the only batch. */
  lemma MovePastOnly(s: State, cert: Cert)
    requires s.certs == map[Slot(0, 1) := cert] && s.batches == {cert.digest} && s.pset == map[] && s.qset == map[]
    requires s.chkpts == map[0 := "XXX GENESIS", 1 := "one"] && 1 <= s.SpecExec()
    requires forall k :: k in s.ckpts ==> k.n == 1
    ensures Move(s, 1) == s.(h := 1, certs := map[], batches := {}, ckpts := {}, chkpts := map[1 := "one"])
  {
    OnlyOneDropped(s, cert);
    hide DroppedDigests, LosesBatch;
    assert Move(s, 1).certs == map[] && Move(s, 1).ckpts == {} && Move(s, 1).chkpts == map[1 := "one"];
  }

  lemma OnlyOneDropped(s: State, cert: Cert)
    requires s.certs == map[Slot(0, 1) := cert]
    ensures DroppedDigests(s, 1) == {cert.digest} && !LosesBatch(s, 1)
  {
    assert Slot(0, 1) in s.certs;
  }

  lemma MovesToOne(b: RequestBatch)
    ensures Move(Stable2(b), 1) == Moved2(b)
  {
    hide Move;
    SecondIsStable(b);
    MovePastOnly(Stable2(b), Filed(b, [Vote(b, 2), Vote(b, 1)], true, Pledges(b, 2))[Slot(0, 1)]);
  }

  lemma SecondMoves(b: RequestBatch)
    ensures Leads(ExampleConfig, Sure(b, 2), Moved2(b))
  {
    hide Leads, Move, CheckpointVoters, Busy;
    SecondIsStable(b);
    ThreeVoters(Stable2(b).ckpts, 1, "one", 0, 1, 2);
    BusyWindow(b);
    assert ExampleConfig.Floor(1) == 1;
    TakeStep(ExampleConfig, Sure(b, 2), Stable2(b), MoveOnQuorum(One(0)));
    MovesToOne(b);
  }

  lemma BusyWindow(b: RequestBatch)
    ensures Busy(b, 2).h == 0 && Busy(b, 2).pset == map[] && Busy(b, 2).qset == map[] && Busy(b, 2).view == 0
    ensures Busy(b, 2).execs == [Exec(1, Hash(b), 0)] && Busy(b, 2).acts == map[] && !Busy(b, 2).lost
    ensures Busy(b, 2).id == 2
  {
  }

  /** ... and it has followed replica 1. */
  function Passed(b: RequestBatch): State {
    Gone(Called(Moved2(b), FalseCall, Report(b, 1)), ExampleMessage(Hash(b), 2), map[], map[])
  }

  lemma SecondPasses(b: RequestBatch)
    ensures Leads(ExampleConfig, Sure(b, 2), Passed(b))
  {
    hide Leads, Busy, CalcP, CalcQ;
    BusyWindow(b);
    SecondIsStable(b);
    SecondMoves(b);
    NothingToReport(ExampleConfig, Called(Moved2(b), FalseCall, Report(b, 1)));
    FollowsCalls(Sure(b, 2), Moved2(b), FalseCall, Report(b, 1), ExampleMessage(Hash(b), 2), map[], map[]);
  }

  lemma PassedFacts(b: RequestBatch)
    ensures Passed(b).got == Busy(b, 2).got + {CheckpointMsg(One(0)), CheckpointMsg(One(1)), ViewChangeMsg(FalseCall),
                                               ViewChangeMsg(Report(b, 1))}
    ensures Passed(b).made == Busy(b, 2).made + {CheckpointMsg(One(2)), ViewChangeMsg(ExampleMessage(Hash(b), 2))}
    ensures Passed(b).execs == [Exec(1, Hash(b), 0)] && !Passed(b).lost
  {
    hide Busy, Leads;
    BusyWindow(b);
    SecondIsStable(b);
  }

  // ----- View 1 -----

  function Lossy(b: RequestBatch): NewView {
    NewView(1, ExampleVset(Hash(b)), map[1 := Null], 1)
  }

  lemma LossyIsSound(b: RequestBatch)
    ensures SoundNewView(ExampleConfig, Lossy(b)) && Aligned(ExampleConfig, Lossy(b))
    ensures Selected(ExampleConfig, Lossy(b).vset, 0) && Assign(ExampleConfig, Lossy(b).vset, 0) == Some(Lossy(b).xset)
  {
    hide Selected, Assign, ProperVset, CorrectViewChange;
    ExampleCheckpoint(Hash(b));
    ExampleAssigns(Hash(b));
    ExampleIsProper(Hash(b));
    ExampleHasNoDuplicates(Hash(b));
    StartIsAligned(Lossy(b));
  }

  lemma ExampleHasNoDuplicates(d: Digest)
    ensures NoDuplicateCheckpoints(ExampleVset(d))
    ensures forall vc :: vc in ExampleVset(d) ==> vc.v == 1
  {
  }

  function Assigned(b: RequestBatch, i: nat): PrePrepare {
    PrePrepare(1, 1, Null, RequestBatch(""), i)
  }

  function NullCert(b: RequestBatch, i: nat, cast: bool, prepares: seq<Prepare>, sent: bool,
      commits: seq<Commit>): Cert {
    Cert(Null, Some(Assigned(b, i)), cast, prepares, sent, commits)
  }

  /** The replica enters view 1. */
  function InLossy(b: RequestBatch, s: State): State {
    s.(got := s.got + {NewViewMsg(Lossy(b))}, active := true, seqNo := 1, accepted := s.accepted + {PQ(1, Null, 1)},
       acts := map[1 := Act(Lossy(b), 0, 1)], certs := map[Slot(1, 1) := NullCert(b, s.id, false, [], false, [])])
  }

  lemma EntersLossy(b: RequestBatch, from: State, s: State)
    requires Leads(ExampleConfig, from, s)
    requires s.view == 1 && !s.active && s.h == 0 && s.certs == map[] && s.acts == map[]
    ensures Leads(ExampleConfig, from, InLossy(b, s))
  {
    hide Leads, Selected, Assign, Aligned;
    var nv := Lossy(b);
    LossyIsSound(b);
    Hears(ExampleConfig, from, s, NewViewMsg(nv));
    var s1 := s.(got := s.got + {NewViewMsg(nv)});
    TakeStep(ExampleConfig, from, s1, Activate(nv, 0, 1));
    NullSlot(b, s1);
    hide ActivatedCerts;
    assert DoActivate(s1, nv, 0, 1) == InLossy(b, s);
  }

  lemma NullSlot(b: RequestBatch, s: State)
    requires s.view == 1 && s.h == 0 && s.certs == map[]
    ensures ActivatedCerts(s, Lossy(b)) == map[Slot(1, 1) := NullCert(b, s.id, false, [], false, [])]
    ensures (set n | n in Lossy(b).xset :: PQ(n, Lossy(b).xset[n], 1)) == {PQ(1, Null, 1)}
  {
    assert 1 in Lossy(b).xset;
  }

  function NullVote(i: nat): Prepare {
    Prepare(1, 1, Null, i)
  }

  function NullPledge(i: nat): Commit {
    Commit(1, 1, Null, i)
  }

  /** Replica 3, a backup, prepares the null request ... */
  function Casts3(b: RequestBatch, s: State): State {
    var s1 := InLossy(b, s);
    s1.(certs := map[Slot(1, 1) := NullCert(b, 3, true, [NullVote(3)], false, [])],
        made := s.made + {PrepareMsg(NullVote(3))})
  }

  lemma BackupCasts(b: RequestBatch, from: State, s: State)
    requires Leads(ExampleConfig, from, s) && s.id == 3 && s.view == 1 && s.h == 0 && s.active
    requires s.certs == map[Slot(1, 1) := NullCert(b, 3, false, [], false, [])]
    requires s.acts == map[1 := Act(Lossy(b), 0, 1)]
    requires forall p :: PrepareMsg(p) !in s.made
    ensures Leads(ExampleConfig, from, s.(certs := map[Slot(1, 1) := NullCert(b, 3, true, [NullVote(3)], false, [])],
                                          made := s.made + {PrepareMsg(NullVote(3))}))
  {
    hide Leads;
    TakeStep(ExampleConfig, from, s, CastNewViewPrepare(1));
    var s1, own := DoCastNewViewPrepare(s, 1), NullVote(3);
    assert s1.certs == map[Slot(1, 1) := NullCert(b, 3, true, [], false, [])];
    CountsOwn(from, s1, own);
    assert [] + [own] == [own];
    var slot, cert := Slot(1, 1), NullCert(b, 3, true, [own], false, []);
    assert s1.certs[slot := cert] == map[slot := cert];
  }

  function Idle3(b: RequestBatch): State {
    Idle(3, Report(b, 1))
  }

  lemma BackupFacts(b: RequestBatch)
    ensures var s := Casts3(b, Idle3(b));
            && Leads(ExampleConfig, Idle3(b), s) && PrepareMsg(NullVote(3)) in s.made
            && s.got == Idle3(b).got + {NewViewMsg(Lossy(b))}
  {
    hide Leads, Lossy;
    Start(ExampleConfig, Idle3(b));
    EntersLossy(b, Idle3(b), Idle3(b));
    BackupCasts(b, Idle3(b), InLossy(b, Idle3(b)));
  }

  /** ... replica 1, the primary, hears that 3 and 0 prepared it, and commits ... */
  function Last1(b: RequestBatch): State {
    var s := InLossy(b, Finished1(b));
    s.(got := s.got + {PrepareMsg(NullVote(3))} + {PrepareMsg(NullVote(0))},
       made := s.made + {CommitMsg(NullPledge(1))},
       certs := map[Slot(1, 1) := NullCert(b, 1, false, [NullVote(3), NullVote(0)], true, [NullPledge(1)])])
  }

  lemma CountsNull(b: RequestBatch, from: State, s: State)
    requires Leads(ExampleConfig, from, s) && s.id == 1 && s.view == 1 && s.h == 0
    requires s.certs == map[Slot(1, 1) := NullCert(b, 1, false, [], false, [])]
    ensures Leads(ExampleConfig, from,
                  s.(got := s.got + {PrepareMsg(NullVote(3))} + {PrepareMsg(NullVote(0))},
                     certs := map[Slot(1, 1) := NullCert(b, 1, false, [NullVote(3), NullVote(0)], false, [])]))
  {
    hide Leads;
    var p, q, slot := NullVote(3), NullVote(0), Slot(1, 1);
    Counts(from, s, p);
    assert [] + [p] == [p] && [p] + [q] == [p, q];
    var s1 := Counted(s, p);
    assert s1.certs == map[slot := NullCert(b, 1, false, [p], false, [])];
    Counts(from, s1, q);
    assert Counted(s1, q).certs == map[slot := NullCert(b, 1, false, [p, q], false, [])];
  }

  lemma CommitsNull(b: RequestBatch, from: State, s: State)
    requires Leads(ExampleConfig, from, s) && s.id == 1 && s.view == 1 && s.h == 0
    requires s.certs == map[Slot(1, 1) := NullCert(b, 1, false, [NullVote(3), NullVote(0)], false, [])]
    ensures var cert := NullCert(b, 1, false, [NullVote(3), NullVote(0)], true, [NullPledge(1)]);
            Leads(ExampleConfig, from,
                  s.(made := s.made + {CommitMsg(NullPledge(1))}, certs := map[Slot(1, 1) := cert]))
  {
    hide Leads;
    var ps, slot := [NullVote(3), NullVote(0)], Slot(1, 1);
    assert [] + [NullPledge(1)] == [NullPledge(1)];
    Promises(from, s, slot);
    assert Promised(s, slot).certs == map[slot := NullCert(b, 1, false, ps, true, [NullPledge(1)])];
  }

  lemma PrimaryCommits(b: RequestBatch)
    ensures Leads(ExampleConfig, Finished1(b), Last1(b))
    ensures Last1(b).got == Finished1(b).got + {NewViewMsg(Lossy(b)), PrepareMsg(NullVote(3)), PrepareMsg(NullVote(0))}
    ensures CommitMsg(NullPledge(1)) in Last1(b).made && !Last1(b).lost
  {
    hide Leads, Lossy, Finished1, NullCert;
    FirstFinishes(b);
    Start(ExampleConfig, Finished1(b));
    EntersLossy(b, Finished1(b), Finished1(b));
    var s := InLossy(b, Finished1(b));
    CountsNull(b, Finished1(b), s);
    var cert := NullCert(b, 1, false, [NullVote(3), NullVote(0)], false, []);
    CommitsNull(b, Finished1(b), s.(got := s.got + {PrepareMsg(NullVote(3))} + {PrepareMsg(NullVote(0))},
                                    certs := map[Slot(1, 1) := cert]));
  }

  /** ... and replica 3 hears their commits, and executes the null request. */
  function Last3(b: RequestBatch): State {
    var s := Casts3(b, Idle3(b));
    s.(got := s.got + {PrepareMsg(NullVote(0))} + {CommitMsg(NullPledge(0))} + {CommitMsg(NullPledge(1))},
       made := s.made + {CommitMsg(NullPledge(3))}, exec := Some(1), execs := [Exec(1, Null, 1)],
       certs := map[Slot(1, 1) := NullCert(b, 3, true, [NullVote(3), NullVote(0)], true,
                                           [NullPledge(3), NullPledge(0), NullPledge(1)])])
  }

  lemma BackupExecutesNull(b: RequestBatch)
    ensures Leads(ExampleConfig, Casts3(b, Idle3(b)), Last3(b))
    ensures Last3(b).got == Casts3(b, Idle3(b)).got
                            + {PrepareMsg(NullVote(0)), CommitMsg(NullPledge(0)), CommitMsg(NullPledge(1))}
    ensures Last3(b).execs == [Exec(1, Null, 1)] && !Last3(b).lost
  {
    hide Leads, Lossy;
    var s, slot, c0, c1 := Casts3(b, Idle3(b)), Slot(1, 1), NullPledge(0), NullPledge(1);
    Start(ExampleConfig, s);
    Convinces(s, s, Assigned(b, 3), NullVote(0));
    var s1 := Convinced(s, Assigned(b, 3), NullVote(0));
    ExecutesWith(s, s1, slot, c0, c1);
    assert [NullPledge(3)] + [c0, c1] == [NullPledge(3), c0, c1];
    assert Busied(s1, slot, c0, c1).certs == Last3(b).certs;
    assert s.execs + [Exec(1, Null, 1)] == Last3(b).execs;
  }

  // ----- The run -----

  /** What the faulty replica sends: its own votes and checkpoint, and a contradiction in view 0. */
  function Lies(): set<Msg> {
    {PrePrepareMsg(NullProposal(1)), ViewChangeMsg(FalseCall), CheckpointMsg(One(0)), PrepareMsg(NullVote(0)),
     CommitMsg(NullPledge(0))}
  }

  lemma FaultyLies(b: RequestBatch) returns (net: set<Msg>)
    ensures Here(Sure(b, 1), Sure(b, 2), Initial(3), net) && NoNewViewIn(net) && FirstVotes(b) + Lies() <= net
  {
    hide Here, Sure, Initial, FirstVotes;
    net := BothCommit(b);
    var m1, m2, m3, m4, m5 := PrePrepareMsg(NullProposal(1)), ViewChangeMsg(FalseCall), CheckpointMsg(One(0)),
      PrepareMsg(NullVote(0)), CommitMsg(NullPledge(0));
    FaultySends(Sure(b, 1), Sure(b, 2), Initial(3), net, m1);
    net := net + {m1};
    FaultySends(Sure(b, 1), Sure(b, 2), Initial(3), net, m2);
    net := net + {m2};
    FaultySends(Sure(b, 1), Sure(b, 2), Initial(3), net, m3);
    net := net + {m3};
    FaultySends(Sure(b, 1), Sure(b, 2), Initial(3), net, m4);
    net := net + {m4};
    FaultySends(Sure(b, 1), Sure(b, 2), Initial(3), net, m5);
    net := net + {m5};
  }

  lemma NoNewViewMade(b: RequestBatch, i: nat)
    requires 0 < i < 3
    ensures NoNewViewIn(Sure(b, i).made) && NoNewViewIn(Busy(b, i).made) && Sure(b, i).made == Busy(b, i).made
  {
  }

  /** All three have left view 0. */
  lemma ViewIsLost(b: RequestBatch) returns (net: set<Msg>)
    ensures Here(Finished1(b), Passed(b), Idle3(b), net) && NoNewViewIn(net) && Lies() <= net
    ensures forall vc :: vc in Lossy(b).vset ==> ViewChangeMsg(vc) in net
  {
    hide Leads, Here, Initial, Sure, Busy, Left1, Finished1, Passed, Idle, Lies;
    net := FaultyLies(b);
    LiesAre();
    HeardAlready(Sure(b, 1), Sure(b, 2), Initial(3), net);
    StageFacts(b, 1);
    StageFacts(b, 2);
    NoNewViewMade(b, 1);
    NoNewViewMade(b, 2);
    FirstLeaves(b);
    FirstGoes(Sure(b, 1), Sure(b, 2), Initial(3), net, Left1(b));
    net := net + Left1(b).made;
    FirstFinishes(b);
    FirstGoes(Left1(b), Sure(b, 2), Initial(3), net, Finished1(b));
    net := net + Finished1(b).made;
    SecondPasses(b);
    PassedFacts(b);
    SecondGoes(Finished1(b), Sure(b, 2), Initial(3), net, Passed(b));
    net := net + Passed(b).made;
    IdleFollows(3, Report(b, 1));
    ThirdGoes(Finished1(b), Passed(b), Initial(3), net, Idle3(b));
    net := net + Idle3(b).made;
  }

  lemma LiesAre()
    ensures PrePrepareMsg(NullProposal(1)) in Lies() && ViewChangeMsg(FalseCall) in Lies()
    ensures CheckpointMsg(One(0)) in Lies()
    ensures PrepareMsg(NullVote(0)) in Lies() && CommitMsg(NullPledge(0)) in Lies()
  {
  }

  /** Replica 3 executes the null request of view 1. */
  lemma NullIsExecuted(b: RequestBatch) returns (net: set<Msg>)
    ensures Here(Last1(b), Passed(b), Last3(b), net)
  {
    hide Leads, Here, Finished1, Passed, Idle3, Casts3, Last1, Last3, SoundNewView, Lossy, Lies;
    var s1, s2, s3, c3 := Finished1(b), Passed(b), Idle3(b), Casts3(b, Idle3(b));
    net := ViewIsLost(b);
    LiesAre();
    LossyIsSound(b);
    NewViewComes(s1, s2, s3, net, Lossy(b));
    net := net + {NewViewMsg(Lossy(b))};
    HeardAlready(s1, s2, s3, net);
    BackupFacts(b);
    ThirdGoes(s1, s2, s3, net, c3);
    net := net + c3.made;
    PrimaryCommits(b);
    FirstGoes(s1, s2, c3, net, Last1(b));
    net := net + Last1(b).made;
    BackupExecutesNull(b);
    ThirdGoes(Last1(b), s2, c3, net, Last3(b));
    net := net + Last3(b).made;
  }

  /** Agreement can fail: with one faulty replica of four, no batch lost, none of the new-views malformed and
      no view left without a reason, replica 2 executes a batch at 1, and replica 3 the null request, after a
      new view whose null branch did not look at the watermark of replica 2. */
  lemma DecisionIsLost(b: RequestBatch) returns (sys: System)
    ensures FaultBound(ExampleConfig, FaultyPrimary) && PromptlyReachable(ExampleConfig, FaultyPrimary, sys)
    ensures NoBatchLost(sys)
    ensures 2 in sys.states && sys.states[2].execs == [Exec(1, Hash(b), 0)]
    ensures 3 in sys.states && sys.states[3].execs == [Exec(1, Null, 1)]
    ensures !NullsGuarded(ExampleConfig, sys, 0, 1, Hash(b))
  {
    hide Leads, Reachable, PromptlyReachable, FaultBound, Passed, Last1, Last3, Casts3, Busy, NullsGuarded;
    var net := NullIsExecuted(b);
    PassedFacts(b);
    PrimaryCommits(b);
    BackupExecutesNull(b);
    sys := System(Trio(Last1(b), Passed(b), Last3(b)), net);
    GuardFails(b, sys);
  }

  lemma GuardFails(b: RequestBatch, sys: System)
    requires FaultBound(ExampleConfig, FaultyPrimary) && PromptlyReachable(ExampleConfig, FaultyPrimary, sys)
    requires NoBatchLost(sys)
    requires 2 in sys.states && sys.states[2].execs == [Exec(1, Hash(b), 0)]
    requires 3 in sys.states && sys.states[3].execs == [Exec(1, Null, 1)]
    ensures !NullsGuarded(ExampleConfig, sys, 0, 1, Hash(b))
  {
    hide Reachable, PromptlyReachable, FaultBound, NoBatchLost, NullsGuarded;
    PromptIsReachable(ExampleConfig, FaultyPrimary, sys);
    if NullsGuarded(ExampleConfig, sys, 0, 1, Hash(b)) {
      ExecutionAgreement(ExampleConfig, FaultyPrimary, sys, 2, 3, Exec(1, Hash(b), 0), Exec(1, Null, 1));
    }
  }
}
