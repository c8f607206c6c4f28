/** A run of four replicas after which the view-changes of all correct replicas leave the decision procedure
    stuck: where the condition of `NewViewNeverStuck` does not hold. */
module StuckRuns {
  import opened PbftTypes
  import opened NewViewRule
  import opened NewViewSafety
  import opened NewViewExamples
  import opened ReplicaSteps
  import opened PbftSystem
  import opened PromptRuns
  import opened Agreement
  import opened ViewChangeProgress
  import opened SystemRuns
  import opened ExampleRuns
  import opened WorkedRuns

  // ----- A batch takes the place of a prepared null request -----

  function NullVote(i: nat): Prepare {
    Prepare(0, 1, Null, i)
  }

  function NullPledge(i: nat): Commit {
    Commit(0, 1, Null, i)
  }

  const NullEntry: PQ := PQ(1, Null, 0)

  function NullFiled(prepares: seq<Prepare>, sentCommit: bool, commits: seq<Commit>): map<Slot, Cert> {
    map[Slot(0, 1) := Cert(Null, Some(NullProposal(1)), true, prepares, sentCommit, commits)]
  }

  /** Replica i has prepared the null request ... */
  function NullCast(i: nat): State {
    Initial(i).(got := {PrePrepareMsg(NullProposal(1))}, accepted := {NullEntry},
                certs := NullFiled([NullVote(i)], false, []), made := {PrepareMsg(NullVote(i))})
  }

  lemma NullIsCast(i: nat)
    requires 0 < i < 4
    ensures Leads(ExampleConfig, Initial(i), NullCast(i))
  {
    hide Leads;
    Start(ExampleConfig, Initial(i));
    Casts(Initial(i), Initial(i), NullProposal(1));
    assert Cast(Initial(i), NullProposal(1)) == NullCast(i);
  }

  /** ... has heard the prepare of the other one of 2 and 3, and has committed. */
  function NullSure(i: nat): State
    requires 1 < i < 4
  {
    var s := NullCast(i);
    s.(got := s.got + {PrepareMsg(NullVote(5 - i))},
       certs := NullFiled([NullVote(i), NullVote(5 - i)], true, [NullPledge(i)]),
       made := s.made + {CommitMsg(NullPledge(i))})
  }

  lemma NullIsCommitted(i: nat)
    requires 1 < i < 4
    ensures Leads(ExampleConfig, NullCast(i), NullSure(i))
  {
    hide Leads;
    var s, q := NullCast(i), NullVote(5 - i);
    Start(ExampleConfig, s);
    Convinces(s, s, NullProposal(1), q);
    assert Convinced(s, NullProposal(1), q).certs == NullSure(i).certs;
  }

  /** Replica 3 has then accepted the batch that the primary proposes for the same number. */
  function Overwritten(b: RequestBatch): State {
    var s := NullSure(3);
    s.(got := s.got + {PrePrepareMsg(Proposal(b))}, batches := {Hash(b)}, accepted := {NullEntry, Entry(b)},
       certs := map[Slot(0, 1) := Cert(Hash(b), Some(Proposal(b)), true, [NullVote(3), NullVote(2)], true,
                                       [NullPledge(3)])])
  }

  lemma NullGivesWay(b: RequestBatch)
    ensures Leads(ExampleConfig, NullCast(3), Overwritten(b))
  {
    hide Leads;
    NullIsCommitted(3);
    Takes(NullCast(3), NullSure(3), Proposal(b));
    assert Taken(NullSure(3), Proposal(b)) == Overwritten(b);
  }

  lemma NoVoteForBatch(b: RequestBatch)
    ensures CountPrepares([NullVote(3), NullVote(2)], 0, 1, Hash(b)) == 0
  {
    var p, q := NullVote(3), NullVote(2);
    assert [p][..0] == [] && [p, q][..1] == [p];
    assert CountPrepares([p], 0, 1, Hash(b)) == 0;
  }

  /** A prepared null request gives way to a batch that the primary proposes later: in a run of its own,
      replica 3 gets to where the null request is prepared and committed to, and the batch can be accepted
      in its place. */
  lemma PreparedNullIsOverwritten(b: RequestBatch) returns (s: State)
    ensures EndsARun(ExampleConfig, 3, s) && Prepared(ExampleConfig, s, Null, 0, 1)
    ensures CommitMsg(Commit(0, 1, Null, 3)) in s.made
    ensures CanAcceptPrePrepare(ExampleConfig, s, Proposal(b))
    ensures !Prepared(ExampleConfig, DoAcceptPrePrepare(s, Proposal(b)), Null, 0, 1)
  {
    hide Leads, EndsARun;
    s := NullSure(3).(got := NullSure(3).got + {PrePrepareMsg(Proposal(b))});
    NullIsCast(3);
    NullIsCommitted(3);
    LeadsOn(ExampleConfig, Initial(3), NullCast(3), NullSure(3));
    Hears(ExampleConfig, Initial(3), NullSure(3), PrePrepareMsg(Proposal(b)));
    EndOfRun(ExampleConfig, 3, s);
    CompleteIsPrepared(s, Slot(0, 1));
  }

  // ----- Leaving the view, stuck -----

  const NullReport: ViewChange := Says(1, [NullEntry], [NullEntry], 2)

  function BatchReport(b: RequestBatch): ViewChange {
    Says(1, [], [Entry(b)], 3)
  }

  /** The primary repeats its first proposal, which now contradicts the certificate of replica 3 ... */
  function GoneBatch(b: RequestBatch): State {
    Gone(Contradicted(Overwritten(b), 1), BatchReport(b), map[], map[QKey(Hash(b), 1) := Entry(b)])
  }

  lemma BatchIsReported(b: RequestBatch)
    ensures Leads(ExampleConfig, NullCast(3), GoneBatch(b))
    ensures GoneBatch(b).got == {PrePrepareMsg(NullProposal(1)), PrepareMsg(NullVote(2)), PrePrepareMsg(Proposal(b))}
    ensures ViewChangeMsg(BatchReport(b)) in GoneBatch(b).made && NoNewViewIn(GoneBatch(b).made)
    ensures !GoneBatch(b).lost && Entry(b) in GoneBatch(b).accepted
  {
    hide Leads, CalcP, CalcQ;
    var s := Overwritten(b);
    NullGivesWay(b);
    NoVoteForBatch(b);
    OneToReport(ExampleConfig, Contradicted(s, 1), 1, s.certs[Slot(0, 1)]);
    LeavesOnNull(NullCast(3), s, 1, BatchReport(b), map[], map[QKey(Hash(b), 1) := Entry(b)]);
  }

  /** ... and replica 2 follows it. */
  function GoneNull(b: RequestBatch): State {
    Gone(Called(NullSure(2), FalseCall, BatchReport(b)), NullReport, map[1 := NullEntry],
         map[QKey(Null, 1) := NullEntry])
  }

  lemma NullIsReported(b: RequestBatch)
    ensures Leads(ExampleConfig, NullCast(2), GoneNull(b))
    ensures GoneNull(b).got == {PrePrepareMsg(NullProposal(1)), PrepareMsg(NullVote(3)),
                                ViewChangeMsg(FalseCall), ViewChangeMsg(BatchReport(b))}
    ensures ViewChangeMsg(NullReport) in GoneNull(b).made && NoNewViewIn(GoneNull(b).made) && !GoneNull(b).lost
  {
    hide Leads, CalcP, CalcQ;
    var s := Called(NullSure(2), FalseCall, BatchReport(b));
    NullIsCommitted(2);
    CompleteIsPrepared(s, Slot(0, 1));
    OneToReport(ExampleConfig, s, 1, s.certs[Slot(0, 1)]);
    FollowsCalls(NullCast(2), NullSure(2), FalseCall, BatchReport(b), NullReport, map[1 := NullEntry],
                 map[QKey(Null, 1) := NullEntry]);
  }

  lemma NullCastFacts(i: nat)
    ensures NullCast(i).got == {PrePrepareMsg(NullProposal(1))} && NullCast(i).made == {PrepareMsg(NullVote(i))}
  {
  }

  lemma BothCastNull(b: RequestBatch) returns (net: set<Msg>)
    ensures Here(Initial(1), NullCast(2), NullCast(3), net)
    ensures net == {PrePrepareMsg(NullProposal(1)), PrePrepareMsg(Proposal(b)), ViewChangeMsg(FalseCall),
                    PrepareMsg(NullVote(2)), PrepareMsg(NullVote(3))}
  {
    hide Leads, Here, Initial, NullCast;
    var i1, i2, i3 := Initial(1), Initial(2), Initial(3);
    var m, m', m'' := PrePrepareMsg(NullProposal(1)), PrePrepareMsg(Proposal(b)), ViewChangeMsg(FalseCall);
    AllStart();
    FaultySends(i1, i2, i3, {}, m);
    FaultySends(i1, i2, i3, {} + {m}, m');
    FaultySends(i1, i2, i3, {} + {m} + {m'}, m'');
    net := {} + {m} + {m'} + {m''};
    NullIsCast(2);
    NullCastFacts(2);
    SecondGoes(i1, i2, i3, net, NullCast(2));
    net := net + NullCast(2).made;
    NullIsCast(3);
    NullCastFacts(3);
    ThirdGoes(i1, NullCast(2), i3, net, NullCast(3));
    net := net + NullCast(3).made;
  }

  lemma NullIsLeft(b: RequestBatch) returns (net: set<Msg>)
    ensures Here(Idle(1, BatchReport(b)), GoneNull(b), GoneBatch(b), net)
    ensures forall m :: m in StuckOnNull(b) ==> ViewChangeMsg(m) in net
  {
    hide Leads, Here, Initial, NullCast, GoneNull, GoneBatch, Idle;
    net := BothCastNull(b);
    BatchIsReported(b);
    ThirdGoes(Initial(1), NullCast(2), NullCast(3), net, GoneBatch(b));
    net := net + GoneBatch(b).made;
    NullIsReported(b);
    SecondGoes(Initial(1), NullCast(2), GoneBatch(b), net, GoneNull(b));
    net := net + GoneNull(b).made;
    IdleFollows(1, BatchReport(b));
    FirstGoes(Initial(1), GoneNull(b), GoneBatch(b), net, Idle(1, BatchReport(b)));
    net := net + Idle(1, BatchReport(b)).made;
  }

  function StuckOnNull(b: RequestBatch): seq<ViewChange> {
    [Says(1, [], [], 1), NullReport, BatchReport(b)]
  }

  lemma StuckOnNullIsComplete(b: RequestBatch, sys: System)
    requires forall m :: m in StuckOnNull(b) ==> ViewChangeMsg(m) in sys.net
    ensures AllViewChanges(ExampleConfig, FaultyPrimary, sys, StuckOnNull(b), 1, 0)
    ensures forall e, n :: CorrectEntryAt(StuckOnNull(b), n, FaultyPrimary, e) ==> e == NullEntry
    ensures Assign(ExampleConfig, StuckOnNull(b), 0) == None
  {
    hide Assign;
    var vset := StuckOnNull(b);
    EntryIsStuck(vset, NullEntry);
    assert vset[0].sender == 1 && vset[1].sender == 2 && vset[2].sender == 3;
    ExampleBound();
  }

  /** The faulty primary of view 0 proposed a null request, which replicas 2 and 3 prepared, and then a batch
      for the same number, which took the place of the null request at replica 3. When the primary repeated
      the first proposal replica 3 left the view, and the others followed. No batch is lost. */
  lemma StuckOnOverwrittenNull(b: RequestBatch) returns (sys: System, vset: seq<ViewChange>, e: PQ)
    ensures FaultBound(ExampleConfig, FaultyPrimary) && PromptlyReachable(ExampleConfig, FaultyPrimary, sys)
    ensures NoBatchLost(sys)
    ensures AllViewChanges(ExampleConfig, FaultyPrimary, sys, vset, 1, 0)
    ensures forall e', n :: CorrectEntryAt(vset, n, FaultyPrimary, e') ==> e' == e
    ensures ExampleConfig.Primary(e.v) in FaultyPrimary && !Undisputed(sys, e)
    ensures Assign(ExampleConfig, vset, 0) == None
  {
    hide Leads, PromptlyReachable, FaultBound, AllViewChanges, CorrectEntryAt, Assign, GoneNull, GoneBatch, Idle,
         BatchReport;
    var net := NullIsLeft(b);
    NullIsReported(b);
    BatchIsReported(b);
    assert BatchReport(b).sender == 3 && BatchReport(b).v == 1 by { BatchReportFields(b); }
    IdleFollows(1, BatchReport(b));
    sys := System(Trio(Idle(1, BatchReport(b)), GoneNull(b), GoneBatch(b)), net);
    vset, e := StuckOnNull(b), NullEntry;
    assert sys.states[3] == GoneBatch(b);
    StuckOnNullIsComplete(b, sys);
  }

  lemma BatchReportFields(b: RequestBatch)
    ensures BatchReport(b).sender == 3 && BatchReport(b).v == 1
  {
  }
}
