/** A run of four replicas, one of them faulty, in which the deletion of a batch by digest costs another
    certificate its batch, and with it a decision: why the agreement results ask for runs in which no
    batch is lost. */
module LostBatch {
  import opened PbftTypes
  import opened NewViewRule
  import opened NewViewSafety
  import opened NewViewExamples
  import opened ReplicaSteps
  import opened PbftSystem
  import opened PromptRuns
  import opened Agreement
  import opened ViewChangeProgress
  import opened SystemRuns
  import opened ExampleRuns
  import opened WorkedRuns

  // Replicas 1 and 2 do the same.

  // ----- The batch is executed at 1 -----

  function At1(i: nat): Checkpoint {
    Checkpoint(1, i, "one")
  }

  function Settled(b: RequestBatch, i: nat): Cert
    requires i < 3
  {
    Filed(b, [Vote(b, i), Vote(b, 3 - i)], true, Pledges(b, i))[Slot(0, 1)]
  }

  function Finished(b: RequestBatch, i: nat): State
    requires i < 3
  {
    Done(Busy(b, i), "one")
  }

  /** What stays as it is until the watermark moves. */
  ghost predicate Unmoved(b: RequestBatch, i: nat, s: State) {
    && s.id == i && s.view == 0 && s.active && s.h == 0 && s.lastExec == 1 && !s.skip && !s.lost
    && s.pset == map[] && s.qset == map[] && s.batches == {Hash(b)} && s.acts == map[]
    && s.chkpts == map[0 := "XXX GENESIS", 1 := "one"]
  }

  lemma BatchIsExecuted(b: RequestBatch, i: nat)
    requires 0 < i < 3
    ensures Leads(ExampleConfig, Sure(b, i), Finished(b, i))
  {
    hide Leads;
    BackupExecutes(b, i);
    assert ExampleConfig.Floor(1) == 1;
    ExecutionEnds(Sure(b, i), Busy(b, i), "one");
  }

  lemma FinishedFacts(b: RequestBatch, i: nat)
    requires 0 < i < 3
    ensures var s := Finished(b, i);
            && Unmoved(b, i, s) && s.certs == map[Slot(0, 1) := Settled(b, i)] && s.exec == None && s.ckpts == {At1(i)}
            && s.got == Busy(b, i).got && s.made == Busy(b, i).made + {CheckpointMsg(At1(i))}
  {
  }

  // ----- The primary proposes the same batch at 2 -----

  function Again(b: RequestBatch): PrePrepare {
    PrePrepare(0, 2, Hash(b), b, 0)
  }

  function VoteAgain(b: RequestBatch, i: nat): Prepare {
    Prepare(0, 2, Hash(b), i)
  }

  function PledgeAgain(b: RequestBatch, i: nat): Commit {
    Commit(0, 2, Hash(b), i)
  }

  function Second(b: RequestBatch, prepares: seq<Prepare>, sent: bool, commits: seq<Commit>): Cert {
    Cert(Hash(b), Some(Again(b)), true, prepares, sent, commits)
  }

  /** The replica has prepared the batch at 2 ... */
  function Repeated(b: RequestBatch, i: nat): State
    requires i < 3
  {
    Cast(Finished(b, i), Again(b))
  }

  lemma BatchIsRepeated(b: RequestBatch, i: nat)
    requires 0 < i < 3
    ensures Leads(ExampleConfig, Sure(b, i), Repeated(b, i))
  {
    hide Leads, Finished, Settled;
    FinishedFacts(b, i);
    BatchIsExecuted(b, i);
    Casts(Sure(b, i), Finished(b, i), Again(b));
  }

  lemma RepeatedFacts(b: RequestBatch, i: nat)
    requires 0 < i < 3
    ensures var s := Repeated(b, i);
            && Unmoved(b, i, s) && s.exec == None && s.ckpts == {At1(i)} && PQ(2, Hash(b), 0) in s.accepted
            && s.certs == map[Slot(0, 1) := Settled(b, i), Slot(0, 2) := Second(b, [VoteAgain(b, i)], false, [])]
            && s.got == Busy(b, i).got + {PrePrepareMsg(Again(b))}
            && s.made == Busy(b, i).made + {CheckpointMsg(At1(i)), PrepareMsg(VoteAgain(b, i))}
  {
    hide Finished, Settled, Busy;
    FinishedFacts(b, i);
  }

  /** ... and committed to it. */
  function Committed2(b: RequestBatch, i: nat): State
    requires i < 3
  {
    Convinced(Repeated(b, i), Again(b), VoteAgain(b, 3 - i))
  }

  lemma SecondIsCommitted(b: RequestBatch, i: nat)
    requires 0 < i < 3
    ensures Leads(ExampleConfig, Repeated(b, i), Committed2(b, i))
  {
    hide Leads, Repeated, Settled;
    RepeatedFacts(b, i);
    Start(ExampleConfig, Repeated(b, i));
    Convinces(Repeated(b, i), Repeated(b, i), Again(b), VoteAgain(b, 3 - i));
  }

  lemma Committed2Facts(b: RequestBatch, i: nat)
    requires 0 < i < 3
    ensures var s, ps := Committed2(b, i), [VoteAgain(b, i), VoteAgain(b, 3 - i)];
            && Unmoved(b, i, s) && s.exec == None && s.ckpts == {At1(i)} && PQ(2, Hash(b), 0) in s.accepted
            && s.certs == map[Slot(0, 1) := Settled(b, i), Slot(0, 2) := Second(b, ps, true, [PledgeAgain(b, i)])]
            && s.got == Repeated(b, i).got + {PrepareMsg(VoteAgain(b, 3 - i))}
            && s.made == Repeated(b, i).made + {CommitMsg(PledgeAgain(b, i))}
  {
    hide Repeated, Settled;
    RepeatedFacts(b, i);
  }

  // ----- The batch is executed again, and the checkpoint at 1 becomes stable -----

  /** The replica has heard the commits of the others at number 2, executes the batch again ... */
  function Busy2(b: RequestBatch, i: nat): State
    requires i < 3
  {
    Busied(Committed2(b, i), Slot(0, 2), PledgeAgain(b, 0), PledgeAgain(b, 3 - i))
  }

  /** The certificate at 2 is prepared. */
  lemma SecondIsComplete(b: RequestBatch, i: nat, s: State, commits: seq<Commit>)
    requires 0 < i < 3 && Unmoved(b, i, s) && Slot(0, 2) in s.certs
    requires s.certs[Slot(0, 2)] == Second(b, [VoteAgain(b, i), VoteAgain(b, 3 - i)], true, commits)
    ensures Complete(s, Slot(0, 2))
  {
  }

  lemma BatchIsExecutedAgain(b: RequestBatch, i: nat)
    requires 0 < i < 3
    ensures Leads(ExampleConfig, Committed2(b, i), Busy2(b, i))
  {
    hide Leads, Committed2, Settled, Complete, Busied;
    Committed2Facts(b, i);
    SecondIsComplete(b, i, Committed2(b, i), [PledgeAgain(b, i)]);
    Start(ExampleConfig, Committed2(b, i));
    ExecutesWith(Committed2(b, i), Committed2(b, i), Slot(0, 2), PledgeAgain(b, 0), PledgeAgain(b, 3 - i));
  }

  function Last2(b: RequestBatch, i: nat): Cert
    requires i < 3
  {
    var pledges := [PledgeAgain(b, i), PledgeAgain(b, 0), PledgeAgain(b, 3 - i)];
    Second(b, [VoteAgain(b, i), VoteAgain(b, 3 - i)], true, pledges)
  }

  lemma Busy2Facts(b: RequestBatch, i: nat)
    requires 0 < i < 3
    ensures var s := Busy2(b, i);
            && Unmoved(b, i, s) && s.exec == Some(2) && s.ckpts == {At1(i)} && PQ(2, Hash(b), 0) in s.accepted
            && s.certs == map[Slot(0, 1) := Settled(b, i), Slot(0, 2) := Last2(b, i)] && Exec(2, Hash(b), 0) in s.execs
            && s.got == Committed2(b, i).got + {CommitMsg(PledgeAgain(b, 0)), CommitMsg(PledgeAgain(b, 3 - i))}
            && s.made == Committed2(b, i).made
  {
    hide Committed2, Settled;
    Committed2Facts(b, i);
    var s := Committed2(b, i);
    assert [PledgeAgain(b, i)] + [PledgeAgain(b, 0), PledgeAgain(b, 3 - i)] == Last2(b, i).commit;
    assert Busy2(b, i).execs[|s.execs|] == Exec(2, Hash(b), 0);
  }

  /** ... and has stored the checkpoints of the others at 1. */
  function Stable(b: RequestBatch, i: nat): State
    requires i < 3
  {
    Stored(Stored(Busy2(b, i), At1(0)), At1(3 - i))
  }

  lemma CheckpointIsStable(b: RequestBatch, i: nat)
    requires 0 < i < 3
    ensures Leads(ExampleConfig, Committed2(b, i), Stable(b, i))
  {
    hide Leads, Busy2, Settled, Last2;
    Busy2Facts(b, i);
    BatchIsExecutedAgain(b, i);
    StoresBoth(Committed2(b, i), Busy2(b, i), At1(0), At1(3 - i));
  }

  lemma StoresBoth(from: State, s: State, k: Checkpoint, k': Checkpoint)
    requires Leads(ExampleConfig, from, s) && k.sender != s.id && k'.sender != s.id
    requires InW(ExampleConfig, s, k.n) && InW(ExampleConfig, s, k'.n)
    ensures Leads(ExampleConfig, from, Stored(Stored(s, k), k'))
  {
    hide Leads;
    Stores(from, s, k);
    Stores(from, Stored(s, k), k');
  }

  lemma StableFacts(b: RequestBatch, i: nat)
    requires 0 < i < 3
    ensures var s := Stable(b, i);
            && Unmoved(b, i, s) && s.exec == Some(2) && PQ(2, Hash(b), 0) in s.accepted
            && Exec(2, Hash(b), 0) in s.execs
            && s.certs == map[Slot(0, 1) := Settled(b, i), Slot(0, 2) := Last2(b, i)]
            && s.ckpts == {At1(i), At1(0), At1(3 - i)}
            && s.got == Busy2(b, i).got + {CheckpointMsg(At1(0)), CheckpointMsg(At1(3 - i))}
            && s.made == Busy2(b, i).made
  {
    hide Busy2, Settled;
    Busy2Facts(b, i);
  }

  lemma StableCanMove(b: RequestBatch, i: nat)
    requires 0 < i < 3
    ensures CanMoveOnQuorum(ExampleConfig, Stable(b, i), At1(0)) && ExampleConfig.Floor(1) == 1
  {
    hide Stable, Settled, Last2, CanMoveOnQuorum;
    StableFacts(b, i);
    ThreeCanMove(Stable(b, i), i);
  }

  lemma ThreeCanMove(s: State, i: nat)
    requires 0 < i < 3 && s.h == 0 && 1 in s.chkpts && s.ckpts == {At1(i), At1(0), At1(3 - i)}
    ensures CanMoveOnQuorum(ExampleConfig, s, At1(0)) && ExampleConfig.Floor(1) == 1
  {
    hide CheckpointVoters;
    ThreeVoters(s.ckpts, 1, "one", 0, i, 3 - i);
  }

  /** The watermark has moved to 1, and the batch is gone. */
  function Robbed(b: RequestBatch, i: nat): State
    requires i < 3
  {
    Stable(b, i).(h := 1, batches := {}, ckpts := {}, chkpts := map[1 := "one"], lost := true,
                  certs := map[Slot(0, 2) := Last2(b, i)])
  }

  /** Two certificates share the only batch; the watermark passes the first. */
  ghost predicate Shared(s: State, c1: Cert, c2: Cert) {
    s.certs == map[Slot(0, 1) := c1, Slot(0, 2) := c2] && c1.digest == c2.digest != Null && s.batches == {c1.digest}
  }

  lemma FirstIsDropped(s: State, c1: Cert, c2: Cert)
    requires Shared(s, c1, c2)
    ensures DroppedDigests(s, 1) == {c1.digest} && LosesBatch(s, 1)
  {
    assert Slot(0, 1) in s.certs && Slot(0, 2) in s.certs;
    assert s.certs[Slot(0, 1)].digest in DroppedDigests(s, 1);
    assert s.certs[Slot(0, 2)].digest in DroppedDigests(s, 1);
  }

  lemma MovePastFirst(s: State, c1: Cert, c2: Cert)
    requires Shared(s, c1, c2)
    requires s.pset == map[] && s.qset == map[] && s.chkpts == map[0 := "XXX GENESIS", 1 := "one"] && 1 <= s.SpecExec()
    requires forall k :: k in s.ckpts ==> k.n == 1
    ensures Move(s, 1) == s.(h := 1, batches := {}, ckpts := {}, chkpts := map[1 := "one"], lost := true,
                             certs := map[Slot(0, 2) := c2])
  {
    FirstIsDropped(s, c1, c2);
    hide DroppedDigests, LosesBatch;
    assert Move(s, 1).certs == map[Slot(0, 2) := c2] && Move(s, 1).chkpts == map[1 := "one"];
  }

  lemma SettledIs(b: RequestBatch, i: nat)
    requires i < 3
    ensures Settled(b, i).digest == Hash(b) == Last2(b, i).digest
  {
  }

  lemma MoveRobs(b: RequestBatch, i: nat)
    requires 0 < i < 3
    ensures Move(Stable(b, i), 1) == Robbed(b, i)
  {
    hide Move, Stable, Settled, Last2;
    StableFacts(b, i);
    Last2Is(b, i);
    SettledIs(b, i);
    MovePastFirst(Stable(b, i), Settled(b, i), Last2(b, i));
  }

  lemma RobbedFollows(b: RequestBatch, i: nat)
    requires 0 < i < 3
    ensures Leads(ExampleConfig, Committed2(b, i), Robbed(b, i))
  {
    hide Leads, Move, CanMoveOnQuorum, Stable, Robbed, Committed2;
    CheckpointIsStable(b, i);
    StableCanMove(b, i);
    MoveRobs(b, i);
    TakeStep(ExampleConfig, Committed2(b, i), Stable(b, i), MoveOnQuorum(At1(0)));
  }

  lemma StableIsPrepared(b: RequestBatch)
    ensures SlotPrepared(ExampleConfig, Stable(b, 1), Slot(0, 2))
    ensures !SlotPrepared(ExampleConfig, Robbed(b, 1), Slot(0, 2))
  {
    hide Stable, Settled, Last2, SlotPrepared, Complete, Robbed;
    StableFacts(b, 1);
    Last2Is(b, 1);
    SecondIsComplete(b, 1, Stable(b, 1), Last2(b, 1).commit);
    CompleteIsPrepared(Stable(b, 1), Slot(0, 2));
    RobbedFacts(b, 1);
    NotPrepared(Robbed(b, 1), Slot(0, 2));
  }

  lemma Last2Is(b: RequestBatch, i: nat)
    requires i < 3
    ensures Last2(b, i) == Second(b, [VoteAgain(b, i), VoteAgain(b, 3 - i)], true, Last2(b, i).commit)
    ensures Last2(b, i).digest != Null
  {
  }

  lemma NotPrepared(s: State, slot: Slot)
    requires slot in s.certs && s.certs[slot].digest != Null && s.batches == {}
    ensures !SlotPrepared(ExampleConfig, s, slot)
  {
  }

  /** In a run of its own, replica 1 gets to where certificates at 1 and 2 carry one batch, the second of
      them prepared, and the checkpoint at 1 is stable; then, with the move of the watermark to 1, the batch
      goes with the first, and the second is no longer prepared. */
  lemma SharedBatchIsLost(b: RequestBatch) returns (s: State)
    ensures EndsARun(ExampleConfig, 1, s) && SlotPrepared(ExampleConfig, s, Slot(0, 2))
    ensures CanMoveOnQuorum(ExampleConfig, s, At1(0)) && ExampleConfig.Floor(At1(0).n) == 1
    ensures Move(s, 1).lost && !SlotPrepared(ExampleConfig, Move(s, 1), Slot(0, 2))
  {
    s := Stable(b, 1);
    MoveRobs(b, 1);
    assert Robbed(b, 1).lost;
    hide Leads, EndsARun, SlotPrepared, CanMoveOnQuorum, Move, Stable, Started, Sure, Repeated, Committed2, Robbed;
    BackupPrepares(b, 1);
    BackupCommits(b, 1);
    BatchIsRepeated(b, 1);
    SecondIsCommitted(b, 1);
    CheckpointIsStable(b, 1);
    LeadsOn(ExampleConfig, Initial(1), Started(b, 1), Sure(b, 1));
    LeadsOn(ExampleConfig, Initial(1), Sure(b, 1), Repeated(b, 1));
    LeadsOn(ExampleConfig, Initial(1), Repeated(b, 1), Committed2(b, 1));
    LeadsOn(ExampleConfig, Initial(1), Committed2(b, 1), s);
    EndOfRun(ExampleConfig, 1, s);
    StableCanMove(b, 1);
    StableIsPrepared(b);
  }

  // ----- The decision at 2 goes with the batch -----

  function Loser(i: nat): ViewChange {
    ViewChange(1, 1, [CEntry(1, "one")], [], [], i)
  }

  /** Without its batch a certificate is not reported. */
  lemma NothingIsReported(s: State, slot: Slot, cert: Cert)
    requires s.certs == map[slot := cert] && cert.digest != Null && s.batches == {} && s.pset == map[]
    requires s.qset == map[]
    ensures CalcP(ExampleConfig, s) == map[] && CalcQ(s) == map[]
  {
  }

  lemma RobbedFacts(b: RequestBatch, i: nat)
    requires 0 < i < 3
    ensures var s := Robbed(b, i);
            && s.id == i && s.view == 0 && s.active && s.h == 1 && s.certs == map[Slot(0, 2) := Last2(b, i)]
            && s.batches == {}
            && s.pset == map[] && s.qset == map[] && s.chkpts == map[1 := "one"] && s.acts == map[]
            && PQ(2, Hash(b), 0) in s.accepted && Exec(2, Hash(b), 0) in s.execs
            && s.got == Stable(b, i).got && s.made == Stable(b, i).made
  {
    hide Stable;
    StableFacts(b, i);
  }

  /** Replica 1 is told to prepare something else for number 2 ... */
  function Gone1(b: RequestBatch): State {
    Gone(Contradicted(Robbed(b, 1), 2), Loser(1), map[], map[])
  }

  lemma FirstForgets(b: RequestBatch)
    ensures Leads(ExampleConfig, Committed2(b, 1), Gone1(b))
  {
    hide Leads, CalcP, CalcQ, Robbed, Committed2;
    RobbedFollows(b, 1);
    RobbedFacts(b, 1);
    NothingIsReported(Contradicted(Robbed(b, 1), 2), Slot(0, 2), Last2(b, 1));
    LeavesOnNull(Committed2(b, 1), Robbed(b, 1), 2, Loser(1), map[], map[]);
  }

  /** ... and replica 2 follows it. */
  function Gone2(b: RequestBatch): State {
    Gone(Called(Robbed(b, 2), FalseCall, Loser(1)), Loser(2), map[], map[])
  }

  lemma SecondForgets(b: RequestBatch)
    ensures Leads(ExampleConfig, Committed2(b, 2), Gone2(b)) && Gone2(b).acts == map[]
  {
    hide Leads, CalcP, CalcQ, Robbed, Committed2;
    RobbedFollows(b, 2);
    RobbedFacts(b, 2);
    NothingIsReported(Called(Robbed(b, 2), FalseCall, Loser(1)), Slot(0, 2), Last2(b, 2));
    FollowsCalls(Committed2(b, 2), Robbed(b, 2), FalseCall, Loser(1), Loser(2), map[], map[]);
  }

  function Oblivious(): NewView {
    NewView(1, [Loser(1), Loser(2), Says(1, [], [], 3)], map[2 := Null], 1)
  }

  lemma ObliviousStart()
    ensures Selected(ExampleConfig, Oblivious().vset, 1)
  {
    var vset := Oblivious().vset;
    CountThree(vset[0], vset[1], vset[2], LowTest(1));
    forall c: CEntry ensures Vouchers(vset, c) == if c == CEntry(1, "one") then 2 else if c == Genesis then 1 else 0 {
      VouchersThree(vset[0], vset[1], vset[2], c);
      OccurrencesAtMostOne([Genesis], c);
      OccurrencesAtMostOne([CEntry(1, "one")], c);
    }
    assert Qualifies(ExampleConfig, vset, CEntry(1, "one"));
  }

  lemma ObliviousNulls(n: nat)
    requires 1 < n
    ensures Pick(ExampleConfig, Oblivious().vset, n).None? && NullQuorum(ExampleConfig, Oblivious().vset, n)
  {
    var vset := Oblivious().vset;
    PickFinds(ExampleConfig, vset, n, vset);
    CountThree(vset[0], vset[1], vset[2], NullTest(n));
  }

  lemma ObliviousAssigns()
    ensures Assign(ExampleConfig, Oblivious().vset, 1) == Some(map[2 := Null])
  {
    var vset := Oblivious().vset;
    ObliviousNulls(2);
    ObliviousNulls(3);
    hide Pick, NullQuorum;
    assert ExampleConfig.L() == 2 && AllChosen(ExampleConfig, vset, 1, 3);
    assert Top(ExampleConfig, vset, 1, 1) == 2;
    assert Top(ExampleConfig, vset, 1, 2) == 2;
    assert Top(ExampleConfig, vset, 1, 3) == 2;
    var xset := Assign(ExampleConfig, vset, 1).value;
    assert forall n :: n in xset <==> n == 2;
    assert xset == map[2 := Null];
  }

  lemma ObliviousIsSound()
    ensures SoundNewView(ExampleConfig, Oblivious()) && Aligned(ExampleConfig, Oblivious())
    ensures Selected(ExampleConfig, Oblivious().vset, 1)
    ensures Assign(ExampleConfig, Oblivious().vset, 1) == Some(Oblivious().xset)
  {
    hide Selected, Assign;
    ObliviousStart();
    ObliviousAssigns();
    assert ExampleConfig.Floor(1) == 1;
    forall cp | Selected(ExampleConfig, Oblivious().vset, cp) ensures cp == 1 {
      SelectedIsUnique(ExampleConfig, Oblivious().vset, cp, 1);
    }
  }

  /** Replica 1 enters view 1, of which it is the primary. */
  function Over(b: RequestBatch): State {
    var s := Gone1(b);
    DoActivate(s.(got := s.got + {NewViewMsg(Oblivious())}), Oblivious(), 1, 2)
  }

  lemma EntersOblivious(from: State, s: State)
    requires Leads(ExampleConfig, from, s)
    requires s.view == 1 && !s.active && s.h == 1 && s.certs == map[]
    ensures Leads(ExampleConfig, from, DoActivate(s.(got := s.got + {NewViewMsg(Oblivious())}), Oblivious(), 1, 2))
  {
    hide Leads, Selected, Assign, Aligned;
    var nv := Oblivious();
    ObliviousIsSound();
    Hears(ExampleConfig, from, s, NewViewMsg(nv));
    TakeStep(ExampleConfig, from, s.(got := s.got + {NewViewMsg(nv)}), Activate(nv, 1, 2));
  }

  lemma PrimaryStartsOver(b: RequestBatch)
    ensures Leads(ExampleConfig, Gone1(b), Over(b))
  {
    hide Leads, Robbed;
    RobbedFacts(b, 1);
    Start(ExampleConfig, Gone1(b));
    EntersOblivious(Gone1(b), Gone1(b));
  }

  lemma OverFacts(b: RequestBatch)
    ensures var s := Over(b);
            && s.got == Gone1(b).got + {NewViewMsg(Oblivious())} && s.made == Gone1(b).made
            && s.acts == map[1 := Act(Oblivious(), 1, 2)] && PQ(2, Hash(b), 0) in s.accepted
            && Exec(2, Hash(b), 0) in s.execs
  {
    hide Robbed, ActivatedCerts;
    RobbedFacts(b, 1);
  }

  // ----- The run -----

  /** What 1 and 2 have heard and made in the end. */
  lemma GoneFacts(b: RequestBatch, i: nat)
    requires 0 < i < 3
    ensures var s := Robbed(b, i);
            && s.got == Committed2(b, i).got + {CommitMsg(PledgeAgain(b, 0)), CommitMsg(PledgeAgain(b, 3 - i)),
                                                CheckpointMsg(At1(0)), CheckpointMsg(At1(3 - i))}
            && s.made == Committed2(b, i).made
  {
    hide Robbed, Stable, Busy2, Committed2;
    RobbedFacts(b, i);
    StableFacts(b, i);
    Busy2Facts(b, i);
  }

  function FaultyMsgs(b: RequestBatch): set<Msg> {
    {PrePrepareMsg(Again(b)), CommitMsg(PledgeAgain(b, 0)), CheckpointMsg(At1(0)), PrePrepareMsg(NullProposal(2)),
     ViewChangeMsg(FalseCall)}
  }

  lemma PrimarySendsAll(b: RequestBatch) returns (net: set<Msg>)
    ensures Here(Sure(b, 1), Sure(b, 2), Initial(3), net) && NoNewViewIn(net) && FirstVotes(b) + FaultyMsgs(b) <= net
  {
    hide Here, Sure, Initial, FirstVotes;
    net := BothCommit(b);
    var m1, m2, m3, m4, m5 := PrePrepareMsg(Again(b)), CommitMsg(PledgeAgain(b, 0)), CheckpointMsg(At1(0)),
      PrePrepareMsg(NullProposal(2)), ViewChangeMsg(FalseCall);
    FaultySends(Sure(b, 1), Sure(b, 2), Initial(3), net, m1);
    net := net + {m1};
    FaultySends(Sure(b, 1), Sure(b, 2), Initial(3), net, m2);
    net := net + {m2};
    FaultySends(Sure(b, 1), Sure(b, 2), Initial(3), net, m3);
    net := net + {m3};
    FaultySends(Sure(b, 1), Sure(b, 2), Initial(3), net, m4);
    net := net + {m4};
    FaultySends(Sure(b, 1), Sure(b, 2), Initial(3), net, m5);
    net := net + {m5};
  }

  lemma RepeatedHeard(b: RequestBatch, i: nat, net: set<Msg>)
    requires 0 < i < 3 && FirstVotes(b) + FaultyMsgs(b) <= net
    ensures Repeated(b, i).got <= net && NoNewViewIn(Repeated(b, i).made)
    ensures PrepareMsg(VoteAgain(b, i)) in Repeated(b, i).made && CheckpointMsg(At1(i)) in Repeated(b, i).made
  {
    hide Repeated;
    RepeatedFacts(b, i);
    StageFacts(b, i);
    hide Busy, Sure, Settled;
  }

  /** Replicas 1 and 2 have prepared the batch at 2 ... */
  lemma BothRepeat(b: RequestBatch) returns (net: set<Msg>)
    ensures Here(Repeated(b, 1), Repeated(b, 2), Initial(3), net) && NoNewViewIn(net)
    ensures FaultyMsgs(b) + Repeated(b, 1).made + Repeated(b, 2).made <= net
  {
    hide Leads, Here, Initial, Sure, Repeated, FaultyMsgs;
    net := PrimarySendsAll(b);
    RepeatedHeard(b, 1, net);
    BatchIsRepeated(b, 1);
    FirstGoes(Sure(b, 1), Sure(b, 2), Initial(3), net, Repeated(b, 1));
    net := net + Repeated(b, 1).made;
    RepeatedHeard(b, 2, net);
    BatchIsRepeated(b, 2);
    SecondGoes(Repeated(b, 1), Sure(b, 2), Initial(3), net, Repeated(b, 2));
    net := net + Repeated(b, 2).made;
  }

  /** ... and committed it there ... */
  lemma BothCommitAgain(b: RequestBatch) returns (net: set<Msg>)
    ensures Here(Committed2(b, 1), Committed2(b, 2), Initial(3), net) && NoNewViewIn(net)
    ensures FaultyMsgs(b) + Committed2(b, 1).made + Committed2(b, 2).made <= net
  {
    hide Leads, Here, Initial, Repeated, Committed2, FaultyMsgs, FirstVotes;
    net := BothRepeat(b);
    HeardAlready(Repeated(b, 1), Repeated(b, 2), Initial(3), net);
    RepeatedMade(b, 1);
    RepeatedMade(b, 2);
    Committed2Facts(b, 1);
    Committed2Facts(b, 2);
    SecondIsCommitted(b, 1);
    FirstGoes(Repeated(b, 1), Repeated(b, 2), Initial(3), net, Committed2(b, 1));
    net := net + Committed2(b, 1).made;
    SecondIsCommitted(b, 2);
    SecondGoes(Committed2(b, 1), Repeated(b, 2), Initial(3), net, Committed2(b, 2));
    net := net + Committed2(b, 2).made;
  }

  lemma RepeatedMade(b: RequestBatch, i: nat)
    requires 0 < i < 3
    ensures PrepareMsg(VoteAgain(b, i)) in Repeated(b, i).made && CheckpointMsg(At1(i)) in Repeated(b, i).made
    ensures NoNewViewIn(Repeated(b, i).made)
  {
    RepeatedHeard(b, i, FirstVotes(b) + FaultyMsgs(b));
    hide Repeated;
  }

  lemma MadeByBoth(b: RequestBatch, i: nat)
    requires 0 < i < 3
    ensures CommitMsg(PledgeAgain(b, i)) in Committed2(b, i).made && CheckpointMsg(At1(i)) in Committed2(b, i).made
    ensures NoNewViewIn(Committed2(b, i).made)
  {
    hide Repeated, Committed2;
    RepeatedMade(b, i);
    Committed2Facts(b, i);
  }

  lemma GoneHeard(b: RequestBatch, net: set<Msg>)
    requires Committed2(b, 1).got <= net && Committed2(b, 2).got <= net
    requires FaultyMsgs(b) + Committed2(b, 1).made + Committed2(b, 2).made <= net
    ensures Gone1(b).got <= net && Gone1(b).made == Committed2(b, 1).made + {ViewChangeMsg(Loser(1))}
    ensures Gone2(b).got <= net + {ViewChangeMsg(Loser(1))}
    ensures Gone2(b).made == Committed2(b, 2).made + {ViewChangeMsg(Loser(2))}
  {
    hide Committed2, Robbed;
    MadeByBoth(b, 1);
    MadeByBoth(b, 2);
    GoneFacts(b, 1);
    GoneFacts(b, 2);
  }

  /** ... and leave the view, without a trace of the second. Replica 3 follows. */
  lemma AllForget(b: RequestBatch) returns (net: set<Msg>)
    ensures Here(Gone1(b), Gone2(b), Idle(3, Loser(1)), net) && NoNewViewIn(net)
    ensures forall vc :: vc in Oblivious().vset ==> ViewChangeMsg(vc) in net
  {
    hide Leads, Here, Initial, Committed2, Gone1, Gone2, Idle;
    net := BothCommitAgain(b);
    HeardAlready(Committed2(b, 1), Committed2(b, 2), Initial(3), net);
    MadeByBoth(b, 1);
    MadeByBoth(b, 2);
    GoneHeard(b, net);
    FirstForgets(b);
    FirstGoes(Committed2(b, 1), Committed2(b, 2), Initial(3), net, Gone1(b));
    net := net + Gone1(b).made;
    SecondForgets(b);
    SecondGoes(Gone1(b), Committed2(b, 2), Initial(3), net, Gone2(b));
    net := net + Gone2(b).made;
    IdleFollows(3, Loser(1));
    ThirdGoes(Gone1(b), Gone2(b), Initial(3), net, Idle(3, Loser(1)));
    net := net + Idle(3, Loser(1)).made;
  }

  lemma ObliviousIsEntered(b: RequestBatch) returns (net: set<Msg>)
    ensures Here(Over(b), Gone2(b), Idle(3, Loser(1)), net)
  {
    hide Leads, Here, Gone1, Gone2, Idle, Over, SoundNewView, Oblivious;
    var s1, s2, s3 := Gone1(b), Gone2(b), Idle(3, Loser(1));
    net := AllForget(b);
    HeardAlready(s1, s2, s3, net);
    ObliviousIsSound();
    NewViewComes(s1, s2, s3, net, Oblivious());
    net := net + {NewViewMsg(Oblivious())};
    OverFacts(b);
    PrimaryStartsOver(b);
    FirstGoes(s1, s2, s3, net, Over(b));
    net := net + Over(b).made;
  }

  lemma OverCommitted(b: RequestBatch, sys: System)
    requires 1 in sys.states && sys.states[1] == Over(b)
    ensures CommittedAt(ExampleConfig, sys, 1, 0, 2, Hash(b))
  {
    hide Over, Committed2, Repeated, PreparedEvidence, Committers;
    OverFacts(b);
    OverHeard(b);
    TwoPreparers(0, 2, Hash(b), Over(b).Msgs());
    ThreeCommitters(0, 2, Hash(b), Over(b).Msgs());
  }

  lemma OverHeard(b: RequestBatch)
    ensures PrepareMsg(VoteAgain(b, 1)) in Over(b).Msgs() && PrepareMsg(VoteAgain(b, 2)) in Over(b).Msgs()
    ensures CommitMsg(PledgeAgain(b, 0)) in Over(b).Msgs() && CommitMsg(PledgeAgain(b, 1)) in Over(b).Msgs()
    ensures CommitMsg(PledgeAgain(b, 2)) in Over(b).Msgs()
  {
    hide Over, Robbed, Committed2, Repeated;
    OverFacts(b);
    GoneFacts(b, 1);
    RepeatedMade(b, 1);
    Committed2Facts(b, 1);
  }

  lemma OnlyOblivious(sys: System)
    requires forall i :: i in sys.states ==>
              sys.states[i].acts == map[] || sys.states[i].acts == map[1 := Act(Oblivious(), 1, 2)]
    ensures forall v, n, d :: NullsGuarded(ExampleConfig, sys, v, n, d)
  {
    forall n: nat, d | 1 < n ensures NullBranchGuarded(ExampleConfig, Oblivious().vset, n, d) {
      LowWatermarksGuardNulls(ExampleConfig, Oblivious().vset, 1, n, d);
    }
    hide NullBranchGuarded;
  }

  lemma BatchIsNotKept(b: RequestBatch, sys: System)
    requires 1 in sys.states && sys.states[1].acts == map[1 := Act(Oblivious(), 1, 2)]
    ensures !Kept(sys, 0, 2, Hash(b))
  {
    assert !KeptBy(sys.states[1].acts[1], 2, Hash(b));
  }

  /** Replica 1 has committed and executed the batch at 2 in view 0 and entered view 1, which assigns the
      null request to 2, although the guard of the null branch holds everywhere and no view was left without
      a reason. */
  lemma DecisionGoesWithBatch(b: RequestBatch) returns (sys: System)
    ensures FaultBound(ExampleConfig, FaultyPrimary) && PromptlyReachable(ExampleConfig, FaultyPrimary, sys)
    ensures CommittedAt(ExampleConfig, sys, 1, 0, 2, Hash(b)) && Exec(2, Hash(b), 0) in sys.states[1].execs
    ensures (forall v, n, d :: NullsGuarded(ExampleConfig, sys, v, n, d)) && !Kept(sys, 0, 2, Hash(b))
  {
    hide Leads, PromptlyReachable, FaultBound, NullsGuarded, CommittedAt, Kept, Over, Gone1, Gone2, Idle, Oblivious;
    var net := ObliviousIsEntered(b);
    sys := System(Trio(Over(b), Gone2(b), Idle(3, Loser(1))), net);
    OverFacts(b);
    EntriesOfAll(b, sys);
    OverCommitted(b, sys);
    OnlyOblivious(sys);
    BatchIsNotKept(b, sys);
  }

  lemma EntriesOfAll(b: RequestBatch, sys: System)
    requires sys.states == Trio(Over(b), Gone2(b), Idle(3, Loser(1)))
    ensures forall i :: i in sys.states ==>
              sys.states[i].acts == map[] || sys.states[i].acts == map[1 := Act(Oblivious(), 1, 2)]
  {
    hide Leads, Over, Gone1, Gone2, Idle, Oblivious;
    OverFacts(b);
    SecondForgets(b);
    IdleFollows(3, Loser(1));
  }
}
