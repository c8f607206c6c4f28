/** What holds over whole runs of one correct replica: one vote per slot, executions in order, records
    that never get older; and exactly when a prepared certificate survives a step that can lose it. */
module ReplicaRuns {
  import opened PbftTypes
  import opened ReplicaSteps
  import opened ReplicaInvariant
  import opened ReplicaLog
  import opened ReplicaFacts

  // ----- One vote per slot -----

  lemma MadeByTheEnd(cfg: Config, id: nat, log: seq<State>, i: nat)
    requires cfg.Valid() && Legal(cfg, id, log) && i < |log|
    ensures log[i].made <= log[|log| - 1].made && log[|log| - 1].id == id
  {
    hide Inv, Next;
    RunGoesOn(cfg, id, log, i, |log| - 1);
    RunGoesOn(cfg, id, log, 0, |log| - 1);
  }

  lemma VotesOf(cfg: Config, id: nat, log: seq<State>)
    requires cfg.Valid() && Legal(cfg, id, log)
    ensures PrepareVotes(cfg, log[|log| - 1]) && CommitVotes(cfg, log[|log| - 1])
    ensures PrePrepareVotes(cfg, log[|log| - 1])
  {
    hide Window, Certificates, PrepareVotes, CommitVotes, PrePrepareVotes, PrimarySlots, Views, Accepted, Watermark,
         CheckpointsTrue, Executions, PQTrue, OwnViewChanges, CommitsReported, Next;
    LegalInv(cfg, id, log, log[|log| - 1]);
  }

  /** Over a whole run without restarts a replica makes at most one prepare, one commit and, as
      primary, one pre-prepare for each view and number, although certificates are deleted. */
  lemma OneVotePerSlot(cfg: Config, id: nat, log: seq<State>, i: nat, j: nat)
    requires cfg.Valid() && Legal(cfg, id, log) && i < |log| && j < |log|
    ensures forall p, q :: PrepareMsg(p) in log[i].made && PrepareMsg(q) in log[j].made && p.v == q.v && p.n == q.n ==>
              p == q
    ensures forall c, e :: CommitMsg(c) in log[i].made && CommitMsg(e) in log[j].made && c.v == e.v && c.n == e.n ==>
              c == e
    ensures forall p, q ::
              PrePrepareMsg(p) in log[i].made && PrePrepareMsg(q) in log[j].made && p.v == q.v && p.n == q.n ==> p == q
  {
    hide Legal, Inv;
    MadeByTheEnd(cfg, id, log, i);
    MadeByTheEnd(cfg, id, log, j);
    VotesOf(cfg, id, log);
  }

  // ----- Executions -----

  lemma StepExecutes(cfg: Config, s: State, step: Step)
    requires cfg.Valid() && Enabled(cfg, s, step)
    ensures if step.StartExec? then
              CanStartExec(cfg, s, step.n) && Apply(cfg, s, step) == DoStartExec(s, step.n)
              && Apply(cfg, s, step).execs == s.execs + [Exec(step.n, s.CertAt(Slot(s.view, step.n)).digest, s.view)]
            else Apply(cfg, s, step).execs == s.execs
  {
    hide CanHear, CanAcceptPrePrepare, CanIssuePrePrepare, CanCastPrepare, CanCountPrepare, CanCastCommit,
         CanCountCommit, CanStartExec, CanMoveOnQuorum, CanMoveOnReports, CanMoveOnNewView, CanActivate,
         DescribesReplica, CalcP, CalcQ, ActivatedCerts;
  }

  lemma NextExecutes(cfg: Config, s: State, s': State)
    requires cfg.Valid() && Inv(cfg, s) && Next(cfg, s, s')
    ensures s'.execs == s.execs
            || (var n := |s.execs| + 1; CanStartExec(cfg, s, n) && s' == DoStartExec(s, n) && |s'.execs| == n)
  {
    hide Window, Certificates, PrepareVotes, CommitVotes, PrePrepareVotes, PrimarySlots, Views, Accepted, Watermark,
         CheckpointsTrue, PQTrue, OwnViewChanges, CommitsReported, Enabled, Apply, Committed, DoStartExec;
    var step :| Enabled(cfg, s, step) && s' == Apply(cfg, s, step);
    StepExecutes(cfg, s, step);
  }

  lemma PrefixIsLegal(cfg: Config, id: nat, log: seq<State>)
    requires cfg.Valid() && Legal(cfg, id, log) && |log| > 1
    ensures Legal(cfg, id, log[..|log| - 1])
  {
    hide Next;
    var init := log[..|log| - 1];
    forall i | 0 <= i < |init| - 1 ensures Linked(cfg, init, i) {
      assert Linked(cfg, log, i);
    }
  }

  /** Execution is a gap-free total order: the (i + 1)-th execution of a run is at number i + 1, and was
      started once, in a state where its certificate was committed. */
  lemma {:induction false} ExecutionStarts(cfg: Config, id: nat, log: seq<State>, i: nat) returns (k: nat)
    requires cfg.Valid() && Legal(cfg, id, log) && i < |log[|log| - 1].execs|
    ensures k + 1 < |log|
    ensures log[k].execs == log[|log| - 1].execs[..i]
    ensures CanStartExec(cfg, log[k], i + 1) && log[k + 1] == DoStartExec(log[k], i + 1)
    ensures var s := log[k]; var slot := Slot(s.view, i + 1);
            && s.exec.None? && !s.skip && s.lastExec == i
            && slot in s.certs && Committed(cfg, s, s.certs[slot].digest, s.view, i + 1)
    decreases |log|
  {
    hide Inv, Next, CanStartExec, DoStartExec, Committed;
    if |log| > 1 {
      var s, s' := log[|log| - 2], log[|log| - 1];
      RunInv(cfg, id, log, |log| - 2);
      assert Linked(cfg, log, |log| - 2);
      NextExecutes(cfg, s, s');
      NextGoesOn(cfg, s, s');
      if i < |s.execs| {
        PrefixIsLegal(cfg, id, log);
        k := ExecutionStarts(cfg, id, log[..|log| - 1], i);
        assert s'.execs[..i] == s.execs[..i];
      } else {
        k := |log| - 2;
        assert s'.execs[..i] == s.execs;
        StartedWhen(cfg, s, i + 1);
      }
    }
  }

  lemma StartedWhen(cfg: Config, s: State, n: nat)
    requires CanStartExec(cfg, s, n)
    ensures s.exec.None? && !s.skip && n == s.lastExec + 1
    ensures Slot(s.view, n) in s.certs && Committed(cfg, s, s.certs[Slot(s.view, n)].digest, s.view, n)
  {
    hide Committed;
  }

  // ----- Records -----

  /** The recorded views do not fall as long as their numbers stay above the watermark. */
  ghost predicate RecordsKept(s: State, s': State) {
    && (forall n :: n in s.pset && s'.h < n ==> n in s'.pset && s.pset[n].v <= s'.pset[n].v)
    && (forall k :: k in s.qset && s'.h < k.n ==> k in s'.qset && s.qset[k].v <= s'.qset[k].v)
  }

  lemma ChangeViewKeepsRecords(cfg: Config, s: State, vc: ViewChange)
    requires cfg.Valid() && Window(cfg, s)
    ensures RecordsKept(s, DoChangeView(cfg, s, vc))
  {
    hide SlotPrepared, KeyPrePrepared;
  }

  lemma MoveKeepsRecords(s: State, h: nat)
    ensures RecordsKept(s, Move(s, h)) && RecordsKept(s, Move(s.(batches := {}), h))
  {
    hide LosesBatch;
  }

  /** Certificates and executions are no records ... */
  lemma VotingKeepsRecords(cfg: Config, s: State, step: Step)
    requires cfg.Valid() && Enabled(cfg, s, step)
    requires !Quiet(step) && !Moves(step) && !step.ChangeView?
    ensures Apply(cfg, s, step).pset == s.pset && Apply(cfg, s, step).qset == s.qset
  {
    hide CanAcceptPrePrepare, CanIssuePrePrepare, CanCastPrepare, CanCountPrepare, CanCastCommit, CanCountCommit,
         CanActivate, ActivatedCerts;
    match step
    case AcceptPrePrepare(_) =>
    case IssuePrePrepare(_) =>
    case CastPrepare(_) =>
    case CastNewViewPrepare(_) =>
    case CountPrepare(_) =>
    case CastCommit(_) =>
    case CountCommit(_) =>
    case Activate(_, _, _) =>
  }

  /** ... nor are messages, batches and checkpoints. */
  lemma OthersKeepRecords(cfg: Config, s: State, step: Step)
    requires cfg.Valid() && Enabled(cfg, s, step)
    requires Quiet(step)
    ensures Apply(cfg, s, step).pset == s.pset && Apply(cfg, s, step).qset == s.qset
  {
    hide CanHear, CanStartExec;
    match step
    case Hear(_) =>
    case KeepBatch(_) =>
    case StartExec(_) =>
    case FinishExec =>
    case ReleaseExec =>
    case SkipOn =>
    case TakeCheckpoint(_) =>
    case StoreCheckpoint(_) =>
  }

  lemma MovingKeepsRecords(cfg: Config, s: State, step: Step)
    requires cfg.Valid() && Window(cfg, s) && Enabled(cfg, s, step)
    requires Moves(step) || step.ChangeView?
    ensures RecordsKept(s, Apply(cfg, s, step))
  {
    hide CanMoveOnQuorum, CanMoveOnReports, CanMoveOnNewView, CanChangeView, DoChangeView, Move, RecordsKept;
    match step
    case MoveOnQuorum(k) => MoveKeepsRecords(s, cfg.Floor(k.n));
    case MoveOnReports(n) => MoveKeepsRecords(s, cfg.Floor(n));
    case MoveOnNewView(_, cp) => MoveKeepsRecords(s, cfg.Floor(cp));
    case ChangeView(vc) => ChangeViewKeepsRecords(cfg, s, vc);
  }

  lemma StepKeepsRecords(cfg: Config, s: State, step: Step)
    requires cfg.Valid() && Window(cfg, s) && Enabled(cfg, s, step)
    ensures RecordsKept(s, Apply(cfg, s, step))
  {
    hide Window, Enabled, Apply;
    if Moves(step) || step.ChangeView? {
      MovingKeepsRecords(cfg, s, step);
    } else if Quiet(step) {
      OthersKeepRecords(cfg, s, step);
    } else {
      VotingKeepsRecords(cfg, s, step);
    }
  }

  /** Over a run, with any number of view changes, the view recorded for a number (or for a digest
      and number) never falls while the number stays above the watermark. */
  lemma {:induction false} RecordsNeverFall(cfg: Config, id: nat, log: seq<State>, i: nat, j: nat)
    requires cfg.Valid() && Legal(cfg, id, log) && i <= j < |log|
    ensures RecordsKept(log[i], log[j])
    decreases j
  {
    hide Inv, Enabled, Apply, Window;
    if i < j {
      RecordsNeverFall(cfg, id, log, i, j - 1);
      RunInv(cfg, id, log, j - 1);
      WindowFacts(cfg, log[j - 1]);
      assert Linked(cfg, log, j - 1);
      RunGoesOn(cfg, id, log, j - 1, j);
      var step :| Enabled(cfg, log[j - 1], step) && log[j] == Apply(cfg, log[j - 1], step);
      StepKeepsRecords(cfg, log[j - 1], step);
    }
  }

  // ----- Losing a prepared certificate -----

  /** A watermark move deletes batches by digest. A prepared certificate above the new watermark stays
      prepared exactly if no certificate at or below it carries the same non-null digest. */
  lemma MoveKeepsPreparedIff(cfg: Config, s: State, slot: Slot, h: nat)
    requires cfg.Valid() && Inv(cfg, s) && SlotPrepared(cfg, s, slot) && s.h <= h < slot.n
    ensures SlotPrepared(cfg, Move(s, h), slot) <==>
              s.certs[slot].digest == Null || s.certs[slot].digest !in DroppedDigests(s, h)
  {
    hide PrepareVotes, CommitVotes, PrePrepareVotes, PrimarySlots, Views, Accepted, Watermark, CheckpointsTrue,
         Executions, PQTrue, OwnViewChanges, CommitsReported, LosesBatch, DroppedDigests;
    CertFacts(cfg, s, slot);
    assert slot in Move(s, h).certs && Move(s, h).certs[slot] == s.certs[slot];
  }

  /** A later pre-prepare can take the place of a null one. A prepared certificate stays prepared for
      its digest exactly if it is not null, or the new pre-prepare is null, too. */
  lemma AcceptKeepsPreparedIff(cfg: Config, s: State, p: PrePrepare)
    requires cfg.Valid() && Inv(cfg, s) && CanAcceptPrePrepare(cfg, s, p) && SlotPrepared(cfg, s, Slot(p.v, p.n))
    ensures Prepared(cfg, DoAcceptPrePrepare(s, p), s.certs[Slot(p.v, p.n)].digest, p.v, p.n) <==>
              s.certs[Slot(p.v, p.n)].digest != Null || p.d == Null
  {
    hide PrepareVotes, CommitVotes, PrePrepareVotes, PrimarySlots, Views, Accepted, Watermark, CheckpointsTrue,
         Executions, PQTrue, OwnViewChanges, CommitsReported;
    CertFacts(cfg, s, Slot(p.v, p.n));
    var s' := DoAcceptPrePrepare(s, p);
    assert s'.certs[Slot(p.v, p.n)].prePrepare == Some(p);
    var k := QKey(s.certs[Slot(p.v, p.n)].digest, p.n);
    assert k in s.qset ==> s.qset[k].v < s.view;
  }
}
