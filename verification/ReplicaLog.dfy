/** Runs of one replica, as the list of states it went through, and the facts about its present
    state that its handlers rely on. */
module ReplicaLog {
  import opened PbftTypes
  import opened Quorums
  import opened ReplicaSteps
  import opened ReplicaInvariant
  import opened InvariantViews

  ghost predicate Linked(cfg: Config, log: seq<State>, i: nat)
    requires cfg.Valid() && i + 1 < |log|
  {
    Next(cfg, log[i], log[i + 1])
  }

  /** The log starts in the initial state, and every state follows from the one before by a step. */
  ghost predicate Legal(cfg: Config, id: nat, log: seq<State>)
    requires cfg.Valid()
  {
    && log != []
    && log[0] == Initial(id)
    && forall i :: 0 <= i < |log| - 1 ==> Linked(cfg, log, i)
  }

  lemma LegalExtends(cfg: Config, id: nat, log: seq<State>, s: State)
    requires cfg.Valid() && Legal(cfg, id, log) && Next(cfg, log[|log| - 1], s)
    ensures Legal(cfg, id, log + [s])
  {
    hide Next;
    var log' := log + [s];
    forall i | 0 <= i < |log'| - 1 ensures Linked(cfg, log', i) {
      if i < |log| - 1 {
        assert Linked(cfg, log, i);
      }
    }
  }

  lemma NextKeepsInv(cfg: Config, s: State, s': State)
    requires cfg.Valid() && Inv(cfg, s) && Next(cfg, s, s')
    ensures Inv(cfg, s')
  {
    hide Inv, Enabled, Apply;
    var step :| Enabled(cfg, s, step) && s' == Apply(cfg, s, step);
    StepKeepsInv(cfg, s, step);
  }

  /** Every state of a run satisfies the invariant. */
  lemma {:induction false} RunInv(cfg: Config, id: nat, log: seq<State>, k: nat)
    requires cfg.Valid() && Legal(cfg, id, log) && k < |log|
    ensures Inv(cfg, log[k])
  {
    hide Inv, Next;
    if k == 0 {
      InitialInv(cfg, id);
    } else {
      RunInv(cfg, id, log, k - 1);
      assert Linked(cfg, log, k - 1);
      NextKeepsInv(cfg, log[k - 1], log[k]);
    }
  }

  lemma LegalInv(cfg: Config, id: nat, log: seq<State>, s: State)
    requires cfg.Valid() && Legal(cfg, id, log) && log[|log| - 1] == s
    ensures Inv(cfg, s)
  {
    hide Inv;
    RunInv(cfg, id, log, |log| - 1);
  }

  /** What no step undoes. */
  ghost predicate Onward(s: State, s': State) {
    && s.id == s'.id && s.view <= s'.view && s.h <= s'.h && s.lastExec <= s'.lastExec
    && s.made <= s'.made && s.got <= s'.got && s.accepted <= s'.accepted && s.execs <= s'.execs
  }

  lemma MoveGoesOn(s: State, h: nat)
    requires s.h <= h
    ensures Onward(s, Move(s, h))
  {
  }

  lemma VotingGoesOn(cfg: Config, s: State, step: Step)
    requires cfg.Valid() && Enabled(cfg, s, step)
    requires !Quiet(step) && !Moves(step) && !step.ChangeView? && !step.Activate?
    ensures Onward(s, Apply(cfg, s, step))
  {
    hide CanAcceptPrePrepare, CanIssuePrePrepare, CanCastPrepare, CanCountPrepare, CanCastCommit, CanCountCommit;
    match step
    case AcceptPrePrepare(_) =>
    case IssuePrePrepare(_) =>
    case CastPrepare(_) =>
    case CastNewViewPrepare(_) =>
    case CountPrepare(_) =>
    case CastCommit(_) =>
    case CountCommit(_) =>
  }

  lemma ExecutingGoesOn(cfg: Config, s: State, step: Step)
    requires cfg.Valid() && Enabled(cfg, s, step)
    requires Quiet(step)
    ensures Onward(s, Apply(cfg, s, step))
  {
    hide CanHear, CanStartExec;
    match step
    case Hear(_) =>
    case KeepBatch(_) =>
    case StartExec(_) =>
    case FinishExec =>
    case ReleaseExec =>
    case SkipOn =>
    case TakeCheckpoint(_) =>
    case StoreCheckpoint(_) =>
  }

  lemma MovingGoesOn(cfg: Config, s: State, step: Step)
    requires cfg.Valid() && Window(cfg, s) && Enabled(cfg, s, step)
    requires Moves(step)
    ensures Onward(s, Apply(cfg, s, step))
  {
    hide Onward, Move, Accepts;
    match step
    case MoveOnQuorum(k) =>
      FloorMonotone(cfg, s.h, k.n);
      MoveGoesOn(s, cfg.Floor(k.n));
    case MoveOnReports(n) =>
      FloorMonotone(cfg, s.h, n);
      MoveGoesOn(s.(batches := {}), cfg.Floor(n));
      assert Onward(s, s.(batches := {})) by { ForgettingGoesOn(s); }
      OnwardTrans(s, s.(batches := {}), Move(s.(batches := {}), cfg.Floor(n)));
    case MoveOnNewView(nv, cp) =>
      FloorMonotone(cfg, s.h, cp);
      MoveGoesOn(s, cfg.Floor(cp));
  }

  lemma ForgettingGoesOn(s: State)
    ensures Onward(s, s.(batches := {}))
  {
  }

  lemma OnwardTrans(s: State, s': State, s'': State)
    requires Onward(s, s') && Onward(s', s'')
    ensures Onward(s, s'')
  {
  }

  lemma ChangingGoesOn(cfg: Config, s: State, step: Step)
    requires cfg.Valid() && Enabled(cfg, s, step) && (step.ChangeView? || step.Activate?)
    ensures Onward(s, Apply(cfg, s, step))
  {
    hide DescribesReplica, CalcP, CalcQ, ActivatedCerts, Accepts;
  }

  lemma StepGoesOn(cfg: Config, s: State, step: Step)
    requires cfg.Valid() && Inv(cfg, s) && Enabled(cfg, s, step)
    ensures Onward(s, Apply(cfg, s, step))
  {
    assert Window(cfg, s);
    hide Inv, Window, Enabled, Apply, Onward;
    if Moves(step) {
      MovingGoesOn(cfg, s, step);
    } else if step.ChangeView? || step.Activate? {
      ChangingGoesOn(cfg, s, step);
    } else if Quiet(step) {
      ExecutingGoesOn(cfg, s, step);
    } else {
      VotingGoesOn(cfg, s, step);
    }
  }

  lemma NextGoesOn(cfg: Config, s: State, s': State)
    requires cfg.Valid() && Inv(cfg, s) && Next(cfg, s, s')
    ensures Onward(s, s')
  {
    hide Inv, Enabled, Apply;
    var step :| Enabled(cfg, s, step) && s' == Apply(cfg, s, step);
    StepGoesOn(cfg, s, step);
  }

  /** Over any run the watermark, the view and the last execution never fall, and no message,
      acceptance or execution is undone. */
  lemma {:induction false} RunGoesOn(cfg: Config, id: nat, log: seq<State>, i: nat, j: nat)
    requires cfg.Valid() && Legal(cfg, id, log) && i <= j < |log|
    ensures Onward(log[i], log[j])
    decreases j
  {
    hide Inv, Next;
    if i < j {
      RunGoesOn(cfg, id, log, i, j - 1);
      RunInv(cfg, id, log, j - 1);
      assert Linked(cfg, log, j - 1);
      NextGoesOn(cfg, log[j - 1], log[j]);
    }
  }

  // ----- Each step, by name -----

  /** Certificates with a null pre-prepare above spec: null requests still to be executed. */
  ghost function WaitingNulls(certs: map<Slot, Cert>, spec: nat): set<Slot> {
    set slot | slot in certs && certs[slot].prePrepare.Some? && certs[slot].digest == Null && spec < slot.n
  }

  /** A step that keeps the view, starts an execution only if none is in flight, and adds no null
      request. */
  ghost predicate Plain(s: State, s': State) {
    && Onward(s, s')
    && s'.got == s.got && s'.skip == s.skip && s.seqNo <= s'.seqNo
    && s'.view == s.view && s'.active == s.active && s'.acts == s.acts
    && (s'.exec == s.exec || (s.exec.None? && s'.exec == Some(s'.lastExec + 1))) && s'.lastExec == s.lastExec
    && WaitingNulls(s'.certs, s'.SpecExec()) <= WaitingNulls(s.certs, s.SpecExec())
  }

  ghost predicate SamePrepares(s: State, s': State) {
    forall p :: PrepareMsg(p) in s'.made ==> PrepareMsg(p) in s.made
  }

  lemma NextHear(cfg: Config, s: State, m: Msg)
    requires cfg.Valid() && CanHear(cfg, s, m)
    ensures Next(cfg, s, s.(got := s.got + {m}))
  {
    assert Enabled(cfg, s, Hear(m));
  }

  lemma NextKeepBatch(cfg: Config, s: State, d: Digest)
    requires cfg.Valid() && d != Null
    ensures Next(cfg, s, s.(batches := s.batches + {d})) && Plain(s, s.(batches := s.batches + {d}))
    ensures SamePrepares(s, s.(batches := s.batches + {d}))
  {
    assert Enabled(cfg, s, KeepBatch(d));
  }

  lemma NextAcceptPrePrepare(cfg: Config, s: State, p: PrePrepare)
    requires cfg.Valid() && CanAcceptPrePrepare(cfg, s, p)
    ensures Next(cfg, s, DoAcceptPrePrepare(s, p))
  {
    assert Enabled(cfg, s, AcceptPrePrepare(p));
  }

  lemma IssuePrePrepareIsPlain(s: State, b: RequestBatch)
    ensures Plain(s, DoIssuePrePrepare(s, b)) && SamePrepares(s, DoIssuePrePrepare(s, b))
  {
  }

  lemma NextIssuePrePrepare(cfg: Config, s: State, b: RequestBatch)
    requires cfg.Valid() && CanIssuePrePrepare(cfg, s, b)
    ensures Next(cfg, s, DoIssuePrePrepare(s, b)) && Plain(s, DoIssuePrePrepare(s, b))
    ensures SamePrepares(s, DoIssuePrePrepare(s, b))
  {
    hide Plain, SamePrepares;
    IssuePrePrepareIsPlain(s, b);
    assert Enabled(cfg, s, IssuePrePrepare(b));
  }

  lemma CastPrepareIsPlain(s: State, n: nat)
    ensures Plain(s, DoCastPrepare(s, n))
  {
  }

  lemma NextCastPrepare(cfg: Config, s: State, n: nat)
    requires cfg.Valid() && CanCastPrepare(cfg, s, n)
    ensures Next(cfg, s, DoCastPrepare(s, n)) && Plain(s, DoCastPrepare(s, n))
  {
    hide Plain, SamePrepares;
    CastPrepareIsPlain(s, n);
    assert Enabled(cfg, s, CastPrepare(n));
  }

  lemma NextCastNewViewPrepare(cfg: Config, s: State, n: nat)
    requires cfg.Valid() && CanCastNewViewPrepare(cfg, s, n)
    ensures Next(cfg, s, DoCastNewViewPrepare(s, n)) && Plain(s, DoCastNewViewPrepare(s, n))
  {
    assert Enabled(cfg, s, CastNewViewPrepare(n));
  }

  lemma CountPrepareIsPlain(s: State, p: Prepare)
    ensures Plain(s, DoCountPrepare(s, p)) && SamePrepares(s, DoCountPrepare(s, p))
  {
  }

  lemma NextCountPrepare(cfg: Config, s: State, p: Prepare)
    requires cfg.Valid() && CanCountPrepare(cfg, s, p)
    ensures Next(cfg, s, DoCountPrepare(s, p)) && Plain(s, DoCountPrepare(s, p))
    ensures SamePrepares(s, DoCountPrepare(s, p))
  {
    hide Plain, SamePrepares;
    CountPrepareIsPlain(s, p);
    assert Enabled(cfg, s, CountPrepare(p));
  }

  lemma CastCommitIsPlain(s: State, n: nat)
    ensures Plain(s, DoCastCommit(s, n)) && SamePrepares(s, DoCastCommit(s, n))
  {
  }

  lemma NextCastCommit(cfg: Config, s: State, n: nat)
    requires cfg.Valid() && CanCastCommit(cfg, s, n)
    ensures Next(cfg, s, DoCastCommit(s, n)) && Plain(s, DoCastCommit(s, n))
    ensures SamePrepares(s, DoCastCommit(s, n))
  {
    hide Plain, SamePrepares;
    CastCommitIsPlain(s, n);
    assert Enabled(cfg, s, CastCommit(n));
  }

  lemma CountCommitIsPlain(s: State, c: Commit)
    ensures Plain(s, DoCountCommit(s, c)) && SamePrepares(s, DoCountCommit(s, c))
  {
  }

  lemma NextCountCommit(cfg: Config, s: State, c: Commit)
    requires cfg.Valid() && CanCountCommit(cfg, s, c)
    ensures Next(cfg, s, DoCountCommit(s, c)) && Plain(s, DoCountCommit(s, c))
    ensures SamePrepares(s, DoCountCommit(s, c))
  {
    hide Plain, SamePrepares;
    CountCommitIsPlain(s, c);
    assert Enabled(cfg, s, CountCommit(c));
  }

  lemma NextStartExec(cfg: Config, s: State, n: nat)
    requires cfg.Valid() && CanStartExec(cfg, s, n)
    ensures Next(cfg, s, DoStartExec(s, n)) && Plain(s, DoStartExec(s, n))
    ensures SamePrepares(s, DoStartExec(s, n))
  {
    assert Enabled(cfg, s, StartExec(n));
  }

  lemma NextFinishExec(cfg: Config, s: State)
    requires cfg.Valid() && s.exec == Some(s.lastExec + 1)
    ensures Next(cfg, s, s.(lastExec := s.lastExec + 1))
  {
    assert Enabled(cfg, s, FinishExec);
  }

  lemma NextReleaseExec(cfg: Config, s: State)
    requires cfg.Valid() && s.exec == Some(s.lastExec)
    ensures Next(cfg, s, s.(exec := None))
  {
    assert Enabled(cfg, s, ReleaseExec);
  }

  lemma NextSkipOn(cfg: Config, s: State)
    requires cfg.Valid()
    ensures Next(cfg, s, s.(skip := true))
  {
    assert Enabled(cfg, s, SkipOn);
  }

  lemma NextTakeCheckpoint(cfg: Config, s: State, stateId: StateId)
    requires cfg.Valid() && s.exec == Some(s.lastExec) && cfg.IsMultiple(s.lastExec)
    ensures Next(cfg, s, DoTakeCheckpoint(s, stateId)) && Plain(s, DoTakeCheckpoint(s, stateId))
    ensures SamePrepares(s, DoTakeCheckpoint(s, stateId))
  {
    assert Enabled(cfg, s, TakeCheckpoint(stateId));
  }

  lemma NextStoreCheckpoint(cfg: Config, s: State, k: Checkpoint)
    requires cfg.Valid() && CheckpointMsg(k) in s.Msgs() && InW(cfg, s, k.n)
    ensures Next(cfg, s, s.(ckpts := s.ckpts + {k})) && Plain(s, s.(ckpts := s.ckpts + {k}))
    ensures SamePrepares(s, s.(ckpts := s.ckpts + {k}))
  {
    assert Enabled(cfg, s, StoreCheckpoint(k));
  }

  lemma NextMoveOnQuorum(cfg: Config, s: State, k: Checkpoint)
    requires cfg.Valid() && CanMoveOnQuorum(cfg, s, k)
    ensures Next(cfg, s, Move(s, cfg.Floor(k.n)))
  {
    assert Enabled(cfg, s, MoveOnQuorum(k));
  }

  lemma NextMoveOnReports(cfg: Config, s: State, n: nat)
    requires cfg.Valid() && CanMoveOnReports(cfg, s, n)
    ensures Next(cfg, s, Move(s.(batches := {}), cfg.Floor(n)))
  {
    assert Enabled(cfg, s, MoveOnReports(n));
  }

  lemma NextMoveOnNewView(cfg: Config, s: State, nv: NewView, cp: nat)
    requires cfg.Valid() && CanMoveOnNewView(cfg, s, nv, cp)
    ensures Next(cfg, s, Move(s, cfg.Floor(cp)))
  {
    assert Enabled(cfg, s, MoveOnNewView(nv, cp));
  }

  lemma NextChangeView(cfg: Config, s: State, vc: ViewChange)
    requires cfg.Valid() && CanChangeView(cfg, s, vc)
    ensures Next(cfg, s, DoChangeView(cfg, s, vc))
  {
    assert Enabled(cfg, s, ChangeView(vc));
  }

  lemma NextActivate(cfg: Config, s: State, nv: NewView, cp: nat, top: nat)
    requires cfg.Valid() && CanActivate(cfg, s, nv, cp, top)
    ensures Next(cfg, s, DoActivate(s, nv, cp, top))
  {
    assert Enabled(cfg, s, Activate(nv, cp, top));
  }
}
