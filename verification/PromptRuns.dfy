/** Runs of the system in which every replica that leaves a view has a reason in that view. */
module PromptRuns {
  import opened PbftTypes
  import opened Quorums
  import opened NewViewRule
  import opened ReplicaSteps
  import opened ReplicaInvariant
  import opened ReplicaFacts
  import opened ViewChangeCauses
  import opened PbftSystem
  import opened Agreement

  ghost predicate PromptStep(cfg: Config, sys: System, sys': System)
    requires cfg.Valid()
  {
    forall i :: i in sys.states && i in sys'.states ==> Prompt(cfg, sys.states[i], sys'.states[i])
  }

  ghost predicate IsPromptRun(cfg: Config, faulty: set<nat>, run: seq<System>)
    requires FaultBound(cfg, faulty)
  {
    IsRun(cfg, faulty, run) && forall k :: 0 < k < |run| ==> PromptStep(cfg, run[k - 1], run[k])
  }

  ghost predicate PromptlyReachable(cfg: Config, faulty: set<nat>, sys: System)
    requires FaultBound(cfg, faulty)
  {
    exists run :: IsPromptRun(cfg, faulty, run) && run[|run| - 1] == sys
  }

  lemma PromptIsReachable(cfg: Config, faulty: set<nat>, sys: System)
    requires FaultBound(cfg, faulty) && PromptlyReachable(cfg, faulty, sys)
    ensures Reachable(cfg, faulty, sys)
  {
    hide SysNext, Init, PromptStep;
    var run :| IsPromptRun(cfg, faulty, run) && run[|run| - 1] == sys;
  }

  lemma PromptGoesOn(cfg: Config, faulty: set<nat>, sys: System, sys': System)
    requires FaultBound(cfg, faulty) && PromptlyReachable(cfg, faulty, sys)
    requires SysNext(cfg, faulty, sys, sys') && PromptStep(cfg, sys, sys')
    ensures PromptlyReachable(cfg, faulty, sys')
  {
    hide SysNext, Init, PromptStep;
    var run :| IsPromptRun(cfg, faulty, run) && run[|run| - 1] == sys;
    var run' := run + [sys'];
    forall k | 0 < k < |run'|
      ensures SysNext(cfg, faulty, run'[k - 1], run'[k]) && PromptStep(cfg, run'[k - 1], run'[k])
    {
      if k < |run| {
        assert SysNext(cfg, faulty, run[k - 1], run[k]) && PromptStep(cfg, run[k - 1], run[k]);
      }
    }
    assert IsPromptRun(cfg, faulty, run') && run'[|run'| - 1] == sys';
  }

  // ----- What a step can do to the view -----

  /** Only a view change changes the view, and no view is un-entered. */
  ghost predicate ViewMoves(s: State, s': State) {
    && s.made <= s'.made && s.acts.Keys <= s'.acts.Keys && s.view <= s'.view
    && (s'.view != s.view ==> exists vc :: ViewChangeMsg(vc) in s'.made && vc.v == s'.view)
    && (forall vc :: ViewChangeMsg(vc) in s'.made && ViewChangeMsg(vc) !in s.made ==> s.view < s'.view == vc.v)
  }

  lemma StepMovesView(cfg: Config, s: State, step: Step)
    requires cfg.Valid() && Enabled(cfg, s, step)
    ensures ViewMoves(s, Apply(cfg, s, step))
  {
    hide CanHear, CanAcceptPrePrepare, CanIssuePrePrepare, CanCastPrepare, CanCastNewViewPrepare, CanCountPrepare,
         CanCastCommit, CanCountCommit, CanStartExec, CanMoveOnQuorum, CanMoveOnReports, CanMoveOnNewView,
         DescribesReplica, CanActivate, CalcP, CalcQ, ActivatedCerts;
    match step
    case Hear(_) =>
    case KeepBatch(_) =>
    case AcceptPrePrepare(_) =>
    case IssuePrePrepare(_) =>
    case CastPrepare(_) =>
    case CastNewViewPrepare(_) =>
    case CountPrepare(_) =>
    case CastCommit(_) =>
    case CountCommit(_) =>
    case StartExec(_) =>
    case FinishExec =>
    case ReleaseExec =>
    case SkipOn =>
    case TakeCheckpoint(_) =>
    case StoreCheckpoint(_) =>
    case MoveOnQuorum(_) =>
    case MoveOnReports(_) =>
    case MoveOnNewView(_, _) =>
    case ChangeView(vc) => assert ViewChangeMsg(vc) in Apply(cfg, s, step).made;
    case Activate(_, _, _) =>
  }

  lemma StepSetsView(cfg: Config, s: State, step: Step)
    requires cfg.Valid() && Enabled(cfg, s, step)
    ensures Apply(cfg, s, step).view == if step.ChangeView? then step.vc.v else s.view
  {
    hide CanHear, CanAcceptPrePrepare, CanIssuePrePrepare, CanCastPrepare, CanCastNewViewPrepare, CanCountPrepare,
         CanCastCommit, CanCountCommit, CanStartExec, CanMoveOnQuorum, CanMoveOnReports, CanMoveOnNewView,
         DescribesReplica, CanActivate, CalcP, CalcQ, ActivatedCerts;
  }

  /** A replica that is past view 0 sent a view-change for the view it is in. */
  ghost predicate Announced(s: State) {
    0 < s.view ==> exists vc :: ViewChangeMsg(vc) in s.made && vc.v == s.view
  }

  // ----- Why a view is left -----

  /** A correct replica sent a view-change for a view after v. */
  ghost predicate Left(sys: System, v: nat) {
    exists i, vc :: i in sys.states && ViewChangeMsg(vc) in sys.states[i].made && v < vc.v
  }

  /** The primary of v entered it, or its new-view for v does not verify. */
  ghost predicate Opened(cfg: Config, sys: System, v: nat)
    requires cfg.Valid()
  {
    || (cfg.Primary(v) in sys.states && v in sys.states[cfg.Primary(v)].acts)
    || exists nv :: NewViewMsg(nv) in sys.net && Unacceptable(cfg, v, nv)
  }

  /** No view of a correct primary is left before that. */
  ghost predicate LeftWhenOpened(cfg: Config, faulty: set<nat>, sys: System)
    requires cfg.Valid()
  {
    && (forall i :: i in sys.states ==> Announced(sys.states[i]))
    && (forall v :: 0 < v && cfg.Primary(v) !in faulty && Left(sys, v) ==> Opened(cfg, sys, v))
  }

  lemma CallerLeft(cfg: Config, faulty: set<nat>, sys: System, i: nat, w: nat, v: nat)
    requires FaultBound(cfg, faulty) && SysInv(cfg, faulty, sys) && i in sys.states
    requires Joins(cfg, sys.states[i], w) && v < w
    ensures Left(sys, v)
  {
    hide Inv, SoundNewView;
    assert ReplicaOk(cfg, sys, i);
    var ms := sys.states[i].Msgs();
    var x := CorrectMember(Callers(ms, w), faulty);
    var m :| m in ms && m.ViewChangeMsg? && w <= m.vc.v && m.vc.sender == x;
    assert m in sys.net && ViewChangeMsg(m.vc) in sys.states[x].made;
  }

  lemma ProposalOpened(cfg: Config, faulty: set<nat>, sys: System, p: PrePrepare)
    requires FaultBound(cfg, faulty) && SysInv(cfg, faulty, sys)
    requires PrePrepareMsg(p) in sys.net && 0 < p.v && p.sender == cfg.Primary(p.v) && p.sender !in faulty
    ensures Opened(cfg, sys, p.v)
  {
    hide SysInv;
    PrePrepareAboveNewView(cfg, faulty, sys, p);
  }

  /** What the number at the end of a view is committed to comes from the primary itself: it is above
      everything that the new-view assigned. */
  lemma EndIsProposed(cfg: Config, faulty: set<nat>, sys: System, i: nat, e: PQ)
    requires FaultBound(cfg, faulty) && SysInv(cfg, faulty, sys) && i in sys.states
    requires e in sys.states[i].accepted && 0 < e.v == sys.states[i].view && Limit(cfg, sys.states[i]) == Some(e.n)
    ensures exists p :: PrePrepareMsg(p) in sys.net && p.v == e.v && p.sender == cfg.Primary(e.v)
  {
    hide SysInv, Selected, Assign;
    var s := sys.states[i];
    AcceptedIsOk(cfg, faulty, sys, i, e);
    EndIsAbove(cfg, s.acts[e.v].top);
    assert s.acts[e.v].top < e.n;
    assert FromPrimary(cfg, s, e);
    var p :| PrePrepareMsg(p) in s.Msgs() && p.v == e.v && p.n == e.n && p.d == e.d && p.sender == cfg.Primary(e.v);
    assert PrePrepareMsg(p) in sys.net;
  }

  lemma HeardIsInNet(cfg: Config, faulty: set<nat>, sys: System, i: nat)
    requires FaultBound(cfg, faulty) && SysInv(cfg, faulty, sys) && i in sys.states
    ensures sys.states[i].got <= sys.net
  {
    hide Inv, SoundNewView;
    assert ReplicaOk(cfg, sys, i);
  }

  /** The first correct replica to leave a view of a correct primary finds it opened. */
  lemma FirstToLeave(cfg: Config, faulty: set<nat>, sys: System, i: nat, w: nat, v: nat)
    requires FaultBound(cfg, faulty) && SysInv(cfg, faulty, sys) && i in sys.states
    requires Announced(sys.states[i]) && Due(cfg, sys.states[i], w) && 0 < v < w
    requires cfg.Primary(v) !in faulty && !Left(sys, v)
    ensures Opened(cfg, sys, v)
  {
    hide SysInv, Joins, Unacceptable, Opened;
    var s := sys.states[i];
    if Joins(cfg, s, w) {
      CallerLeft(cfg, faulty, sys, i, w, v);
    } else {
      assert s.view == v;
      HeardIsInNet(cfg, faulty, sys, i);
      if p :| Offends(cfg, s, p) {
        ProposalOpened(cfg, faulty, sys, p);
      } else if Ends(cfg, s) {
        var e: PQ :| e.v == s.view && Limit(cfg, s) == Some(e.n) && SawCommitted(cfg, s, e);
        EndIsProposed(cfg, faulty, sys, i, e);
        var p :| PrePrepareMsg(p) in sys.net && p.v == e.v && p.sender == cfg.Primary(e.v);
        ProposalOpened(cfg, faulty, sys, p);
      } else {
        TurnedDown(cfg, sys, i);
      }
    }
  }

  lemma TurnedDown(cfg: Config, sys: System, i: nat)
    requires cfg.Valid() && i in sys.states && TurnsDown(cfg, sys.states[i]) && sys.states[i].got <= sys.net
    ensures Opened(cfg, sys, sys.states[i].view)
  {
    hide Unacceptable;
  }

  lemma OpenedStays(cfg: Config, sys: System, sys': System, v: nat)
    requires cfg.Valid() && Opened(cfg, sys, v) && sys.net <= sys'.net
    requires forall i :: i in sys.states ==> i in sys'.states && ViewMoves(sys.states[i], sys'.states[i])
    ensures Opened(cfg, sys', v)
  {
    hide Unacceptable;
    if cfg.Primary(v) in sys.states && v in sys.states[cfg.Primary(v)].acts {
      assert ViewMoves(sys.states[cfg.Primary(v)], sys'.states[cfg.Primary(v)]);
    }
  }

  lemma AnnouncedStays(s: State, s': State)
    requires Announced(s) && ViewMoves(s, s')
    ensures Announced(s')
  {
  }

  ghost predicate OneMoves(sys: System, sys': System) {
    && sys'.states.Keys == sys.states.Keys && sys.net <= sys'.net
    && forall i :: i in sys.states ==> ViewMoves(sys.states[i], sys'.states[i])
  }

  lemma SystemMoves(cfg: Config, faulty: set<nat>, sys: System, sys': System)
    requires FaultBound(cfg, faulty) && SysInv(cfg, faulty, sys) && SysNext(cfg, faulty, sys, sys')
    ensures OneMoves(sys, sys')
  {
    hide SysInv, Enabled, Inv, ViewMoves;
    forall i | i in sys.states ensures ViewMoves(sys.states[i], sys.states[i]) {
      StandingStill(sys.states[i]);
    }
    if j, step :| ReplicaStep(cfg, sys, sys', j, step) {
      if step.Hear? {
        NetIsHearable(cfg, faulty, sys, j, step.m);
        HearIsStep(cfg, sys.states[j], step.m);
      }
      StepMovesView(cfg, sys.states[j], step);
    }
  }

  lemma StandingStill(s: State)
    ensures ViewMoves(s, s)
  {
  }

  lemma StepKeepsOpened(cfg: Config, faulty: set<nat>, sys: System, sys': System)
    requires FaultBound(cfg, faulty) && SysInv(cfg, faulty, sys) && LeftWhenOpened(cfg, faulty, sys)
    requires OneMoves(sys, sys') && PromptStep(cfg, sys, sys')
    ensures LeftWhenOpened(cfg, faulty, sys')
  {
    hide SysInv, Opened, Announced, Due;
    forall i | i in sys'.states ensures Announced(sys'.states[i]) {
      AnnouncedStays(sys.states[i], sys'.states[i]);
    }
    forall v | 0 < v && cfg.Primary(v) !in faulty && Left(sys', v) ensures Opened(cfg, sys', v) {
      if !Left(sys, v) {
        var i, vc :| i in sys'.states && ViewChangeMsg(vc) in sys'.states[i].made && v < vc.v;
        assert Prompt(cfg, sys.states[i], sys'.states[i]) && ViewMoves(sys.states[i], sys'.states[i]);
        FirstToLeave(cfg, faulty, sys, i, vc.v, v);
      }
      OpenedStays(cfg, sys, sys', v);
    }
  }

  lemma {:induction false} PromptRunOpens(cfg: Config, faulty: set<nat>, run: seq<System>, k: nat)
    requires FaultBound(cfg, faulty) && IsPromptRun(cfg, faulty, run) && k < |run|
    ensures LeftWhenOpened(cfg, faulty, run[k])
  {
    hide SysInv, SysNext, PromptStep, LeftWhenOpened;
    if k == 0 {
      FreshIsOpened(cfg, faulty, run[0]);
    } else {
      PromptRunOpens(cfg, faulty, run, k - 1);
      RunKeepsInv(cfg, faulty, run, k - 1);
      SystemMoves(cfg, faulty, run[k - 1], run[k]);
      StepKeepsOpened(cfg, faulty, run[k - 1], run[k]);
    }
  }

  lemma FreshIsOpened(cfg: Config, faulty: set<nat>, sys: System)
    requires FaultBound(cfg, faulty) && Init(cfg, faulty, sys)
    ensures LeftWhenOpened(cfg, faulty, sys)
  {
  }

  /** If every replica that leaves a view has a reason there, then no correct replica gets past a view of
      a correct primary that did not enter it, unless its new-view does not verify. */
  lemma LeavingNeedsPrimary(cfg: Config, faulty: set<nat>, sys: System, v: nat)
    requires FaultBound(cfg, faulty) && PromptlyReachable(cfg, faulty, sys)
    requires 0 < v && cfg.Primary(v) !in faulty && Left(sys, v)
    ensures Opened(cfg, sys, v)
  {
    hide SysNext, Init, PromptStep, Opened, Left;
    var run :| IsPromptRun(cfg, faulty, run) && run[|run| - 1] == sys;
    PromptRunOpens(cfg, faulty, run, |run| - 1);
  }

  // ----- No number is prepared before it is given out -----

  lemma PrimarySlotsGiven(cfg: Config, s: State)
    requires cfg.Valid() && Inv(cfg, s) && s.active && cfg.Primary(s.view) == s.id
    ensures 0 < s.view ==> s.view in s.acts && forall n :: n in s.acts[s.view].nv.xset ==> n <= s.seqNo
    ensures forall p :: PrePrepareMsg(p) in s.made && p.v == s.view ==> p.n <= s.seqNo
  {
    hide Window, Certificates, PrepareVotes, CommitVotes, PrimarySlots, Accepted, Watermark, CheckpointsTrue,
         Executions, PQTrue, OwnViewChanges, CommitsReported;
  }

  lemma PreparedWasAccepted(cfg: Config, faulty: set<nat>, sys: System, y: nat, p: Prepare)
    requires FaultBound(cfg, faulty) && SysInv(cfg, faulty, sys) && y in sys.states
    requires PrepareMsg(p) in sys.states[y].made
    ensures PQ(p.n, p.d, p.v) in sys.states[y].accepted
  {
    hide Window, Certificates, CommitVotes, PrePrepareVotes, PrimarySlots, Views, Accepted, Watermark, CheckpointsTrue,
         Executions, PQTrue, OwnViewChanges, CommitsReported, SoundNewView;
    assert ReplicaOk(cfg, sys, y);
  }

  /** What a correct replica accepts in the view of an active correct primary, that primary gave out. */
  lemma AcceptedIsGiven(cfg: Config, faulty: set<nat>, sys: System, i: nat, y: nat, e: PQ)
    requires FaultBound(cfg, faulty) && SysInv(cfg, faulty, sys)
    requires i in sys.states && sys.states[i].active && e.v == sys.states[i].view && cfg.Primary(e.v) == i
    requires y in sys.states && e in sys.states[y].accepted
    ensures e.n <= sys.states[i].seqNo
  {
    hide Inv, SoundNewView, Selected, Assign;
    assert ReplicaOk(cfg, sys, i);
    PrimarySlotsGiven(cfg, sys.states[i]);
    AcceptedIsOk(cfg, faulty, sys, y, e);
    if FromNewView(sys.states[y], e) {
      PositiveView(cfg, faulty, sys, y, e.v);
      SameNewView(cfg, faulty, sys, i, y, e.v);
    } else {
      var p :| PrePrepareMsg(p) in sys.states[y].Msgs() && p.v == e.v && p.n == e.n && p.d == e.d
               && p.sender == cfg.Primary(e.v);
      PrePrepareAboveNewView(cfg, faulty, sys, p);
    }
  }

  /** With more than one replica, no correct primary finds a number prepared that it has not given out. */
  lemma NothingIsForeseen(cfg: Config, faulty: set<nat>, sys: System, i: nat)
    requires FaultBound(cfg, faulty) && SysInv(cfg, faulty, sys) && i in sys.states && 1 < cfg.N
    ensures !Foresaw(cfg, sys.states[i])
  {
    hide SysInv, Inv, Preparers;
    var s := sys.states[i];
    if Foresaw(cfg, s) {
      var n: nat, d :| s.seqNo < n && PreparedEvidence(cfg, s.Msgs(), s.view, n, d);
      var y := CorrectMember(Preparers(cfg, s.Msgs(), s.view, n, d), faulty);
      PreparerMade(cfg, faulty, sys, i, s.view, n, d, y);
      PreparedWasAccepted(cfg, faulty, sys, y, Prepare(s.view, n, d, y));
      NamedAfterItself(cfg, faulty, sys, i);
      AcceptedIsGiven(cfg, faulty, sys, i, y, PQ(n, d, s.view));
      assert false;
    }
  }

  lemma NamedAfterItself(cfg: Config, faulty: set<nat>, sys: System, i: nat)
    requires FaultBound(cfg, faulty) && SysInv(cfg, faulty, sys) && i in sys.states
    ensures sys.states[i].id == i
  {
    hide Inv;
    assert ReplicaOk(cfg, sys, i);
  }
}
