/** A replica that prepared or proposed a digest keeps the pre-prepare on record, and says so in every
    later view-change, until its watermark passes the number. */
module ReplicaBackers {
  import opened PbftTypes
  import opened Quorums
  import opened NewViewRule
  import opened ReplicaSteps
  import opened ReplicaInvariant
  import opened InvariantFrames
  import opened InvariantSteps
  import opened InvariantMoves
  import opened InvariantViews

  /** The replica stands behind e: it prepared it, proposed it as primary, or entered the view through
      a new-view that assigns it. */
  ghost predicate Backs(s: State, e: PQ) {
    || PrepareMsg(Prepare(e.v, e.n, e.d, s.id)) in s.made
    || (exists p :: PrePrepareMsg(p) in s.made && p.v == e.v && p.n == e.n && p.d == e.d)
    || FromNewView(s, e)
  }

  /** No batch took the place of a null request. */
  ghost predicate Firm(s: State, e: PQ) {
    e.d != Null || forall a :: a in s.accepted && a.v == e.v && a.n == e.n ==> a.d == Null
  }

  ghost predicate OnRecord(s: State, e: PQ) {
    if e.v == s.view then
      SlotPrePrepared(s, Slot(e.v, e.n)) && s.certs[Slot(e.v, e.n)].digest == e.d
    else
      QKey(e.d, e.n) in s.qset && e.v <= s.qset[QKey(e.d, e.n)].v
  }

  /** The view-change supports e, or comes from above its number. */
  ghost predicate Tells(vc: ViewChange, e: PQ) {
    e.n <= vc.h || exists q :: q in vc.qset && q.n == e.n && q.d == e.d && e.v <= q.v
  }

  ghost predicate BackersTell(s: State) {
    !s.lost ==>
      && (forall e :: Backs(s, e) && Firm(s, e) && s.h < e.n ==> OnRecord(s, e))
      && (forall vc, e :: ViewChangeMsg(vc) in s.made && Backs(s, e) && Firm(s, e) && e.v < vc.v ==> Tells(vc, e))
  }

  // ----- What a replica stands behind is of no later view than its own -----

  lemma BackedIsPast(cfg: Config, s: State, e: PQ)
    requires cfg.Valid() && Inv(cfg, s) && Backs(s, e)
    ensures e.v <= s.view && (e.v == s.view ==> s.active)
  {
    hide Window, Certificates, CommitVotes, PrimarySlots, Accepted, Watermark, CheckpointsTrue, Executions, PQTrue,
         OwnViewChanges, CommitsReported;
    if FromNewView(s, e) {
      assert ActOk(cfg, s, e.v, s.acts[e.v]);
    }
  }

  lemma ViewChangesArePast(cfg: Config, s: State)
    requires cfg.Valid() && Inv(cfg, s)
    ensures forall vc :: ViewChangeMsg(vc) in s.made ==> vc.v <= s.view
  {
    hide Window, Certificates, PrepareVotes, CommitVotes, PrePrepareVotes, PrimarySlots, Views, Accepted, Watermark,
         CheckpointsTrue, Executions, PQTrue, CommitsReported;
  }

  lemma LogParts(cfg: Config, s: State)
    requires cfg.Valid() && Inv(cfg, s)
    ensures Window(cfg, s) && Certificates(cfg, s) && PrimarySlots(cfg, s) && Views(cfg, s)
  {
    hide PrepareVotes, CommitVotes, PrePrepareVotes, Accepted, Watermark, CheckpointsTrue, Executions, PQTrue,
         OwnViewChanges, CommitsReported;
  }

  // ----- Steps that keep the view -----

  /** Same view, records above the watermark stay, and whatever the replica newly stands behind is of
      this view and on record. */
  ghost predicate Continues(s: State, s': State) {
    && Grows(s, s') && CertsGrow(s, s')
    && (!s'.lost ==> BatchesKept(s, s'))
    && (forall k :: k in s.qset && s'.h < k.n ==> k in s'.qset && s'.qset[k] == s.qset[k])
    && (forall vc :: ViewChangeMsg(vc) in s'.made ==> ViewChangeMsg(vc) in s.made)
  }

  lemma RecordStays(cfg: Config, s: State, s': State, e: PQ)
    requires cfg.Valid() && Window(cfg, s) && Certificates(cfg, s) && Window(cfg, s') && Certificates(cfg, s')
    requires Continues(s, s') && !s'.lost && s'.h < e.n && Firm(s', e)
    requires OnRecord(s, e)
    ensures OnRecord(s', e)
  {
    hide Window, Certificates;
    var slot := Slot(e.v, e.n);
    if e.v == s.view {
      PreparedByCert(cfg, s, slot);
      PreparedByCert(cfg, s', slot);
      FiledIsAccepted(cfg, s', slot);
      assert CertGrows(s.certs[slot], s'.certs[slot]);
    }
  }

  lemma FiledIsAccepted(cfg: Config, s: State, slot: Slot)
    requires cfg.Valid() && Certificates(cfg, s) && slot in s.certs && s.certs[slot].prePrepare.Some?
    ensures PQ(slot.n, s.certs[slot].digest, slot.v) in s.accepted
  {
    assert CertOk(cfg, s, slot, s.certs[slot]);
  }

  lemma KeptByContinuing(cfg: Config, s: State, s': State)
    requires cfg.Valid() && Inv(cfg, s) && Inv(cfg, s') && BackersTell(s)
    requires Continues(s, s')
    requires forall e :: Backs(s', e) && !Backs(s, e) ==> e.v == s.view && (s'.h < e.n ==> OnRecord(s', e))
    ensures BackersTell(s')
  {
    LogParts(cfg, s);
    LogParts(cfg, s');
    ViewChangesArePast(cfg, s);
    hide Inv, Window, Certificates, PrimarySlots, Views, Backs, OnRecord, Continues, Tells;
    assert Continued(s, s') by { WhatContinues(s, s'); }
    if !s'.lost {
      forall e | Backs(s', e) && Firm(s', e) && s'.h < e.n ensures OnRecord(s', e) {
        if Backs(s, e) {
          RecordStays(cfg, s, s', e);
        }
      }
    }
  }

  ghost predicate Continued(s: State, s': State) {
    && s.h <= s'.h && s.accepted <= s'.accepted && (s.lost ==> s'.lost)
    && (forall vc :: ViewChangeMsg(vc) in s'.made ==> ViewChangeMsg(vc) in s.made)
  }

  lemma WhatContinues(s: State, s': State)
    requires Continues(s, s')
    ensures Continued(s, s')
  {
  }

  /** A step inside a view that is not a vote for a pre-prepare. */
  lemma KeptByInView(cfg: Config, s: State, s': State, m: Option<Msg>)
    requires cfg.Valid() && Inv(cfg, s) && Inv(cfg, s') && BackersTell(s)
    requires InView(s, s', m)
    requires m.Some? ==> m.value.CommitMsg? || m.value.CheckpointMsg?
    ensures BackersTell(s')
  {
    hide Inv, BackersTell, OnRecord;
    KeptByContinuing(cfg, s, s');
  }

  /** A step that makes a prepare or a pre-prepare for a record that is at hand. */
  lemma KeptByVote(cfg: Config, s: State, s': State, m: Msg, e: PQ)
    requires cfg.Valid() && Inv(cfg, s) && Inv(cfg, s') && BackersTell(s)
    requires InView(s, s', Some(m)) && e.v == s.view
    requires m == PrepareMsg(Prepare(e.v, e.n, e.d, s.id)) || (m.PrePrepareMsg? && m.pp.v == e.v
        && m.pp.n == e.n && m.pp.d == e.d)
    requires Backs(s, e) || (s'.h < e.n ==> OnRecord(s', e))
    ensures BackersTell(s')
  {
    hide Inv, BackersTell, OnRecord;
    forall e' | Backs(s', e') && !Backs(s, e') ensures e' == e {
    }
    KeptByContinuing(cfg, s, s');
  }

  lemma KeptByIssue(cfg: Config, s: State, b: RequestBatch)
    requires cfg.Valid() && Inv(cfg, s) && BackersTell(s) && CanIssuePrePrepare(cfg, s, b)
    ensures BackersTell(DoIssuePrePrepare(s, b))
  {
    hide Inv, BackersTell, InView, WritesCert, CertOk, Backs;
    var s', p := DoIssuePrePrepare(s, b), IssuedPrePrepare(s, b);
    LogParts(cfg, s);
    IssueWrites(cfg, s, b);
    KeptByIssuePrePrepare(cfg, s, b);
    KeptByVote(cfg, s, s', PrePrepareMsg(p), PQ(p.n, p.d, p.v));
  }

  lemma KeptByCast(cfg: Config, s: State, n: nat)
    requires cfg.Valid() && Inv(cfg, s) && BackersTell(s) && CanCastPrepare(cfg, s, n)
    ensures BackersTell(DoCastPrepare(s, n))
  {
    hide Inv, BackersTell, InView, WritesCert, CertOk, Backs;
    var s', d := DoCastPrepare(s, n), s.CertAt(Slot(s.view, n)).digest;
    LogParts(cfg, s);
    CastPrepareWrites(cfg, s, n);
    KeptByCastPrepare(cfg, s, n);
    KeptByVote(cfg, s, s', PrepareMsg(Prepare(s.view, n, d, s.id)), PQ(n, d, s.view));
  }

  lemma KeptByNewViewCast(cfg: Config, s: State, n: nat)
    requires cfg.Valid() && Inv(cfg, s) && BackersTell(s) && CanCastNewViewPrepare(cfg, s, n)
    ensures BackersTell(DoCastNewViewPrepare(s, n))
  {
    hide Inv, BackersTell, InView, WritesCert, CertOk, OnRecord;
    var s', d := DoCastNewViewPrepare(s, n), s.acts[s.view].nv.xset[n];
    var p := Prepare(s.view, n, d, s.id);
    LogParts(cfg, s);
    AssignedSlot(cfg, s, n);
    NewViewCastInView(cfg, s, n);
    KeptByCastNewViewPrepare(cfg, s, n);
    KeptByVote(cfg, s, s', PrepareMsg(p), PQ(n, d, s.view));
  }

  lemma NewViewCastInView(cfg: Config, s: State, n: nat)
    requires cfg.Valid() && Inv(cfg, s) && CanCastNewViewPrepare(cfg, s, n)
    ensures s.view in s.acts && n in s.acts[s.view].nv.xset
    ensures InView(s, DoCastNewViewPrepare(s, n), Some(PrepareMsg(Prepare(s.view, n, s.acts[s.view].nv.xset[n], s.id))))
  {
    LogParts(cfg, s);
    hide Inv, Window, Certificates, PrimarySlots, Views, WritesCert, CertOk, InView, CanCastNewViewPrepare;
    NewViewAssigns(cfg, s, n);
    AssignedSlot(cfg, s, n);
    if s.h < n {
      CastNewViewPrepareWrites(cfg, s, n);
    } else {
      QuietInView(s, DoCastNewViewPrepare(s, n), Some(PrepareMsg(Prepare(s.view, n, s.acts[s.view].nv.xset[n], s.id))));
    }
  }

  lemma NewViewAssigns(cfg: Config, s: State, n: nat)
    requires cfg.Valid() && CanCastNewViewPrepare(cfg, s, n)
    ensures s.view in s.acts && n in s.acts[s.view].nv.xset
  {
  }

  // ----- Moving the watermark -----

  lemma KeptByMoving(cfg: Config, s: State, h: nat)
    requires cfg.Valid() && Inv(cfg, s) && BackersTell(s) && s.h <= h && Inv(cfg, Move(s, h))
    ensures BackersTell(Move(s, h))
  {
    hide Inv, BackersTell, OnRecord;
    MoveGrows(cfg, s, h);
    KeptByContinuing(cfg, s, Move(s, h));
  }

  /** With no record left above the watermark, the replica stands behind nothing there. */
  lemma KeptByDiscarding(s: State)
    requires BackersTell(s) && s.certs == map[] && s.qset == map[]
    ensures BackersTell(s.(batches := {}))
  {
    var s' := s.(batches := {});
    forall e ensures Backs(s', e) == Backs(s, e) {
    }
  }

  lemma KeptByJump(cfg: Config, s: State, n: nat)
    requires cfg.Valid() && Inv(cfg, s) && BackersTell(s) && CanMoveOnReports(cfg, s, n)
    ensures BackersTell(Move(s.(batches := {}), cfg.Floor(n)))
  {
    var h := cfg.Floor(n);
    LogParts(cfg, s);
    hide Inv, BackersTell, Reporters, Backs, OnRecord;
    AboveLog(cfg, s.h, n);
    JumpDiscardsLog(cfg, s, n);
    DiscardingBatchesFirst(cfg, s, n);
    JumpKeepsInv(cfg, s, n);
    KeptByMoving(cfg, s, h);
    KeptByDiscarding(Move(s, h));
  }

  lemma JumpKeepsInv(cfg: Config, s: State, n: nat)
    requires cfg.Valid() && Inv(cfg, s) && CanMoveOnReports(cfg, s, n)
    ensures Inv(cfg, Move(s, cfg.Floor(n)))
  {
    LogParts(cfg, s);
    hide Inv, Reporters;
    AboveLog(cfg, s.h, n);
    ReportersBelow(s.Msgs(), cfg.Floor(n), n);
    KeptByMove(cfg, s, cfg.Floor(n));
  }

  // ----- Leaving and entering views -----

  lemma RecordEntersQ(cfg: Config, s: State, e: PQ)
    requires cfg.Valid() && Window(cfg, s) && OnRecord(s, e) && e.v <= s.view
    ensures QKey(e.d, e.n) in CalcQ(s) && e.v <= CalcQ(s)[QKey(e.d, e.n)].v
    ensures CalcQ(s)[QKey(e.d, e.n)].n == e.n && CalcQ(s)[QKey(e.d, e.n)].d == e.d
  {
    hide CalcQ, SlotPrePrepared;
    CalcQIsGreatest(cfg, s, QKey(e.d, e.n));
    if e.v == s.view {
      assert SlotPrePrepared(s, Slot(e.v, e.n));
    }
    CalcQInWindow(cfg, s, QKey(e.d, e.n));
  }

  lemma BacksSame(s: State, s': State, e: PQ)
    requires s'.id == s.id && s'.acts == s.acts
    requires forall p :: PrepareMsg(p) in s'.made <==> PrepareMsg(p) in s.made
    requires forall p :: PrePrepareMsg(p) in s'.made <==> PrePrepareMsg(p) in s.made
    ensures Backs(s', e) == Backs(s, e)
  {
  }

  lemma KeptByLeaving(cfg: Config, s: State, vc: ViewChange)
    requires cfg.Valid() && Inv(cfg, s) && BackersTell(s) && CanChangeView(cfg, s, vc)
    ensures BackersTell(DoChangeView(cfg, s, vc))
  {
    LogParts(cfg, s);
    hide Inv, Window, Certificates, PrimarySlots, Views, Backs, OnRecord, CalcP, CalcQ, ListsCheckpoints, ListsP;
    var s' := DoChangeView(cfg, s, vc);
    if !s.lost {
      forall e | Backs(s', e) && Firm(s', e) && s.h < e.n ensures OnRecord(s', e) && Tells(vc, e) {
        BacksSame(s, s', e);
        LeavesRecord(cfg, s, vc, e);
      }
      forall vc', e | ViewChangeMsg(vc') in s'.made && Backs(s', e) && Firm(s', e) && e.v < vc'.v
        ensures Tells(vc', e)
      {
        BacksSame(s, s', e);
      }
    }
  }

  lemma LeavesRecord(cfg: Config, s: State, vc: ViewChange, e: PQ)
    requires cfg.Valid() && Inv(cfg, s) && CanChangeView(cfg, s, vc)
    requires Backs(s, e) && OnRecord(s, e)
    ensures OnRecord(DoChangeView(cfg, s, vc), e) && Tells(vc, e)
  {
    LogParts(cfg, s);
    BackedIsPast(cfg, s, e);
    hide Inv, Window, Backs, CalcP, CalcQ, OnRecord;
    RecordEntersQ(cfg, s, e);
    assert CalcQ(s)[QKey(e.d, e.n)] in vc.qset;
    RecordLeft(cfg, s, vc, e);
  }

  lemma RecordLeft(cfg: Config, s: State, vc: ViewChange, e: PQ)
    requires e.v <= s.view < vc.v
    requires QKey(e.d, e.n) in CalcQ(s) && e.v <= CalcQ(s)[QKey(e.d, e.n)].v
    ensures OnRecord(DoChangeView(cfg, s, vc), e)
  {
    hide CalcQ, CalcP;
  }

  /** What a replica newly stands behind when it enters a view is what the new-view assigns. */
  lemma EnteringBacks(s: State, nv: NewView, cp: nat, top: nat, e: PQ)
    requires Backs(DoActivate(s, nv, cp, top), e) && nv.v == s.view
    ensures Backs(s, e) || (e.v == nv.v && e.n in nv.xset && nv.xset[e.n] == e.d)
  {
    hide ActivatedCerts;
  }

  lemma EnteringFacts(cfg: Config, s: State, nv: NewView, cp: nat, top: nat)
    requires cfg.Valid() && CanActivate(cfg, s, nv, cp, top)
    ensures !s.active && nv.v == s.view
    ensures forall n :: n in nv.xset && s.h < n && nv.xset[n] != Null ==> nv.xset[n] in s.batches
  {
    hide Selected, Assign;
  }

  lemma KeptByEntering(cfg: Config, s: State, nv: NewView, cp: nat, top: nat)
    requires cfg.Valid() && Inv(cfg, s) && BackersTell(s) && CanActivate(cfg, s, nv, cp, top)
    ensures BackersTell(DoActivate(s, nv, cp, top))
  {
    EnteringFacts(cfg, s, nv, cp, top);
    ViewChangesArePast(cfg, s);
    hide Inv, CanActivate, ActivatedCerts, OnRecord, Tells, Backs;
    var s' := DoActivate(s, nv, cp, top);
    if !s'.lost {
      forall e | Backs(s', e) && Firm(s', e) && s'.h < e.n ensures OnRecord(s', e) {
        EnteringBacks(s, nv, cp, top, e);
        if Backs(s, e) {
          BackedIsPast(cfg, s, e);
          RecordUntouched(s, s', e);
        } else {
          AssignedIsOnRecord(s, nv, cp, top, e);
        }
      }
      forall vc, e | ViewChangeMsg(vc) in s'.made && Backs(s', e) && Firm(s', e) && e.v < vc.v ensures Tells(vc, e) {
        EnteringBacks(s, nv, cp, top, e);
      }
    }
  }

  lemma RecordUntouched(s: State, s': State, e: PQ)
    requires e.v != s.view && s'.view == s.view && s'.qset == s.qset && OnRecord(s, e)
    ensures OnRecord(s', e)
  {
  }

  lemma AssignedIsOnRecord(s: State, nv: NewView, cp: nat, top: nat, e: PQ)
    requires nv.v == s.view == e.v && e.n in nv.xset && nv.xset[e.n] == e.d && s.h < e.n
    requires e.d != Null ==> e.d in s.batches
    ensures OnRecord(DoActivate(s, nv, cp, top), e)
  {
    assert Slot(e.v, e.n) in ActivatedCerts(s, nv);
  }

  // ----- Every step -----

  lemma MovesUp(cfg: Config, s: State, step: Step)
    requires cfg.Valid() && Inv(cfg, s) && Enabled(cfg, s, step)
    ensures step.MoveOnQuorum? ==> s.h <= cfg.Floor(step.chkpt.n)
    ensures step.MoveOnNewView? ==> s.h <= cfg.Floor(step.cp)
  {
    LogParts(cfg, s);
    hide Inv, Certificates, PrimarySlots, Views, Accepts, CheckpointVoters;
    if step.MoveOnQuorum? {
      FloorMonotone(cfg, s.h, step.chkpt.n);
    } else if step.MoveOnNewView? {
      FloorMonotone(cfg, s.h, step.cp);
    }
  }

  /** Steps that write a certificate and make no prepare or pre-prepare ... */
  lemma WritingInView(cfg: Config, s: State, step: Step) returns (m: Option<Msg>)
    requires cfg.Valid() && Inv(cfg, s) && Enabled(cfg, s, step)
    requires step.AcceptPrePrepare? || step.CountPrepare? || step.CastCommit? || step.CountCommit?
    ensures InView(s, Apply(cfg, s, step), m)
    ensures m.Some? ==> m.value.CommitMsg? || m.value.CheckpointMsg?
  {
    LogParts(cfg, s);
    hide Inv, Window, Certificates, PrimarySlots, Views, CanAcceptPrePrepare, CanCountPrepare, CanCastCommit,
         CanCountCommit, WritesCert, CertOk, InView;
    m := None;
    match step
    case AcceptPrePrepare(p) => AcceptWrites(cfg, s, p);
    case CountPrepare(p) => CountPrepareWrites(cfg, s, p);
    case CastCommit(n) =>
      CastCommitWrites(cfg, s, n);
      m := Some(CommitMsg(Commit(s.view, n, s.CertAt(Slot(s.view, n)).digest, s.id)));
    case CountCommit(c) => CountCommitWrites(cfg, s, c);
  }

  /** ... and steps that leave the certificates alone. */
  lemma StayingInView(cfg: Config, s: State, step: Step) returns (m: Option<Msg>)
    requires cfg.Valid() && Enabled(cfg, s, step) && Quiet(step)
    ensures InView(s, Apply(cfg, s, step), m)
    ensures m.Some? ==> m.value.CommitMsg? || m.value.CheckpointMsg?
  {
    hide InView, CanHear, CanStartExec;
    m := if step.TakeCheckpoint? then Some(CheckpointMsg(Checkpoint(s.lastExec, s.id, step.stateId))) else None;
    QuietInView(s, Apply(cfg, s, step), m);
  }

  lemma QuietInView(s: State, s': State, m: Option<Msg>)
    requires s' == s.(got := s'.got, made := s'.made, batches := s'.batches, skip := s'.skip, ckpts := s'.ckpts,
                      exec := s'.exec, execs := s'.execs, lastExec := s'.lastExec, chkpts := s'.chkpts)
    requires s.got <= s'.got && s.batches <= s'.batches && s.lastExec <= s'.lastExec
    requires s'.made == (if m.Some? then s.made + {m.value} else s.made)
    ensures InView(s, s', m)
  {
  }

  lemma StepKeepsBackers(cfg: Config, s: State, step: Step)
    requires cfg.Valid() && Inv(cfg, s) && BackersTell(s) && Enabled(cfg, s, step)
    ensures BackersTell(Apply(cfg, s, step))
  {
    hide Inv, BackersTell, CanHear, CanAcceptPrePrepare, CanIssuePrePrepare, CanCastPrepare, CanCountPrepare,
         CanCastCommit, CanCountCommit, CanStartExec, CanMoveOnQuorum, CanMoveOnReports, CanMoveOnNewView,
         CanChangeView, CanActivate;
    StepKeepsInv(cfg, s, step);
    var s' := Apply(cfg, s, step);
    match step
    case IssuePrePrepare(b) => KeptByIssue(cfg, s, b);
    case CastPrepare(n) => KeptByCast(cfg, s, n);
    case CastNewViewPrepare(n) => KeptByNewViewCast(cfg, s, n);
    case MoveOnQuorum(k) =>
      MovesUp(cfg, s, step);
      KeptByMoving(cfg, s, cfg.Floor(k.n));
    case MoveOnReports(n) => KeptByJump(cfg, s, n);
    case MoveOnNewView(nv, cp) =>
      MovesUp(cfg, s, step);
      KeptByMoving(cfg, s, cfg.Floor(cp));
    case ChangeView(vc) => KeptByLeaving(cfg, s, vc);
    case Activate(nv, cp, top) => KeptByEntering(cfg, s, nv, cp, top);
    case _ =>
      var m;
      if Quiet(step) {
        m := StayingInView(cfg, s, step);
      } else {
        m := WritingInView(cfg, s, step);
      }
      KeptByInView(cfg, s, s', m);
  }
}
