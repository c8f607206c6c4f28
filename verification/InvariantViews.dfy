/** Leaving a view and entering one keep the invariant; so every reachable state satisfies it. */
module InvariantViews {
  import opened PbftTypes
  import opened Quorums
  import opened NewViewRule
  import opened ReplicaSteps
  import opened ReplicaInvariant
  import opened InvariantFrames
  import opened InvariantSteps
  import opened InvariantMoves

  // ----- Leaving a view -----

  /** The P set holds, per number, a record at least as recent as the one carried over and as any
      certificate that prepared. */
  lemma CalcPIsGreatest(cfg: Config, s: State, n: nat)
    requires cfg.Valid() && Window(cfg, s)
    ensures n in s.pset ==> n in CalcP(cfg, s) && s.pset[n].v <= CalcP(cfg, s)[n].v
    ensures forall v :: SlotPrepared(cfg, s, Slot(v, n)) ==>
              n in CalcP(cfg, s) && CalcP(cfg, s)[n] == PQ(n, s.certs[Slot(v, n)].digest, v)
    ensures n in CalcP(cfg, s) ==>
              || (n in s.pset && CalcP(cfg, s)[n] == s.pset[n])
              || (&& SlotPrepared(cfg, s, Slot(s.view, n))
                  && CalcP(cfg, s)[n] == PQ(n, s.certs[Slot(s.view, n)].digest, s.view))
  {
    forall v | SlotPrepared(cfg, s, Slot(v, n)) ensures v == s.view && n in CertNumbers(s) {
      assert Slot(v, n) in s.certs;
    }
  }

  lemma CalcQIsGreatest(cfg: Config, s: State, k: QKey)
    requires cfg.Valid() && Window(cfg, s)
    ensures k in s.qset ==> k in CalcQ(s) && s.qset[k].v <= CalcQ(s)[k].v
    ensures forall v :: SlotPrePrepared(s, Slot(v, k.n)) && s.certs[Slot(v, k.n)].digest == k.d ==>
              k in CalcQ(s) && CalcQ(s)[k] == PQ(k.n, k.d, v)
    ensures k in CalcQ(s) ==>
              || (k in s.qset && CalcQ(s)[k] == s.qset[k])
              || (KeyPrePrepared(s, k) && CalcQ(s)[k] == PQ(k.n, k.d, s.view))
  {
    forall v | SlotPrePrepared(s, Slot(v, k.n)) && s.certs[Slot(v, k.n)].digest == k.d
      ensures v == s.view && k in CertKeys(s)
    {
      assert Slot(v, k.n) in s.certs;
    }
  }

  lemma WindowLeft(cfg: Config, s: State, vc: ViewChange)
    requires cfg.Valid() && Window(cfg, s) && CanChangeView(cfg, s, vc)
    ensures Window(cfg, DoChangeView(cfg, s, vc))
    ensures DoChangeView(cfg, s, vc).certs == map[]
  {
    hide CanChangeView, CalcP, CalcQ, SlotPrepared, SlotPrePrepared, KeyPrePrepared;
    var s' := DoChangeView(cfg, s, vc);
    assert s.view < vc.v by { CanChangeViewRaises(cfg, s, vc); }
    forall n | n in s'.pset ensures s'.pset[n].n == n && InW(cfg, s, n) && s'.pset[n].v < vc.v {
      CalcPIsGreatest(cfg, s, n);
      CalcPInWindow(cfg, s, n);
    }
    forall k | k in s'.qset
      ensures s'.qset[k].n == k.n && s'.qset[k].d == k.d && InW(cfg, s, k.n) && s'.qset[k].v < vc.v
    {
      CalcQInWindow(cfg, s, k);
    }
  }

  lemma CanChangeViewRaises(cfg: Config, s: State, vc: ViewChange)
    requires CanChangeView(cfg, s, vc)
    ensures s.view < vc.v
  {
  }

  lemma CalcPInWindow(cfg: Config, s: State, n: nat)
    requires cfg.Valid() && Window(cfg, s) && n in CalcP(cfg, s)
    ensures CalcP(cfg, s)[n].n == n && InW(cfg, s, n) && CalcP(cfg, s)[n].v <= s.view
  {
    hide Prepared;
    if SlotPrepared(cfg, s, Slot(s.view, n)) {
      assert Slot(s.view, n) in s.certs;
    }
  }

  lemma CalcQInWindow(cfg: Config, s: State, k: QKey)
    requires cfg.Valid() && Window(cfg, s) && k in CalcQ(s)
    ensures CalcQ(s)[k].n == k.n && CalcQ(s)[k].d == k.d && InW(cfg, s, k.n) && CalcQ(s)[k].v <= s.view
  {
    hide PrePrepared;
    if KeyPrePrepared(s, k) {
      assert Slot(s.view, k.n) in s.certs;
    }
  }

  /** Votes of earlier views do not bind the next one. */
  lemma VotesLeft(cfg: Config, s: State, s': State, vc: ViewChange)
    requires cfg.Valid()
    requires PrepareVotes(cfg, s) && CommitVotes(cfg, s) && PrePrepareVotes(cfg, s) && PrimarySlots(cfg, s)
    requires s'.id == s.id && s.view < s'.view && s'.acts == s.acts && s'.accepted == s.accepted && s'.certs == map[]
    requires s'.got == s.got && s'.made == s.made + {ViewChangeMsg(vc)}
    ensures PrepareVotes(cfg, s') && CommitVotes(cfg, s') && PrePrepareVotes(cfg, s') && PrimarySlots(cfg, s')
  {
    forall c | CommitMsg(c) in s'.made ensures PreparedEvidence(cfg, s'.Msgs(), c.v, c.n, c.d) {
      assert CommitMsg(c) in s.made;
      PreparedEvidenceGrows(cfg, s.Msgs(), s'.Msgs(), c.v, c.n, c.d);
    }
  }

  lemma LogLeft(cfg: Config, s: State, s': State, vc: ViewChange)
    requires cfg.Valid()
    requires Views(cfg, s) && Accepted(cfg, s)
    requires s'.id == s.id && s.view < s'.view && s'.acts == s.acts && s'.accepted == s.accepted && s'.certs == map[]
    requires s'.got == s.got && s'.made == s.made + {ViewChangeMsg(vc)} && s'.h == s.h && !s'.active
    ensures Certificates(cfg, s') && Views(cfg, s') && Accepted(cfg, s')
  {
    forall v | v in s'.acts ensures ActOk(cfg, s', v, s'.acts[v]) {
      assert ActOk(cfg, s, v, s.acts[v]);
    }
    forall e | e in s'.accepted ensures AcceptedOk(cfg, s', e) {
      assert AcceptedOk(cfg, s, e);
      if FromPrimary(cfg, s, e) {
        var p :| PrePrepareMsg(p) in s.Msgs() && p.v == e.v && p.n == e.n && p.d == e.d && p.sender == cfg.Primary(e.v);
        assert PrePrepareMsg(p) in s'.Msgs();
      }
    }
  }

  lemma CheckpointsLeft(cfg: Config, s: State, vc: ViewChange)
    requires cfg.Valid() && CheckpointsTrue(cfg, s) && Window(cfg, s) && CanChangeView(cfg, s, vc)
    ensures CheckpointsTrue(cfg, DoChangeView(cfg, s, vc))
  {
    hide CalcP, CalcQ;
  }

  /** An own view-change passes the check that others apply to it. */
  lemma ViewChangeIsCorrect(cfg: Config, s: State, vc: ViewChange)
    requires cfg.Valid() && Window(cfg, s) && CanChangeView(cfg, s, vc)
    ensures !s.lagging ==> CorrectViewChange(cfg, vc)
    ensures OneQPerKey(vc)
  {
    hide CalcP, CalcQ;
    forall p | p in vc.pset ensures p.v < vc.v && vc.h < p.n <= vc.h + cfg.L() {
      CalcPInWindow(cfg, s, p.n);
    }
    forall q | q in vc.qset ensures q.v < vc.v && vc.h < q.n <= vc.h + cfg.L() {
      CalcQInWindow(cfg, s, QKey(q.d, q.n));
    }
  }

  lemma OwnViewChangesLeft(cfg: Config, s: State, vc: ViewChange)
    requires cfg.Valid() && OwnViewChanges(cfg, s) && Window(cfg, s) && CanChangeView(cfg, s, vc)
    ensures OwnViewChanges(cfg, DoChangeView(cfg, s, vc))
  {
    hide CalcP, CalcQ, CorrectViewChange, Window, OneQPerKey;
    ViewChangeIsCorrect(cfg, s, vc);
  }

  lemma PEntryLeft(cfg: Config, s: State, n: nat)
    requires cfg.Valid() && PQTrue(cfg, s) && Window(cfg, s) && Certificates(cfg, s)
    requires n in CalcP(cfg, s)
    ensures PEntryOk(cfg, s, CalcP(cfg, s)[n])
  {
    hide Certificates, SlotPrepared, Window;
    CalcPIsGreatest(cfg, s, n);
    if SlotPrepared(cfg, s, Slot(s.view, n)) {
      PreparedIsEvidence(cfg, s, Slot(s.view, n));
    }
  }

  lemma QEntryLeft(cfg: Config, s: State, k: QKey)
    requires cfg.Valid() && PQTrue(cfg, s) && Window(cfg, s) && Certificates(cfg, s)
    requires k in CalcQ(s)
    ensures CalcQ(s)[k] in s.accepted
  {
    CalcQIsGreatest(cfg, s, k);
    if KeyPrePrepared(s, k) {
      assert CertOk(cfg, s, Slot(s.view, k.n), s.certs[Slot(s.view, k.n)]);
    }
  }

  lemma PQTrueLeft(cfg: Config, s: State, vc: ViewChange)
    requires cfg.Valid() && PQTrue(cfg, s) && Window(cfg, s) && Certificates(cfg, s)
    requires CanChangeView(cfg, s, vc)
    ensures PQTrue(cfg, DoChangeView(cfg, s, vc))
  {
    hide Window, Certificates, CalcP, CalcQ;
    var s' := DoChangeView(cfg, s, vc);
    EntriesAreEarlier(cfg, s, vc);
    forall e | PEntryOk(cfg, s, e) ensures PEntryOk(cfg, s', e) {
      PreparedEvidenceGrows(cfg, s.Msgs(), s'.Msgs(), e.v, e.n, e.d);
    }
    forall n | n in s'.pset ensures PEntryOk(cfg, s, s'.pset[n]) {
      PEntryLeft(cfg, s, n);
    }
    forall k | k in s'.qset ensures s'.qset[k] in s.accepted {
      QEntryLeft(cfg, s, k);
    }
  }

  lemma EntriesAreEarlier(cfg: Config, s: State, vc: ViewChange)
    requires cfg.Valid() && Window(cfg, s) && CanChangeView(cfg, s, vc)
    ensures forall p :: p in vc.pset ==> p.v < vc.v
    ensures forall q :: q in vc.qset ==> q.v < vc.v
  {
    hide CalcP, CalcQ;
    forall p | p in vc.pset ensures p.v < vc.v {
      CalcPInWindow(cfg, s, p.n);
    }
    forall q | q in vc.qset ensures q.v < vc.v {
      CalcQInWindow(cfg, s, QKey(q.d, q.n));
    }
  }

  /** A commit that the certificate or the P set still backs is in the P set sent out. */
  lemma CommitEntersP(cfg: Config, s: State, c: Commit)
    requires cfg.Valid() && Window(cfg, s)
    requires c.v <= s.view && StillPrepared(cfg, s, c)
    ensures c.n in CalcP(cfg, s) && c.v <= CalcP(cfg, s)[c.n].v && CalcP(cfg, s)[c.n].n == c.n
  {
    hide CalcP, SlotPrepared;
    CalcPIsGreatest(cfg, s, c.n);
    if c.v == s.view {
      assert SlotPrepared(cfg, s, Slot(c.v, c.n));
    }
    CalcPInWindow(cfg, s, c.n);
  }

  lemma ReportsLeft(cfg: Config, s: State, vc: ViewChange)
    requires cfg.Valid() && CommitsReported(cfg, s) && Window(cfg, s) && CommitVotes(cfg, s)
    requires CanChangeView(cfg, s, vc)
    ensures CommitsReported(cfg, DoChangeView(cfg, s, vc))
  {
    hide Window, CalcP, CalcQ;
    var s' := DoChangeView(cfg, s, vc);
    if !s.lost {
      forall c | CommitMsg(c) in s'.made && c.d != Null && s'.h < c.n
        ensures StillPrepared(cfg, s', c)
        ensures exists e :: e in vc.pset && e.n == c.n && c.v <= e.v
      {
        assert CommitMsg(c) in s.made;
        CommitEntersP(cfg, s, c);
        assert CalcP(cfg, s)[c.n] in vc.pset;
      }
      forall vc', c | ViewChangeMsg(vc') in s'.made && CommitMsg(c) in s'.made && c.d != Null && c.v < vc'.v
        ensures Reported(vc', c)
      {
        assert CommitMsg(c) in s.made;
      }
    }
  }

  lemma KeptByChangeView(cfg: Config, s: State, vc: ViewChange)
    requires cfg.Valid() && Inv(cfg, s)
    requires CanChangeView(cfg, s, vc)
    ensures Inv(cfg, DoChangeView(cfg, s, vc))
  {
    hide Window, Certificates, PrepareVotes, CommitVotes, PrePrepareVotes, PrimarySlots, Views, Accepted, Watermark,
         CheckpointsTrue, Executions, PQTrue, OwnViewChanges, CommitsReported, DescribesReplica, CalcP, CalcQ;
    var s' := DoChangeView(cfg, s, vc);
    WindowLeft(cfg, s, vc);
    VotesLeft(cfg, s, s', vc);
    LogLeft(cfg, s, s', vc);
    WatermarkFrame(cfg, s, s');
    CheckpointsLeft(cfg, s, vc);
    ExecutionsFrame(cfg, s, s');
    PQTrueLeft(cfg, s, vc);
    OwnViewChangesLeft(cfg, s, vc);
    ReportsLeft(cfg, s, vc);
  }

  // ----- Entering a view -----

  /** What is known about a new view that can be entered. */
  lemma AssignmentInWindow(cfg: Config, s: State, nv: NewView, cp: nat, top: nat)
    requires cfg.Valid() && CanActivate(cfg, s, nv, cp, top)
    ensures forall n :: n in nv.xset ==> cp < n <= s.h + cfg.L()
  {
    LogSize(cfg);
  }

  lemma ActivatedSlots(s: State, nv: NewView, lo: nat, hi: nat)
    requires forall slot :: slot in s.certs ==> slot.v == s.view && lo < slot.n <= hi
    requires forall n :: n in nv.xset ==> n <= hi
    requires lo <= s.h
    ensures forall slot :: slot in ActivatedCerts(s, nv) ==> slot.v == s.view && lo < slot.n <= hi
  {
  }

  lemma WindowEntered(cfg: Config, s: State, nv: NewView, cp: nat, top: nat)
    requires cfg.Valid() && Window(cfg, s)
    requires forall n :: n in nv.xset ==> n <= s.h + cfg.L()
    ensures Window(cfg, DoActivate(s, nv, cp, top))
  {
    hide ActivatedCerts;
    ActivatedSlots(s, nv, s.h, s.h + cfg.L());
  }

  lemma CertEntered(cfg: Config, s: State, s': State, nv: NewView, slot: Slot)
    requires cfg.Valid() && !s.active && nv.v == s.view
    requires slot in s.certs ==> CertOk(cfg, s, slot, s.certs[slot])
    requires s'.got == s.got && s'.made == s.made && s'.active && s.accepted <= s'.accepted
    requires forall n :: n in nv.xset ==> PQ(n, nv.xset[n], nv.v) in s'.accepted
    requires slot in ActivatedCerts(s, nv)
    ensures CertOk(cfg, s', slot, ActivatedCerts(s, nv)[slot])
    ensures ActivatedCerts(s, nv)[slot].prePrepare.Some? ==> slot.n in nv.xset
  {
  }

  lemma CertsEntered(cfg: Config, s: State, nv: NewView, cp: nat, top: nat)
    requires cfg.Valid() && Certificates(cfg, s) && !s.active && nv.v == s.view
    ensures Certificates(cfg, DoActivate(s, nv, cp, top))
    ensures var s' := DoActivate(s, nv, cp, top);
            forall slot :: slot in s'.certs && s'.certs[slot].prePrepare.Some? ==> slot.n in nv.xset
  {
    hide CertOk, ActivatedCerts;
    var s' := DoActivate(s, nv, cp, top);
    forall slot | slot in s'.certs
      ensures CertOk(cfg, s', slot, s'.certs[slot])
      ensures s'.certs[slot].prePrepare.Some? ==> slot.n in nv.xset
    {
      CertEntered(cfg, s, s', nv, slot);
    }
  }

  lemma VotesEntered(cfg: Config, s: State, s': State, nv: NewView, act: Act)
    requires cfg.Valid()
    requires PrepareVotes(cfg, s) && CommitVotes(cfg, s) && PrePrepareVotes(cfg, s) && PrimarySlots(cfg, s)
    requires !s.active && s'.id == s.id && s'.view == s.view && s'.acts == s.acts[s.view := act]
    requires s.accepted <= s'.accepted
    requires s'.got == s.got && s'.made == s.made
    requires forall slot :: slot in s'.certs && s'.certs[slot].prePrepare.Some? ==> slot.n <= s'.seqNo
    ensures PrepareVotes(cfg, s') && CommitVotes(cfg, s') && PrePrepareVotes(cfg, s') && PrimarySlots(cfg, s')
  {
    forall c | CommitMsg(c) in s'.made ensures PreparedEvidence(cfg, s'.Msgs(), c.v, c.n, c.d) {
      assert CommitMsg(c) in s.made;
      PreparedEvidenceGrows(cfg, s.Msgs(), s'.Msgs(), c.v, c.n, c.d);
    }
  }

  lemma ViewsEntered(cfg: Config, s: State, nv: NewView, cp: nat, top: nat)
    requires cfg.Valid() && Views(cfg, s) && CanActivate(cfg, s, nv, cp, top)
    ensures Views(cfg, DoActivate(s, nv, cp, top))
  {
    hide Selected, Assign;
    var s' := DoActivate(s, nv, cp, top);
    forall v | v in s'.acts ensures ActOk(cfg, s', v, s'.acts[v]) {
      if v != s.view {
        assert ActOk(cfg, s, v, s.acts[v]);
      }
    }
  }

  lemma OldAcceptedEntered(cfg: Config, s: State, s': State, act: Act, e: PQ)
    requires cfg.Valid() && AcceptedOk(cfg, s, e) && !s.active
    requires s'.view == s.view && s'.acts == s.acts[s.view := act] && s'.got == s.got && s'.made == s.made
    ensures AcceptedOk(cfg, s', e)
  {
    if FromPrimary(cfg, s, e) {
      var p :| PrePrepareMsg(p) in s.Msgs() && p.v == e.v && p.n == e.n && p.d == e.d && p.sender == cfg.Primary(e.v);
      assert PrePrepareMsg(p) in s'.Msgs();
    }
  }

  lemma AcceptedEntered(cfg: Config, s: State, nv: NewView, cp: nat, top: nat)
    requires cfg.Valid() && Accepted(cfg, s) && !s.active && nv.v == s.view
    requires forall n :: n in nv.xset ==> cp < n
    ensures Accepted(cfg, DoActivate(s, nv, cp, top))
  {
    var s' := DoActivate(s, nv, cp, top);
    forall e | e in s'.accepted ensures AcceptedOk(cfg, s', e) {
      if e in s.accepted {
        OldAcceptedEntered(cfg, s, s', Act(nv, cp, top), e);
      } else {
        assert FromNewView(s', e);
      }
    }
  }

  lemma ReportsEntered(cfg: Config, s: State, s': State)
    requires cfg.Valid() && CommitsReported(cfg, s) && CommitVotes(cfg, s)
    requires !s.active && s'.view == s.view && s'.made == s.made && s'.h == s.h && s'.pset == s.pset
    requires s'.lost == s.lost
    ensures CommitsReported(cfg, s')
  {
    hide SlotPrepared;
    if !s'.lost {
      forall c | CommitMsg(c) in s'.made && c.d != Null && s'.h < c.n ensures StillPrepared(cfg, s', c) {
        assert CommitMsg(c) in s.made;
        assert StillPrepared(cfg, s, c);
      }
    }
  }

  lemma KeptByActivate(cfg: Config, s: State, nv: NewView, cp: nat, top: nat)
    requires cfg.Valid() && Inv(cfg, s)
    requires CanActivate(cfg, s, nv, cp, top)
    ensures Inv(cfg, DoActivate(s, nv, cp, top))
  {
    hide Window, Certificates, PrepareVotes, CommitVotes, PrePrepareVotes, PrimarySlots, Views, Accepted, Watermark,
         CheckpointsTrue, Executions, PQTrue, OwnViewChanges, CommitsReported, ActivatedCerts, Selected, Assign;
    var s' := DoActivate(s, nv, cp, top);
    AssignmentInWindow(cfg, s, nv, cp, top);
    WindowEntered(cfg, s, nv, cp, top);
    CertsEntered(cfg, s, nv, cp, top);
    VotesEntered(cfg, s, s', nv, Act(nv, cp, top));
    ViewsEntered(cfg, s, nv, cp, top);
    AcceptedEntered(cfg, s, nv, cp, top);
    WatermarkFrame(cfg, s, s');
    CheckpointsTrueFrame(cfg, s, s');
    ExecutionsFrame(cfg, s, s');
    PQTrueFrame(cfg, s, s');
    OwnViewChangesFrame(cfg, s, s');
    ReportsEntered(cfg, s, s');
  }

  // ----- All steps -----

  lemma KeptByHear(cfg: Config, s: State, m: Msg)
    requires cfg.Valid() && Inv(cfg, s) && CanHear(cfg, s, m)
    ensures Inv(cfg, s.(got := s.got + {m}))
  {
    CheckpointsKnown(cfg, s);
    hide Inv;
    KeptByQuietStep(cfg, s, s.(got := s.got + {m}));
  }

  lemma KeptByKeepBatch(cfg: Config, s: State, d: Digest)
    requires cfg.Valid() && Inv(cfg, s)
    ensures Inv(cfg, s.(batches := s.batches + {d}))
  {
    CheckpointsKnown(cfg, s);
    hide Inv;
    KeptByQuietStep(cfg, s, s.(batches := s.batches + {d}));
  }

  lemma KeptBySkipOn(cfg: Config, s: State)
    requires cfg.Valid() && Inv(cfg, s)
    ensures Inv(cfg, s.(skip := true))
  {
    CheckpointsKnown(cfg, s);
    hide Inv;
    KeptByQuietStep(cfg, s, s.(skip := true));
  }

  lemma KeptByStoreCheckpoint(cfg: Config, s: State, k: Checkpoint)
    requires cfg.Valid() && Inv(cfg, s) && CheckpointMsg(k) in s.Msgs()
    ensures Inv(cfg, s.(ckpts := s.ckpts + {k}))
  {
    CheckpointsKnown(cfg, s);
    hide Inv;
    KeptByQuietStep(cfg, s, s.(ckpts := s.ckpts + {k}));
  }

  lemma CheckpointsKnown(cfg: Config, s: State)
    requires cfg.Valid() && Inv(cfg, s)
    ensures forall k :: k in s.ckpts ==> CheckpointMsg(k) in s.Msgs()
  {
    hide Window, Certificates, PrepareVotes, CommitVotes, PrePrepareVotes, PrimarySlots, Views, Accepted, Watermark,
         Executions, PQTrue, OwnViewChanges, CommitsReported;
  }

  lemma StepKeepsInv(cfg: Config, s: State, step: Step)
    requires cfg.Valid() && Inv(cfg, s)
    requires Enabled(cfg, s, step)
    ensures Inv(cfg, Apply(cfg, s, step))
  {
    hide Inv, CanHear, CanAcceptPrePrepare, CanIssuePrePrepare, CanCastPrepare, CanCountPrepare,
         CanCastCommit, CanCountCommit, CanStartExec, CanMoveOnQuorum, CanMoveOnReports, CanMoveOnNewView,
         CanChangeView, CanActivate;
    match step
    case Hear(m) => KeptByHear(cfg, s, m);
    case KeepBatch(d) => KeptByKeepBatch(cfg, s, d);
    case AcceptPrePrepare(p) => KeptByAcceptPrePrepare(cfg, s, p);
    case IssuePrePrepare(b) => KeptByIssuePrePrepare(cfg, s, b);
    case CastPrepare(n) => KeptByCastPrepare(cfg, s, n);
    case CastNewViewPrepare(n) => KeptByCastNewViewPrepare(cfg, s, n);
    case CountPrepare(p) => KeptByCountPrepare(cfg, s, p);
    case CastCommit(n) => KeptByCastCommit(cfg, s, n);
    case CountCommit(c) => KeptByCountCommit(cfg, s, c);
    case StartExec(n) => KeptByStartExec(cfg, s, n);
    case FinishExec => KeptByFinishExec(cfg, s);
    case ReleaseExec => KeptByReleaseExec(cfg, s);
    case SkipOn => KeptBySkipOn(cfg, s);
    case TakeCheckpoint(id) => KeptByTakeCheckpoint(cfg, s, id);
    case StoreCheckpoint(k) => KeptByStoreCheckpoint(cfg, s, k);
    case MoveOnQuorum(k) => KeptByMoveOnQuorum(cfg, s, k);
    case MoveOnReports(n) => KeptByMoveOnReports(cfg, s, n);
    case MoveOnNewView(nv, cp) => KeptByMoveOnNewView(cfg, s, nv, cp);
    case ChangeView(vc) => KeptByChangeView(cfg, s, vc);
    case Activate(nv, cp, top) => KeptByActivate(cfg, s, nv, cp, top);
  }
}
