/** For each part of the invariant, which changes of the state leave it true. */
module InvariantFrames {
  import opened PbftTypes
  import opened Quorums
  import opened NewViewRule
  import opened ReplicaSteps
  import opened ReplicaInvariant

  // ----- Evidence only grows -----

  lemma PreparedEvidenceGrows(cfg: Config, ms: set<Msg>, ms': set<Msg>, v: nat, n: nat, d: Digest)
    requires cfg.Valid() && ms <= ms'
    requires PreparedEvidence(cfg, ms, v, n, d)
    ensures PreparedEvidence(cfg, ms', v, n, d)
  {
    SubsetCard(Preparers(cfg, ms, v, n, d), Preparers(cfg, ms', v, n, d));
  }

  lemma CommittersGrow(ms: set<Msg>, ms': set<Msg>, v: nat, n: nat)
    requires ms <= ms'
    ensures |Committers(ms, v, n)| <= |Committers(ms', v, n)|
  {
    SubsetCard(Committers(ms, v, n), Committers(ms', v, n));
  }

  lemma ReportersGrow(ms: set<Msg>, ms': set<Msg>, n: nat)
    requires ms <= ms'
    ensures |Reporters(ms, n)| <= |Reporters(ms', n)|
  {
    SubsetCard(Reporters(ms, n), Reporters(ms', n));
  }

  // ----- Changes that keep the view -----

  /** The replica stays in its view, and nothing in its history is forgotten. */
  ghost predicate Grows(s: State, s': State) {
    && s'.id == s.id && s'.view == s.view && s'.active == s.active && s'.acts == s.acts
    && s.got <= s'.got && s.made <= s'.made && s.accepted <= s'.accepted
    && s.h <= s'.h && s.seqNo <= s'.seqNo && s.lastExec <= s'.lastExec
    && (s.lost ==> s'.lost) && (s.lagging ==> s'.lagging)
  }

  /** What a certificate keeps while its slot stays above the watermark. */
  ghost predicate CertGrows(c: Cert, c': Cert) {
    && (c.sentPrepare ==> c'.sentPrepare)
    && (c.sentCommit ==> c'.sentCommit)
    && (c.prePrepare.Some? ==> c'.prePrepare.Some?)
    && (c.digest != Null ==> c'.digest == c.digest)
    && c.prepare <= c'.prepare
  }

  ghost predicate CertsGrow(s: State, s': State) {
    forall slot :: slot in s.certs && s'.h < slot.n ==> slot in s'.certs && CertGrows(s.certs[slot], s'.certs[slot])
  }

  lemma CertificatesFrame(cfg: Config, s: State, s': State)
    requires cfg.Valid() && Certificates(cfg, s) && Grows(s, s')
    requires forall slot :: slot in s'.certs && !(slot in s.certs && s'.certs[slot] == s.certs[slot]) ==>
      CertOk(cfg, s', slot, s'.certs[slot])
    ensures Certificates(cfg, s')
  {
    forall slot | slot in s'.certs && slot in s.certs && s'.certs[slot] == s.certs[slot]
      ensures CertOk(cfg, s', slot, s'.certs[slot])
    {
      assert CertOk(cfg, s, slot, s.certs[slot]);
    }
  }

  lemma PrepareVotesFrame(cfg: Config, s: State, s': State)
    requires cfg.Valid() && PrepareVotes(cfg, s) && Grows(s, s') && CertsGrow(s, s')
    requires forall p :: PrepareMsg(p) in s'.made ==> PrepareMsg(p) in s.made
    ensures PrepareVotes(cfg, s')
  {
    forall p | PrepareMsg(p) in s'.made && p.v == s'.view && s'.h < p.n
      ensures Slot(p.v, p.n) in s'.certs && s'.certs[Slot(p.v, p.n)].sentPrepare
    {
      assert PrepareMsg(p) in s.made;
      assert Slot(p.v, p.n) in s.certs;
    }
  }

  lemma CommitVotesFrame(cfg: Config, s: State, s': State)
    requires cfg.Valid() && CommitVotes(cfg, s) && Grows(s, s') && CertsGrow(s, s')
    requires forall c :: CommitMsg(c) in s'.made ==> CommitMsg(c) in s.made
    ensures CommitVotes(cfg, s')
  {
    forall c | CommitMsg(c) in s'.made
      ensures PreparedEvidence(cfg, s'.Msgs(), c.v, c.n, c.d)
      ensures c.v == s'.view && s'.h < c.n ==> Slot(c.v, c.n) in s'.certs && s'.certs[Slot(c.v, c.n)].sentCommit
    {
      assert CommitMsg(c) in s.made;
      PreparedEvidenceGrows(cfg, s.Msgs(), s'.Msgs(), c.v, c.n, c.d);
      if c.v == s'.view && s'.h < c.n {
        assert Slot(c.v, c.n) in s.certs;
      }
    }
  }

  lemma PrePrepareVotesFrame(cfg: Config, s: State, s': State)
    requires cfg.Valid() && PrePrepareVotes(cfg, s) && Grows(s, s')
    requires forall p :: PrePrepareMsg(p) in s'.made ==> PrePrepareMsg(p) in s.made
    ensures PrePrepareVotes(cfg, s')
  {
  }

  lemma PrimarySlotsFrame(cfg: Config, s: State, s': State)
    requires cfg.Valid() && PrimarySlots(cfg, s) && Grows(s, s')
    requires forall m :: m in s'.got ==> m in s.got || CanHear(cfg, s', m)
    requires forall slot :: slot in s'.certs && s'.certs[slot].prePrepare.Some? ==>
               (slot in s.certs && s.certs[slot].prePrepare.Some?) || slot.n <= s'.seqNo || s.id != cfg.Primary(s.view)
    ensures PrimarySlots(cfg, s')
  {
  }

  lemma ViewsFrame(cfg: Config, s: State, s': State)
    requires cfg.Valid() && Views(cfg, s) && Grows(s, s') && CertsGrow(s, s')
    ensures Views(cfg, s')
  {
    forall v | v in s'.acts ensures ActOk(cfg, s', v, s'.acts[v]) {
      assert ActOk(cfg, s, v, s.acts[v]);
    }
    if s'.view in s'.acts {
      forall n | n in s'.acts[s'.view].nv.xset && s'.h < n
        ensures Slot(s'.view, n) in s'.certs
        ensures s'.certs[Slot(s'.view, n)].prePrepare.Some?
        ensures s'.acts[s'.view].nv.xset[n] != Null ==> s'.certs[Slot(s'.view, n)].digest == s'.acts[s'.view].nv.xset[n]
      {
        assert Slot(s.view, n) in s.certs;
      }
    }
  }

  lemma AcceptedFrame(cfg: Config, s: State, s': State)
    requires cfg.Valid() && Accepted(cfg, s) && Grows(s, s')
    requires forall e :: e in s'.accepted ==> e in s.accepted || AcceptedOk(cfg, s', e)
    ensures Accepted(cfg, s')
  {
    forall e | e in s'.accepted && e in s.accepted ensures AcceptedOk(cfg, s', e) {
      assert AcceptedOk(cfg, s, e);
      if FromPrimary(cfg, s, e) {
        var p :| PrePrepareMsg(p) in s.Msgs() && p.v == e.v && p.n == e.n && p.d == e.d && p.sender == cfg.Primary(e.v);
        assert PrePrepareMsg(p) in s'.Msgs();
      }
    }
  }

  lemma WatermarkFrame(cfg: Config, s: State, s': State)
    requires cfg.Valid() && Watermark(cfg, s)
    requires s'.h == s.h && s.got <= s'.got && s.made <= s'.made
    ensures Watermark(cfg, s')
  {
    ReportersGrow(s.Msgs(), s'.Msgs(), s.h);
    if nv, cp :| NewViewMsg(nv) in s.got && Selected(cfg, nv.vset, cp) && s.h <= cp {
      assert NewViewMsg(nv) in s'.got;
    }
  }

  lemma CheckpointsTrueFrame(cfg: Config, s: State, s': State)
    requires cfg.Valid() && CheckpointsTrue(cfg, s)
    requires s'.id == s.id && s.lastExec <= s'.lastExec && s.Msgs() <= s'.Msgs() && s'.ckpts <= s.ckpts
    requires forall k :: CheckpointMsg(k) in s'.made ==> CheckpointMsg(k) in s.made
    requires forall vc :: ViewChangeMsg(vc) in s'.made ==> ViewChangeMsg(vc) in s.made
    ensures CheckpointsTrue(cfg, s')
  {
  }

  lemma ExecutionsFrame(cfg: Config, s: State, s': State)
    requires cfg.Valid() && Executions(cfg, s)
    requires s'.execs == s.execs && s'.SpecExec() == s.SpecExec()
    requires s.Msgs() <= s'.Msgs() && s.accepted <= s'.accepted
    ensures Executions(cfg, s')
  {
    forall i | 0 <= i < |s'.execs| ensures ExecOk(cfg, s', s'.execs[i]) {
      var e := s.execs[i];
      PreparedEvidenceGrows(cfg, s.Msgs(), s'.Msgs(), e.v, e.n, e.d);
      CommittersGrow(s.Msgs(), s'.Msgs(), e.v, e.n);
    }
  }

  lemma PQTrueFrame(cfg: Config, s: State, s': State)
    requires cfg.Valid() && PQTrue(cfg, s)
    requires s.Msgs() <= s'.Msgs() && s.accepted <= s'.accepted
    requires forall n :: n in s'.pset ==> n in s.pset && s'.pset[n] == s.pset[n]
    requires forall k :: k in s'.qset ==> k in s.qset && s'.qset[k] == s.qset[k]
    requires forall vc :: ViewChangeMsg(vc) in s'.made ==> ViewChangeMsg(vc) in s.made
    ensures PQTrue(cfg, s')
  {
    forall e | PEntryOk(cfg, s, e) ensures PEntryOk(cfg, s', e) {
      PreparedEvidenceGrows(cfg, s.Msgs(), s'.Msgs(), e.v, e.n, e.d);
    }
  }

  lemma OwnViewChangesFrame(cfg: Config, s: State, s': State)
    requires cfg.Valid() && OwnViewChanges(cfg, s)
    requires s'.id == s.id && s.view <= s'.view && (s.lagging ==> s'.lagging)
    requires forall vc :: ViewChangeMsg(vc) in s'.made ==> ViewChangeMsg(vc) in s.made
    ensures OwnViewChanges(cfg, s')
  {
  }

  // ----- What was prepared stays prepared -----

  lemma {:induction false} CountPreparesGrows(ps: seq<Prepare>, ps': seq<Prepare>, v: nat, n: nat, d: Digest)
    requires ps <= ps'
    ensures CountPrepares(ps, v, n, d) <= CountPrepares(ps', v, n, d)
  {
    if |ps| < |ps'| {
      CountPreparesGrows(ps, ps'[..|ps'| - 1], v, n, d);
    } else {
      assert ps == ps';
    }
  }

  /** In the current view the shortcuts through the P and Q sets never apply. */
  lemma PreparedByCert(cfg: Config, s: State, slot: Slot)
    requires cfg.Valid() && Window(cfg, s) && Certificates(cfg, s)
    requires slot in s.certs
    ensures SlotPrePrepared(s, slot) <==>
              && s.certs[slot].prePrepare.Some?
              && (s.certs[slot].digest == Null || s.certs[slot].digest in s.batches)
    ensures SlotPrepared(cfg, s, slot) <==>
              && SlotPrePrepared(s, slot)
              && CountPrepares(s.certs[slot].prepare, slot.v, slot.n, s.certs[slot].digest)
                 >= cfg.IntersectionQuorum() - 1
  {
    assert CertOk(cfg, s, slot, s.certs[slot]);
    assert slot == Slot(slot.v, slot.n);
  }

  lemma SlotStaysPrepared(cfg: Config, s: State, s': State, slot: Slot)
    requires cfg.Valid() && Window(cfg, s) && Certificates(cfg, s) && Window(cfg, s') && Certificates(cfg, s')
    requires SlotPrepared(cfg, s, slot)
    requires slot in s'.certs && CertGrows(s.certs[slot], s'.certs[slot])
    requires s.certs[slot].digest != Null && s.certs[slot].digest in s'.batches
    ensures SlotPrepared(cfg, s', slot)
  {
    PreparedByCert(cfg, s, slot);
    PreparedByCert(cfg, s', slot);
    CountPreparesGrows(s.certs[slot].prepare, s'.certs[slot].prepare, slot.v, slot.n, s.certs[slot].digest);
  }

  /** No live certificate that is still above the watermark loses its batch. */
  ghost predicate BatchesKept(s: State, s': State) {
    forall slot :: slot in s.certs && s'.h < slot.n && s.certs[slot].digest in s.batches
                              && s.certs[slot].digest != Null ==>
      s.certs[slot].digest in s'.batches
  }

  lemma CommitsReportedFrame(cfg: Config, s: State, s': State)
    requires cfg.Valid() && CommitsReported(cfg, s)
    requires Window(cfg, s) && Certificates(cfg, s) && Window(cfg, s') && Certificates(cfg, s')
    requires Grows(s, s') && CertsGrow(s, s')
    requires !s'.lost ==> BatchesKept(s, s')
    requires forall n :: n in s.pset && s'.h < n ==> n in s'.pset && s'.pset[n] == s.pset[n]
    requires forall c :: CommitMsg(c) in s'.made ==> CommitMsg(c) in s.made
    requires forall vc :: ViewChangeMsg(vc) in s'.made ==> ViewChangeMsg(vc) in s.made
    ensures CommitsReported(cfg, s')
  {
    if !s'.lost {
      forall c | CommitMsg(c) in s'.made && c.d != Null && s'.h < c.n ensures StillPrepared(cfg, s', c) {
        assert StillPrepared(cfg, s, c);
        if c.v == s.view {
          PreparedByCert(cfg, s, Slot(c.v, c.n));
          SlotStaysPrepared(cfg, s, s', Slot(c.v, c.n));
        }
      }
    }
  }

  // ----- Steps inside a view that do not move the watermark -----

  /** Same view, same watermark, same P and Q sets; at most one message is made. */
  ghost predicate InView(s: State, s': State, m: Option<Msg>) {
    && Grows(s, s') && CertsGrow(s, s')
    && s'.h == s.h && s'.pset == s.pset && s'.qset == s.qset
    && s'.made == (if m.Some? then s.made + {m.value} else s.made)
    && s.batches <= s'.batches
    && s'.lost == s.lost && s'.lagging == s.lagging
  }

  /** The parts of the invariant about votes of other kinds than the message made. */
  lemma OtherVotesKept(cfg: Config, s: State, s': State, m: Option<Msg>)
    requires cfg.Valid() && InView(s, s', m)
    ensures PrepareVotes(cfg, s) && (m.None? || !m.value.PrepareMsg?) ==> PrepareVotes(cfg, s')
    ensures CommitVotes(cfg, s) && (m.None? || !m.value.CommitMsg?) ==> CommitVotes(cfg, s')
    ensures PrePrepareVotes(cfg, s) && (m.None? || !m.value.PrePrepareMsg?) ==> PrePrepareVotes(cfg, s')
  {
    hide PrepareVotes, CommitVotes, PrePrepareVotes;
    if PrepareVotes(cfg, s) && (m.None? || !m.value.PrepareMsg?) {
      PrepareVotesFrame(cfg, s, s');
    }
    if CommitVotes(cfg, s) && (m.None? || !m.value.CommitMsg?) {
      CommitVotesFrame(cfg, s, s');
    }
    if PrePrepareVotes(cfg, s) && (m.None? || !m.value.PrePrepareMsg?) {
      PrePrepareVotesFrame(cfg, s, s');
    }
  }

  lemma HistoryKept(cfg: Config, s: State, s': State, m: Option<Msg>)
    requires cfg.Valid() && InView(s, s', m)
    requires m.Some? ==> !m.value.ViewChangeMsg?
    ensures Views(cfg, s) ==> Views(cfg, s')
    ensures Watermark(cfg, s) ==> Watermark(cfg, s')
    ensures PQTrue(cfg, s) ==> PQTrue(cfg, s')
    ensures OwnViewChanges(cfg, s) ==> OwnViewChanges(cfg, s')
    ensures Executions(cfg, s) && s'.execs == s.execs && s'.SpecExec() == s.SpecExec() ==> Executions(cfg, s')
  {
    hide Views, Watermark, PQTrue, OwnViewChanges, Executions;
    if Views(cfg, s) { ViewsFrame(cfg, s, s'); }
    if Watermark(cfg, s) { WatermarkFrame(cfg, s, s'); }
    if PQTrue(cfg, s) { PQTrueFrame(cfg, s, s'); }
    if OwnViewChanges(cfg, s) { OwnViewChangesFrame(cfg, s, s'); }
    if Executions(cfg, s) && s'.execs == s.execs && s'.SpecExec() == s.SpecExec() { ExecutionsFrame(cfg, s, s'); }
  }

  lemma ReportsKept(cfg: Config, s: State, s': State, m: Option<Msg>)
    requires cfg.Valid() && InView(s, s', m)
    requires Window(cfg, s) && Certificates(cfg, s) && Window(cfg, s') && Certificates(cfg, s')
    requires m.Some? ==> !m.value.CommitMsg? && !m.value.ViewChangeMsg?
    ensures CommitsReported(cfg, s) ==> CommitsReported(cfg, s')
  {
    hide CommitsReported;
    if CommitsReported(cfg, s) {
      CommitsReportedFrame(cfg, s, s');
    }
  }

  lemma CheckpointsKept(cfg: Config, s: State, s': State, m: Option<Msg>)
    requires cfg.Valid() && InView(s, s', m)
    requires s'.ckpts <= s.ckpts
    requires m.Some? ==> !m.value.CheckpointMsg? && !m.value.ViewChangeMsg?
    ensures CheckpointsTrue(cfg, s) ==> CheckpointsTrue(cfg, s')
  {
    hide CheckpointsTrue;
    if CheckpointsTrue(cfg, s) {
      CheckpointsTrueFrame(cfg, s, s');
    }
  }

  /** All parts of the invariant that a step inside a view leaves true by itself. */
  lemma KeptInView(cfg: Config, s: State, s': State, m: Option<Msg>)
    requires cfg.Valid() && Inv(cfg, s) && InView(s, s', m)
    requires Window(cfg, s') && Certificates(cfg, s') && Accepted(cfg, s') && PrimarySlots(cfg, s')
    requires m.Some? ==> !m.value.ViewChangeMsg?
    requires m.Some? && m.value.PrepareMsg? ==> PrepareVotes(cfg, s')
    requires m.Some? && m.value.CommitMsg? ==> CommitVotes(cfg, s') && CommitsReported(cfg, s')
    requires m.Some? && m.value.PrePrepareMsg? ==> PrePrepareVotes(cfg, s')
    requires s'.ckpts <= s.ckpts || CheckpointsTrue(cfg, s')
    requires m.Some? && m.value.CheckpointMsg? ==> CheckpointsTrue(cfg, s')
    requires (s'.execs == s.execs && s'.SpecExec() == s.SpecExec()) || Executions(cfg, s')
    ensures Inv(cfg, s')
  {
    hide Window, Certificates, PrepareVotes, CommitVotes, PrePrepareVotes, PrimarySlots, Views, Accepted, Watermark,
         CheckpointsTrue, Executions, PQTrue, OwnViewChanges, CommitsReported, InView;
    OtherVotesKept(cfg, s, s', m);
    HistoryKept(cfg, s, s', m);
    if m.None? || !m.value.CommitMsg? {
      ReportsKept(cfg, s, s', m);
    }
    if s'.ckpts <= s.ckpts && (m.None? || !m.value.CheckpointMsg?) {
      CheckpointsKept(cfg, s, s', m);
    }
  }
}
