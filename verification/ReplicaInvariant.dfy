/** What every step of a replica keeps. */
module ReplicaInvariant {
  import opened PbftTypes
  import opened NewViewRule
  import opened ReplicaSteps

  // ----- The invariant -----

  /** Everything kept is between the watermarks: certificates in the current view, P and Q entries
      in earlier ones. Unless the watermark has passed execution, it is not above what is executed
      or in execution, nor above an own checkpoint. */
  ghost predicate Window(cfg: Config, s: State)
    requires cfg.Valid()
  {
    && cfg.IsMultiple(s.h)
    && (forall slot :: slot in s.certs ==> slot.v == s.view && InW(cfg, s, slot.n))
    && (forall n :: n in s.pset ==> s.pset[n].n == n && InW(cfg, s, n) && s.pset[n].v < s.view)
    && (forall k :: k in s.qset ==>
          s.qset[k].n == k.n && s.qset[k].d == k.d && InW(cfg, s, k.n) && s.qset[k].v < s.view)
    && (forall n :: n in s.chkpts ==> n <= s.lastExec && cfg.IsMultiple(n))
    && s.lastExec <= s.h + cfg.L()
    && (s.exec.Some? ==> s.lastExec <= s.exec.value <= s.lastExec + 1 && s.exec.value <= s.h + cfg.L())
    && (!s.lagging ==> s.h <= s.SpecExec() && forall n :: n in s.chkpts ==> s.h <= n)
  }

  ghost predicate PreparesOk(cfg: Config, s: State, slot: Slot, ps: seq<Prepare>)
    requires cfg.Valid()
  {
    && (forall p :: p in ps ==>
          p.v == slot.v && p.n == slot.n && p.sender != cfg.Primary(slot.v) && PrepareMsg(p) in s.Msgs())
    && (forall i, j :: 0 <= i < j < |ps| ==> ps[i].sender != ps[j].sender)
  }

  ghost predicate CommitsOk(s: State, slot: Slot, cs: seq<Commit>) {
    && (forall c :: c in cs ==> c.v == slot.v && c.n == slot.n && CommitMsg(c) in s.Msgs())
    && (forall i, j :: 0 <= i < j < |cs| ==> cs[i].sender != cs[j].sender)
  }

  /** A certificate is filed under its own view and number, holds one vote per replica, and has a
      pre-prepare or a sent flag only while the view is active. */
  ghost predicate CertOk(cfg: Config, s: State, slot: Slot, cert: Cert)
    requires cfg.Valid()
  {
    && PreparesOk(cfg, s, slot, cert.prepare)
    && CommitsOk(s, slot, cert.commit)
    && match cert.prePrepare
       case Some(p) =>
         && s.active
         && p.v == slot.v && p.n == slot.n && p.d == cert.digest
         && PQ(slot.n, cert.digest, slot.v) in s.accepted
       case None => cert.digest == Null && !cert.sentPrepare && !cert.sentCommit
  }

  ghost predicate Certificates(cfg: Config, s: State)
    requires cfg.Valid()
  {
    forall slot :: slot in s.certs ==> CertOk(cfg, s, slot, s.certs[slot])
  }

  /** A vote in the current view is remembered by its certificate as long as it can come up again. */
  ghost predicate PrepareVotes(cfg: Config, s: State)
    requires cfg.Valid()
  {
    && (forall p :: PrepareMsg(p) in s.made ==>
          && p.sender == s.id && s.id != cfg.Primary(p.v) && p.v <= s.view
          && PQ(p.n, p.d, p.v) in s.accepted
          && (p.v == s.view ==> s.active)
          && (p.v == s.view && s.h < p.n ==> Slot(p.v, p.n) in s.certs && s.certs[Slot(p.v, p.n)].sentPrepare))
    && (forall p, q :: PrepareMsg(p) in s.made && PrepareMsg(q) in s.made && p.v == q.v && p.n == q.n ==> p.d == q.d)
  }

  ghost predicate CommitVotes(cfg: Config, s: State)
    requires cfg.Valid()
  {
    && (forall c :: CommitMsg(c) in s.made ==>
          && c.sender == s.id && c.v <= s.view
          && PQ(c.n, c.d, c.v) in s.accepted
          && PreparedEvidence(cfg, s.Msgs(), c.v, c.n, c.d)
          && (c.v == s.view ==> s.active)
          && (c.v == s.view && s.h < c.n ==> Slot(c.v, c.n) in s.certs && s.certs[Slot(c.v, c.n)].sentCommit))
    && (forall c, e :: CommitMsg(c) in s.made && CommitMsg(e) in s.made && c.v == e.v && c.n == e.n ==> c.d == e.d)
  }

  ghost predicate PrePrepareVotes(cfg: Config, s: State)
    requires cfg.Valid()
  {
    && (forall p :: PrePrepareMsg(p) in s.made ==>
          && p.sender == s.id && s.id == cfg.Primary(p.v) && p.v <= s.view
          && (p.v == s.view ==> s.active && p.n <= s.seqNo)
          && (0 < p.v ==> p.v in s.acts && forall n :: n in s.acts[p.v].nv.xset ==> n < p.n))
    && (forall p, q :: PrePrepareMsg(p) in s.made && PrePrepareMsg(q) in s.made && p.v == q.v && p.n == q.n ==> p == q)
  }

  /** Own messages that come back were really made, new-views are aligned, and a primary has no
      pre-prepare in its log above the last number it gave out. */
  ghost predicate PrimarySlots(cfg: Config, s: State)
    requires cfg.Valid()
  {
    && (forall m :: m in s.got ==> CanHear(cfg, s, m))
    && (s.id == cfg.Primary(s.view) ==>
          forall slot :: slot in s.certs && s.certs[slot].prePrepare.Some? ==> slot.n <= s.seqNo)
  }

  ghost predicate ActOk(cfg: Config, s: State, v: nat, act: Act)
    requires cfg.Valid()
  {
    && 0 < v <= s.view
    && act.nv.v == v
    && act.nv.sender == cfg.Primary(v)
    && NewViewMsg(act.nv) in s.got
    && Selected(cfg, act.nv.vset, act.cp)
    && Assign(cfg, act.nv.vset, act.cp) == Some(act.nv.xset)
    && act.cp <= s.h
    && forall n :: n in act.nv.xset ==> n <= act.top && PQ(n, act.nv.xset[n], v) in s.accepted
  }

  /** The view is active just when it is the first or its new-view was entered; every number that
      the new view assigned a batch to is held by a certificate with that batch. */
  ghost predicate Views(cfg: Config, s: State)
    requires cfg.Valid()
  {
    && (forall v :: v in s.acts ==> ActOk(cfg, s, v, s.acts[v]))
    && (s.active <==> s.view == 0 || s.view in s.acts)
    && (s.view in s.acts ==>
          && (s.id == cfg.Primary(s.view) ==> forall n :: n in s.acts[s.view].nv.xset ==> n <= s.seqNo)
          && (forall n :: n in s.acts[s.view].nv.xset && s.h < n ==>
                && Slot(s.view, n) in s.certs
                && s.certs[Slot(s.view, n)].prePrepare.Some?
                && (s.acts[s.view].nv.xset[n] != Null ==>
                      s.certs[Slot(s.view, n)].digest == s.acts[s.view].nv.xset[n])))
  }

  ghost predicate FromNewView(s: State, e: PQ) {
    e.v in s.acts && e.n in s.acts[e.v].nv.xset && s.acts[e.v].nv.xset[e.n] == e.d
  }

  ghost predicate FromPrimary(cfg: Config, s: State, e: PQ)
    requires cfg.Valid()
  {
    exists p :: PrePrepareMsg(p) in s.Msgs() && p.v == e.v && p.n == e.n && p.d == e.d && p.sender == cfg.Primary(e.v)
  }

  /** An accepted pre-prepare comes from the new-view or the primary of its view, is above the
      view's initial checkpoint, and does not contradict a batch the new view assigned. */
  ghost predicate AcceptedOk(cfg: Config, s: State, e: PQ)
    requires cfg.Valid()
  {
    && e.v <= s.view
    && (e.v == s.view ==> s.active)
    && (0 < e.v ==>
          && e.v in s.acts
          && s.acts[e.v].cp < e.n
          && (e.n in s.acts[e.v].nv.xset && s.acts[e.v].nv.xset[e.n] != Null ==> e.d == s.acts[e.v].nv.xset[e.n]))
    && (FromNewView(s, e) || FromPrimary(cfg, s, e))
  }

  ghost predicate Accepted(cfg: Config, s: State)
    requires cfg.Valid()
  {
    forall e :: e in s.accepted ==> AcceptedOk(cfg, s, e)
  }

  /** Somebody else vouches for the low watermark: f + 1 checkpoint reports at or above it, or a
      new-view whose initial checkpoint is not below it. */
  ghost predicate Watermark(cfg: Config, s: State)
    requires cfg.Valid()
  {
    || s.h == 0
    || |Reporters(s.Msgs(), s.h)| >= cfg.f + 1
    || exists nv, cp :: NewViewMsg(nv) in s.got && Selected(cfg, nv.vset, cp) && s.h <= cp
  }

  ghost predicate CheckpointsTrue(cfg: Config, s: State)
    requires cfg.Valid()
  {
    && (forall k :: k in s.ckpts ==> CheckpointMsg(k) in s.Msgs())
    && (forall k :: CheckpointMsg(k) in s.made ==> k.sender == s.id && k.n <= s.lastExec && cfg.IsMultiple(k.n))
    && (forall vc, c :: ViewChangeMsg(vc) in s.made && c in vc.cset ==> c.n <= s.lastExec && cfg.IsMultiple(c.n))
  }

  ghost predicate ExecOk(cfg: Config, s: State, e: Exec)
    requires cfg.Valid()
  {
    && PQ(e.n, e.d, e.v) in s.accepted
    && PreparedEvidence(cfg, s.Msgs(), e.v, e.n, e.d)
    && |Committers(s.Msgs(), e.v, e.n)| >= cfg.IntersectionQuorum()
  }

  /** Executions are at 1, 2, 3 and so on up to the one in flight, each backed by a commit quorum. */
  ghost predicate Executions(cfg: Config, s: State)
    requires cfg.Valid()
  {
    && |s.execs| == s.SpecExec()
    && (forall i :: 0 <= i < |s.execs| ==> s.execs[i].n == i + 1 && ExecOk(cfg, s, s.execs[i]))
  }

  ghost predicate PEntryOk(cfg: Config, s: State, e: PQ)
    requires cfg.Valid()
  {
    e in s.accepted && PreparedEvidence(cfg, s.Msgs(), e.v, e.n, e.d)
  }

  /** The P and Q sets, and every view-change ever sent, tell of things that happened. */
  ghost predicate PQTrue(cfg: Config, s: State)
    requires cfg.Valid()
  {
    && (forall n :: n in s.pset ==> PEntryOk(cfg, s, s.pset[n]))
    && (forall k :: k in s.qset ==> s.qset[k] in s.accepted)
    && (forall vc, e :: ViewChangeMsg(vc) in s.made && e in vc.pset ==> e.v < vc.v && PEntryOk(cfg, s, e))
    && (forall vc, e :: ViewChangeMsg(vc) in s.made && e in vc.qset ==> e.v < vc.v && e in s.accepted)
  }

  /** Own view-changes fit their watermark unless that watermark had passed execution. */
  ghost predicate OwnViewChanges(cfg: Config, s: State)
    requires cfg.Valid()
  {
    forall vc :: ViewChangeMsg(vc) in s.made ==>
      && vc.sender == s.id && vc.v <= s.view && OneQPerKey(vc)
      && (!s.lagging ==> CorrectViewChange(cfg, vc))
  }

  ghost predicate StillPrepared(cfg: Config, s: State, c: Commit)
    requires cfg.Valid()
  {
    if c.v == s.view then
      SlotPrepared(cfg, s, Slot(c.v, c.n)) && s.certs[Slot(c.v, c.n)].digest == c.d
    else
      c.n in s.pset && c.v <= s.pset[c.n].v
  }

  ghost predicate Reported(vc: ViewChange, c: Commit) {
    c.n <= vc.h || exists e :: e in vc.pset && e.n == c.n && c.v <= e.v
  }

  /** A committed batch stays in the P set until the watermark passes it, and every later
      view-change reports it, provided no watermark move dropped a batch still in use. */
  ghost predicate CommitsReported(cfg: Config, s: State)
    requires cfg.Valid()
  {
    !s.lost ==>
      && (forall c :: CommitMsg(c) in s.made && c.d != Null && s.h < c.n ==> StillPrepared(cfg, s, c))
      && (forall vc, c :: ViewChangeMsg(vc) in s.made && CommitMsg(c) in s.made && c.d != Null && c.v < vc.v ==>
            Reported(vc, c))
  }

  ghost predicate Inv(cfg: Config, s: State)
    requires cfg.Valid()
  {
    && Window(cfg, s)
    && Certificates(cfg, s)
    && PrepareVotes(cfg, s)
    && CommitVotes(cfg, s)
    && PrePrepareVotes(cfg, s)
    && PrimarySlots(cfg, s)
    && Views(cfg, s)
    && Accepted(cfg, s)
    && Watermark(cfg, s)
    && CheckpointsTrue(cfg, s)
    && Executions(cfg, s)
    && PQTrue(cfg, s)
    && OwnViewChanges(cfg, s)
    && CommitsReported(cfg, s)
  }

  lemma InitialInv(cfg: Config, id: nat)
    requires cfg.Valid()
    ensures Inv(cfg, Initial(id))
  {
  }
}
