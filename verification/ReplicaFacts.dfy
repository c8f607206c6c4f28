/** Consequences of the invariant in the form in which the handlers use them. */
module ReplicaFacts {
  import opened PbftTypes
  import opened Quorums
  import opened NewViewRule
  import opened ReplicaSteps
  import opened ReplicaInvariant
  import opened InvariantMoves
  import opened InvariantSteps
  import opened ViewChangeCauses
  import opened ReplicaLog

  lemma CertFacts(cfg: Config, s: State, slot: Slot)
    requires cfg.Valid() && Inv(cfg, s) && slot in s.certs
    ensures slot.v == s.view && InW(cfg, s, slot.n)
    ensures CertOk(cfg, s, slot, s.certs[slot])
  {
    hide CertOk, PrepareVotes, CommitVotes, PrePrepareVotes, PrimarySlots, Views, Accepted, Watermark, CheckpointsTrue,
         Executions, PQTrue, OwnViewChanges, CommitsReported;
  }

  /** What the code finds pre-prepared in its current view, its certificate says. */
  lemma PrePreparedFacts(cfg: Config, s: State, d: Digest, n: nat)
    requires cfg.Valid() && Inv(cfg, s) && Slot(s.view, n) in s.certs
    requires PrePrepared(s, d, s.view, n)
    ensures SlotPrePrepared(s, Slot(s.view, n)) && s.certs[Slot(s.view, n)].digest == d && s.active
  {
    hide PrepareVotes, CommitVotes, PrePrepareVotes, PrimarySlots, Views, Accepted, Watermark, CheckpointsTrue,
         Executions, PQTrue, OwnViewChanges, CommitsReported;
    CertFacts(cfg, s, Slot(s.view, n));
    assert QKey(d, n) in s.qset ==> s.qset[QKey(d, n)].v < s.view;
  }

  lemma PreparedFacts(cfg: Config, s: State, d: Digest, n: nat)
    requires cfg.Valid() && Inv(cfg, s) && Slot(s.view, n) in s.certs
    requires Prepared(cfg, s, d, s.view, n)
    ensures SlotPrepared(cfg, s, Slot(s.view, n)) && s.certs[Slot(s.view, n)].digest == d && s.active
  {
    hide Inv;
    PrePreparedFacts(cfg, s, d, n);
  }

  /** What `prepared` says, by the replicas that sent the prepares of the certificate. */
  lemma PreparedIff(cfg: Config, s: State, d: Digest, v: nat, n: nat)
    requires cfg.Valid() && Inv(cfg, s)
    ensures Prepared(cfg, s, d, v, n) <==>
              && (d == Null || d in s.batches)
              && (|| (QKey(d, n) in s.qset && s.qset[QKey(d, n)].v == v)
                  || (&& Slot(v, n) in s.certs && s.certs[Slot(v, n)].prePrepare.Some?
                      && s.certs[Slot(v, n)].prePrepare.value.d == d))
              && (|| (n in s.pset && s.pset[n].v == v && s.pset[n].d == d)
                  || (&& Slot(v, n) in s.certs
                      && |set p | p in s.certs[Slot(v, n)].prepare && p.d == d :: p.sender|
                         >= cfg.IntersectionQuorum() - 1))
  {
    hide Inv;
    if Slot(v, n) in s.certs {
      CertFacts(cfg, s, Slot(v, n));
      var ps := s.certs[Slot(v, n)].prepare;
      CountedPreparersDistinct(ps, v, n, d);
      assert PrepareSenders(ps, v, n, d) == set p | p in ps && p.d == d :: p.sender;
    }
  }

  /** ... and `committed`, by the replicas that sent its commits, whatever their digest. */
  lemma CommittedIff(cfg: Config, s: State, d: Digest, v: nat, n: nat)
    requires cfg.Valid() && Inv(cfg, s)
    ensures Committed(cfg, s, d, v, n) <==>
              && Prepared(cfg, s, d, v, n) && Slot(v, n) in s.certs
              && |set c | c in s.certs[Slot(v, n)].commit :: c.sender| >= cfg.IntersectionQuorum()
  {
    hide Inv, Prepared;
    if Slot(v, n) in s.certs {
      CertFacts(cfg, s, Slot(v, n));
      CommitsDistinct(cfg, s, Slot(v, n));
    }
  }

  lemma CommitsDistinct(cfg: Config, s: State, slot: Slot)
    requires cfg.Valid() && CertOk(cfg, s, slot, s.CertAt(slot))
    ensures var cs := s.CertAt(slot).commit; CountCommits(cs, slot.v, slot.n) == |set c | c in cs :: c.sender|
  {
    var cs := s.CertAt(slot).commit;
    CountedCommittersDistinct(cs, slot.v, slot.n);
    assert CommitSenders(cs, slot.v, slot.n) == set c | c in cs :: c.sender;
  }

  /** A slot above the watermark without the sent flag has had no own prepare. */
  lemma UnsentPrepare(cfg: Config, s: State, n: nat)
    requires cfg.Valid() && Inv(cfg, s)
    requires s.h < n && !s.CertAt(Slot(s.view, n)).sentPrepare
    ensures forall p :: PrepareMsg(p) in s.made ==> !(p.v == s.view && p.n == n)
  {
    hide Window, Certificates, CommitVotes, PrePrepareVotes, PrimarySlots, Views, Accepted, Watermark, CheckpointsTrue,
         Executions, PQTrue, OwnViewChanges, CommitsReported;
  }

  lemma UnsentCommit(cfg: Config, s: State, n: nat)
    requires cfg.Valid() && Inv(cfg, s)
    requires s.h < n && !s.CertAt(Slot(s.view, n)).sentCommit
    ensures forall c :: CommitMsg(c) in s.made ==> !(c.v == s.view && c.n == n)
  {
    hide Window, Certificates, PrepareVotes, PrePrepareVotes, PrimarySlots, Views, Accepted, Watermark, CheckpointsTrue,
         Executions, PQTrue, OwnViewChanges, CommitsReported;
  }

  lemma FreshNumber(cfg: Config, s: State)
    requires cfg.Valid() && Inv(cfg, s)
    ensures forall p :: PrePrepareMsg(p) in s.made ==> !(p.v == s.view && p.n == s.seqNo + 1)
    ensures s.id == cfg.Primary(s.view) && Slot(s.view, s.seqNo + 1) in s.certs ==>
              s.certs[Slot(s.view, s.seqNo + 1)].prePrepare.None?
  {
    hide Window, Certificates, PrepareVotes, CommitVotes, Views, Accepted, Watermark, CheckpointsTrue,
         Executions, PQTrue, OwnViewChanges, CommitsReported;
  }

  lemma OldCheckpoints(cfg: Config, s: State)
    requires cfg.Valid() && Inv(cfg, s)
    ensures forall k :: CheckpointMsg(k) in s.made ==> k.n <= s.lastExec
  {
    hide Window, Certificates, PrepareVotes, CommitVotes, PrePrepareVotes, PrimarySlots, Views, Accepted, Watermark,
         Executions, PQTrue, OwnViewChanges, CommitsReported;
  }

  lemma OldViewChanges(cfg: Config, s: State)
    requires cfg.Valid() && Inv(cfg, s)
    ensures forall vc :: ViewChangeMsg(vc) in s.made ==> vc.v <= s.view
  {
    hide Window, Certificates, PrepareVotes, CommitVotes, PrePrepareVotes, PrimarySlots, Views, Accepted, Watermark,
         CheckpointsTrue, Executions, PQTrue, CommitsReported;
  }

  lemma WindowFacts(cfg: Config, s: State)
    requires cfg.Valid() && Inv(cfg, s)
    ensures Window(cfg, s)
  {
    hide Window, Certificates, PrepareVotes, CommitVotes, PrePrepareVotes, PrimarySlots, Views, Accepted, Watermark,
         CheckpointsTrue, Executions, PQTrue, OwnViewChanges, CommitsReported;
  }

  lemma NewViewFacts(cfg: Config, s: State, nv: NewView)
    requires cfg.Valid() && Inv(cfg, s) && NewViewMsg(nv) in s.got
    ensures Aligned(cfg, nv)
  {
    hide Window, Certificates, PrepareVotes, CommitVotes, PrePrepareVotes, Views, Accepted, Watermark,
         CheckpointsTrue, Executions, PQTrue, OwnViewChanges, CommitsReported;
    assert CanHear(cfg, s, NewViewMsg(nv));
  }

  /** While a view is not entered, nothing in it has been voted for. */
  lemma NoVotesWhileInactive(cfg: Config, s: State)
    requires cfg.Valid() && Inv(cfg, s) && !s.active
    ensures forall p :: PrepareMsg(p) in s.made ==> p.v < s.view
  {
    hide Window, Certificates, CommitVotes, PrePrepareVotes, PrimarySlots, Views, Accepted, Watermark,
         CheckpointsTrue, Executions, PQTrue, OwnViewChanges, CommitsReported;
  }

  lemma StartExecFacts(cfg: Config, s: State, n: nat)
    requires cfg.Valid() && CanStartExec(cfg, s, n)
    ensures s.exec.None? && n == s.lastExec + 1
    ensures Slot(s.view, n) in s.certs && s.certs[Slot(s.view, n)].prePrepare.Some?
    ensures s.certs[Slot(s.view, n)].digest == Null || s.certs[Slot(s.view, n)].digest in s.batches
  {
  }

  /** Why a watermark may move: a checkpoint quorum, reports beyond the high watermark, or the initial
      checkpoint of a new view. */
  datatype Reason = OnQuorum(chkpt: Checkpoint) | OnReports | OnNewView(nv: NewView)

  ghost predicate Warranted(cfg: Config, s: State, why: Reason, n: nat)
    requires cfg.Valid()
  {
    match why
    case OnQuorum(k) => k.n == n && CanMoveOnQuorum(cfg, s, k)
    case OnReports => CanMoveOnReports(cfg, s, n)
    case OnNewView(nv) => CanMoveOnNewView(cfg, s, nv, n)
  }

  /** Who falls behind discards its batches first. */
  ghost function Moved(cfg: Config, s: State, why: Reason, n: nat): State
    requires cfg.Valid()
  {
    Move(if why.OnReports? then s.(batches := {}) else s, cfg.Floor(n))
  }

  lemma MoveIsStep(cfg: Config, s: State, why: Reason, n: nat)
    requires cfg.Valid() && Inv(cfg, s) && Warranted(cfg, s, why, n)
    ensures Next(cfg, s, Moved(cfg, s, why, n))
    ensures Onward(s, Moved(cfg, s, why, n))
    ensures s.h <= cfg.Floor(n)
  {
    hide Inv, Next, Onward, Move, CanMoveOnQuorum, CanMoveOnReports, CanMoveOnNewView;
    ghost var s' := Move(if why.OnReports? then s.(batches := {}) else s, cfg.Floor(n));
    assert Next(cfg, s, s') by {
      match why
      case OnQuorum(k) => NextMoveOnQuorum(cfg, s, k);
      case OnReports => NextMoveOnReports(cfg, s, n);
      case OnNewView(nv) => NextMoveOnNewView(cfg, s, nv, n);
    }
    NextGoesOn(cfg, s, Moved(cfg, s, why, n));
    MoveRaises(cfg, s, why, n);
  }

  lemma MoveRaises(cfg: Config, s: State, why: Reason, n: nat)
    requires cfg.Valid() && Inv(cfg, s) && Warranted(cfg, s, why, n)
    ensures s.h <= cfg.Floor(n)
  {
    hide Certificates, PrepareVotes, CommitVotes, PrePrepareVotes, PrimarySlots, Views, Accepted, Watermark,
         CheckpointsTrue, Executions, PQTrue, OwnViewChanges, CommitsReported;
    FloorMonotone(cfg, s.h, n);
  }

  lemma MoveIsPlain(cfg: Config, s: State, why: Reason, n: nat)
    requires cfg.Valid() && Inv(cfg, s) && Warranted(cfg, s, why, n)
    ensures Plain(s, Moved(cfg, s, why, n)) && SamePrepares(s, Moved(cfg, s, why, n))
  {
    hide Inv, Warranted, Next;
    MoveIsStep(cfg, s, why, n);
  }

  /** A move takes away what is at or below the new watermark, with the batches of the certificates that go,
      and own checkpoints below it; all else stays. */
  lemma MoveLeaves(cfg: Config, s: State, why: Reason, n: nat)
    requires cfg.Valid()
    ensures var s', low := Moved(cfg, s, why, n), cfg.Floor(n);
            && s'.h == low
            && (forall slot :: slot in s.certs && low < slot.n ==> slot in s'.certs && s'.certs[slot] == s.certs[slot])
            && (forall slot :: slot in s'.certs ==> slot in s.certs && low < slot.n)
            && (forall e :: e in s.pset && low < e ==> e in s'.pset && s'.pset[e] == s.pset[e])
            && (forall e :: e in s'.pset ==> e in s.pset && low < e)
            && (forall k :: k in s.qset && low < k.n ==> k in s'.qset && s'.qset[k] == s.qset[k])
            && (forall k :: k in s'.qset ==> k in s.qset && low < k.n)
            && (forall k :: k in s'.ckpts <==> k in s.ckpts && low < k.n)
            && (forall m :: m in s.chkpts && low <= m ==> m in s'.chkpts && s'.chkpts[m] == s.chkpts[m])
            && (forall m :: m in s'.chkpts ==> m in s.chkpts && low <= m)
            && (!why.OnReports? ==>
                  forall d :: d in s'.batches <==>
                    d in s.batches && forall slot :: slot in s.certs && slot.n <= low ==> s.certs[slot].digest != d)
            && (why.OnReports? ==> s'.batches == {})
  {
  }

  /** The watermark passes execution only when it is moved beyond it. */
  lemma MoveLags(cfg: Config, s: State, why: Reason, n: nat)
    requires cfg.Valid()
    ensures Moved(cfg, s, why, n).lagging ==> s.lagging || s.SpecExec() < cfg.Floor(n)
  {
  }

  /** Entering a view change empties the log: every certificate is of the view that is left. */
  lemma ChangeViewIsStep(cfg: Config, s: State, vc: ViewChange)
    requires cfg.Valid() && Inv(cfg, s) && CanChangeView(cfg, s, vc)
    ensures Next(cfg, s, DoChangeView(cfg, s, vc)) && Onward(s, DoChangeView(cfg, s, vc))
    ensures DoChangeView(cfg, s, vc) ==
              s.(view := vc.v, active := false, pset := CalcP(cfg, s), qset := CalcQ(s), certs := map[],
                 made := s.made + {ViewChangeMsg(vc)})
    ensures ViewChangeMsg(vc) !in s.made
  {
    hide Window, Certificates, PrepareVotes, CommitVotes, PrePrepareVotes, PrimarySlots, Views, Accepted, Watermark,
         CheckpointsTrue, Executions, PQTrue, OwnViewChanges, CommitsReported, Next, CalcP, CalcQ, DescribesReplica;
    NextChangeView(cfg, s, vc);
    OldViewChanges(cfg, s);
    EmptiesLog(cfg, s, vc.v);
  }

  lemma EmptiesLog(cfg: Config, s: State, v: nat)
    requires cfg.Valid() && Inv(cfg, s) && s.view < v
    ensures (map slot | slot in s.certs && v <= slot.v :: s.certs[slot]) == map[]
  {
    hide Certificates, PrepareVotes, CommitVotes, PrePrepareVotes, PrimarySlots, Views, Accepted, Watermark,
         CheckpointsTrue, Executions, PQTrue, OwnViewChanges, CommitsReported;
  }

  lemma OwnViewChangeIsCorrect(cfg: Config, s: State, vc: ViewChange)
    requires cfg.Valid() && Inv(cfg, s) && ViewChangeMsg(vc) in s.made && !s.lagging
    ensures CorrectViewChange(cfg, vc)
  {
    hide Window, Certificates, PrepareVotes, CommitVotes, PrePrepareVotes, PrimarySlots, Views, Accepted, Watermark,
         CheckpointsTrue, Executions, PQTrue, CommitsReported;
  }

  // ----- Entering a view -----

  /** The certificates after the assignments of some numbers have been filed. */
  ghost function FiledCerts(s: State, nv: NewView, done: set<nat>): map<Slot, Cert> {
    map slot | slot in s.certs.Keys + (set n | n in nv.xset && n in done && s.h < n :: Slot(s.view, n)) ::
      if slot.v == s.view && slot.n in nv.xset && slot.n in done && s.h < slot.n then
        s.CertAt(slot).(digest := nv.xset[slot.n], prePrepare := Some(NewViewPrePrepare(nv, slot.n, s.id)))
      else s.CertAt(slot)
  }

  lemma FiledNone(s: State, nv: NewView)
    ensures FiledCerts(s, nv, {}) == s.certs
  {
  }

  lemma FiledAll(s: State, nv: NewView)
    ensures FiledCerts(s, nv, nv.xset.Keys) == ActivatedCerts(s, nv)
  {
  }

  lemma FiledOne(s: State, nv: NewView, done: set<nat>, n: nat)
    requires n in nv.xset && n !in done
    ensures var slot := Slot(s.view, n);
            FiledCerts(s, nv, done + {n}) ==
              if s.h < n then
                var cert := s.CertAt(slot).(digest := nv.xset[n], prePrepare := Some(NewViewPrePrepare(nv, n, s.id)));
                FiledCerts(s, nv, done)[slot := cert]
              else FiledCerts(s, nv, done)
  {
  }

  lemma FiledOther(s: State, nv: NewView, done: set<nat>, n: nat)
    requires n !in done
    ensures var slot := Slot(s.view, n);
            (if slot in FiledCerts(s, nv, done) then FiledCerts(s, nv, done)[slot] else EmptyCert) == s.CertAt(slot)
  {
  }

  /** All that entering a view asks for, but for the highest assigned number. */
  ghost predicate CanEnter(cfg: Config, s: State, nv: NewView, cp: nat)
    requires cfg.Valid()
  {
    && !s.active
    && Accepts(cfg, s, nv, cp)
    && cp <= s.h
    && forall n :: n in nv.xset && s.h < n && nv.xset[n] != Null ==> nv.xset[n] in s.batches
  }

  ghost predicate IsTop(s: State, nv: NewView, top: nat) {
    s.h <= top && (forall n :: n in nv.xset ==> n <= top) && (top == s.h || top in nv.xset)
  }

  lemma EnterIsStep(cfg: Config, s: State, nv: NewView, cp: nat, top: nat)
    requires cfg.Valid() && Inv(cfg, s) && CanEnter(cfg, s, nv, cp) && IsTop(s, nv, top)
    ensures CanActivate(cfg, s, nv, cp, top)
    ensures Next(cfg, s, DoActivate(s, nv, cp, top)) && Onward(s, DoActivate(s, nv, cp, top))
    ensures nv.v == s.view && 0 < s.view
  {
    hide Inv, Next, Onward;
    NextActivate(cfg, s, nv, cp, top);
    NextGoesOn(cfg, s, DoActivate(s, nv, cp, top));
  }

  // ----- Slots -----

  lemma FiledPrePrepare(cfg: Config, s: State, slot: Slot)
    requires cfg.Valid() && Inv(cfg, s) && slot in s.certs && s.certs[slot].prePrepare.Some?
    ensures s.certs[slot].prePrepare.value.v == s.view && s.certs[slot].prePrepare.value.n == slot.n
  {
    hide Inv;
    CertFacts(cfg, s, slot);
  }

  lemma IssuedFacts(cfg: Config, s: State, b: RequestBatch)
    ensures var p := IssuedPrePrepare(s, b); var s' := DoIssuePrePrepare(s, b);
            && p == PrePrepare(s.view, s.seqNo + 1, Hash(b), b, s.id)
            && PrePrepareMsg(p) in s'.made && s'.view == s.view && Slot(s.view, s.seqNo + 1) in s'.certs
  {
  }

  lemma CountedFields(cfg: Config, s: State, m: Commit)
    ensures CanCountCommit(cfg, s, m) ==> m.v == s.view
    ensures var s' := DoCountCommit(s, m);
            && s'.view == s.view && s'.active == s.active && s'.id == s.id && s'.made == s.made
            && s'.acts == s.acts
  {
  }

  lemma CommitIsMade(cfg: Config, s: State, n: nat)
    ensures CommitMsg(Commit(s.view, n, s.CertAt(Slot(s.view, n)).digest, s.id)) in DoCastCommit(s, n).made
    ensures DoCastCommit(s, n).view == s.view
  {
  }

  lemma ExecStarted(cfg: Config, s: State, n: nat)
    ensures DoStartExec(s, n).exec == Some(n) && DoStartExec(s, n).lastExec == s.lastExec
    ensures DoStartExec(s, n).view == s.view
    ensures DoStartExec(s, n).certs == s.certs
  {
  }

  lemma CheckpointIsAligned(cfg: Config, s: State, nv: NewView, cp: nat)
    requires cfg.Valid() && Inv(cfg, s) && Accepts(cfg, s, nv, cp)
    ensures cfg.Floor(cp) == cp
  {
    hide Inv;
    NewViewFacts(cfg, s, nv);
  }

  lemma MovedFields(cfg: Config, s: State, why: Reason, n: nat)
    requires cfg.Valid()
    ensures var s' := Moved(cfg, s, why, n);
            && s'.view == s.view && s'.active == s.active && s'.got == s.got && s'.h == cfg.Floor(n)
            && s'.exec == s.exec && s'.lastExec == s.lastExec && s'.skip == s.skip
  {
  }

  lemma ActivateFacts(cfg: Config, s: State, nv: NewView, cp: nat, top: nat)
    requires cfg.Valid() && CanActivate(cfg, s, nv, cp, top)
    ensures var s' := DoActivate(s, nv, cp, top);
            && s'.view == s.view == nv.v && s'.active && s'.made == s.made && s'.seqNo == top && s'.id == s.id
            && s'.view in s'.acts && s'.acts[s'.view].nv == nv && s'.certs == ActivatedCerts(s, nv) && 0 < nv.v
    ensures s.h <= top && (forall n :: n in nv.xset ==> n <= top) && (top == s.h || top in nv.xset)
  {
  }

  /** Votes that came before the new view are kept, also where an assignment is filed. */
  lemma EarlyVotesStay(s: State, nv: NewView, slot: Slot)
    requires slot in s.certs
    ensures slot in ActivatedCerts(s, nv)
    ensures ActivatedCerts(s, nv)[slot].prepare == s.certs[slot].prepare
    ensures ActivatedCerts(s, nv)[slot].commit == s.certs[slot].commit
    ensures slot.v == s.view && s.h < slot.n && slot.n in nv.xset ==>
              ActivatedCerts(s, nv)[slot].digest == nv.xset[slot.n]
  {
    hide NewViewPrePrepare;
  }

  lemma StartNeeds(cfg: Config, s: State, n: nat)
    requires s.exec.None? && Slot(s.view, n) in s.certs
    ensures CanStartExec(cfg, s, n) <==>
              && !s.skip && n == s.lastExec + 1 && s.certs[Slot(s.view, n)].prePrepare.Some?
              && Committed(cfg, s, s.certs[Slot(s.view, n)].digest, s.view, n)
  {
    hide Committed;
  }

  lemma StartNeedsSlot(cfg: Config, s: State, n: nat)
    ensures CanStartExec(cfg, s, n) ==> Slot(s.view, n) in s.certs
  {
  }

  lemma NewViewWarrants(cfg: Config, s: State, nv: NewView, cp: nat)
    requires cfg.Valid() && !s.active && Accepts(cfg, s, nv, cp) && s.h < cp
    ensures Warranted(cfg, s, OnNewView(nv), cp)
  {
  }

  lemma AcceptsStays(cfg: Config, s: State, s': State, nv: NewView, cp: nat)
    requires cfg.Valid() && Accepts(cfg, s, nv, cp) && s'.view == s.view && s'.got == s.got
    ensures Accepts(cfg, s', nv, cp)
  {
  }

  /** A jump on reports leaves the whole log behind: h and L are multiples of K. */
  lemma JumpClearsLog(cfg: Config, s: State, n: nat)
    requires cfg.Valid() && Inv(cfg, s) && CanMoveOnReports(cfg, s, n)
    ensures s.h + cfg.L() <= cfg.Floor(n)
  {
    hide Inv;
    WindowFacts(cfg, s);
    AboveLog(cfg, s.h, n);
  }

  lemma EnterWhenComplete(cfg: Config, s: State, nv: NewView, cp: nat)
    requires cfg.Valid() && !s.active && Accepts(cfg, s, nv, cp) && cp <= s.h
    requires forall n :: n in nv.xset && s.h < n && nv.xset[n] != Null ==> nv.xset[n] in s.batches
    ensures CanEnter(cfg, s, nv, cp)
  {
  }

  lemma AcceptedFields(s: State, p: PrePrepare)
    ensures var s' := DoAcceptPrePrepare(s, p); var slot := Slot(p.v, p.n);
            && s'.exec == s.exec && s'.lastExec == s.lastExec && s'.lagging == s.lagging && s'.skip == s.skip
            && s'.view == s.view && s'.active == s.active && s'.id == s.id && s'.h == s.h && s'.batches == s.batches
            && s'.made == s.made
            && slot in s'.certs && s'.certs[slot] == s.CertAt(slot).(prePrepare := Some(p), digest := p.d)
  {
  }

  lemma AcceptedIsPrePrepared(cfg: Config, s: State, p: PrePrepare)
    requires cfg.Valid() && s.view == p.v && s.active && cfg.Primary(s.view) != s.id
    requires Slot(p.v, p.n) in s.certs && s.certs[Slot(p.v, p.n)].prePrepare == Some(p)
    requires s.certs[Slot(p.v, p.n)].digest == p.d
    ensures p.d == Null || p.d in s.batches ==> PrePrepared(s, p.d, p.v, p.n)
    ensures PrePrepared(s, p.d, p.v, p.n) && !s.certs[Slot(p.v, p.n)].sentPrepare ==> CanCastPrepare(cfg, s, p.n)
  {
  }

  lemma CastNeedsNone(cfg: Config, s: State, n: nat)
    requires cfg.Valid() && CanCastPrepare(cfg, s, n)
    ensures !s.CertAt(Slot(s.view, n)).sentPrepare && cfg.Primary(s.view) != s.id && Slot(s.view, n) in s.certs
  {
  }

  lemma PrepareIsMade(s: State, n: nat)
    ensures PrepareMsg(Prepare(s.view, n, s.CertAt(Slot(s.view, n)).digest, s.id)) in DoCastPrepare(s, n).made
  {
  }

  // ----- Reasons to leave a view -----

  lemma InvOfLog(cfg: Config, s: State)
    requires cfg.Valid() && Inv(cfg, s)
    ensures Window(cfg, s) && Certificates(cfg, s) && Accepted(cfg, s)
  {
    hide Window, Certificates, Accepted;
  }

  lemma CommittedIsSeen(cfg: Config, s: State, d: Digest, n: nat)
    requires cfg.Valid() && Inv(cfg, s) && Committed(cfg, s, d, s.view, n)
    ensures s.active && SawCommitted(cfg, s, PQ(n, d, s.view))
  {
    hide Inv, Prepared, Window, Certificates, Accepted;
    InvOfLog(cfg, s);
    PreparedFacts(cfg, s, d, n);
    PreparedIsEvidence(cfg, s, Slot(s.view, n));
    CommittedIsEvidence(cfg, s, Slot(s.view, n));
  }

  lemma SeenStays(cfg: Config, s: State, s': State, e: PQ)
    requires SawCommitted(cfg, s, e) && Onward(s, s')
    ensures SawCommitted(cfg, s', e)
  {
    SubsetCard(Committers(s.Msgs(), e.v, e.n), Committers(s'.Msgs(), e.v, e.n));
  }

  lemma EnteredLimit(cfg: Config, s: State, nv: NewView, cp: nat, top: nat)
    requires cfg.Valid() && nv.v == s.view
    ensures Limit(cfg, DoActivate(s, nv, cp, top)) == cfg.ViewEnd(top)
  {
    hide ActivatedCerts;
  }

  lemma EndIsAbove(cfg: Config, top: nat)
    requires cfg.Valid()
    ensures cfg.ViewEnd(top).Some? ==> top < cfg.ViewEnd(top).value
  {
    if 0 < cfg.viewChangePeriod {
      MulMonotone(1, cfg.viewChangePeriod, cfg.K);
    }
  }

  /** If the number just given out is prepared already, it was before. */
  lemma OwedIsForeseen(cfg: Config, s: State, b: RequestBatch)
    requires cfg.Valid() && CanIssuePrePrepare(cfg, s, b) && Inv(cfg, DoIssuePrePrepare(s, b))
    requires Prepared(cfg, DoIssuePrePrepare(s, b), Hash(b), s.view, s.seqNo + 1)
    ensures Foresaw(cfg, s)
  {
    var s', n := DoIssuePrePrepare(s, b), s.seqNo + 1;
    hide Inv, Prepared, Window, Certificates, Accepted, CertOk;
    InvOfLog(cfg, s');
    PreparedFacts(cfg, s', Hash(b), n);
    PreparedIsEvidence(cfg, s', Slot(s.view, n));
    assert Preparers(cfg, s'.Msgs(), s.view, n, Hash(b)) == Preparers(cfg, s.Msgs(), s.view, n, Hash(b));
    assert PreparedEvidence(cfg, s.Msgs(), s.view, n, Hash(b));
  }
}
