/** The protocol state of one replica, the counting predicates over it, and the atomic steps that
    its handlers are made of. */
module ReplicaSteps {
  import opened PbftTypes
  import opened NewViewRule

  /** A new view that the replica has entered, with the checkpoint it computed for it and the last
      number given out on entry. */
  datatype Act = Act(nv: NewView, cp: nat, top: nat)

  datatype Exec = Exec(n: nat, d: Digest, v: nat)

  /** The first group of fields is state of the source; `batches` and `ckpts` are the key sets of
      `reqBatchStore` and `checkpointStore`. The second group is history: messages received and
      made, pre-prepares accepted, views entered, executions started, whether a watermark move
      dropped a batch that a live certificate still needs, and whether one passed execution. */
  datatype State = State(
    id: nat, view: nat, active: bool, h: nat, seqNo: nat, lastExec: nat, exec: Option<nat>, skip: bool,
    chkpts: map<nat, StateId>, pset: map<nat, PQ>, qset: map<QKey, PQ>,
    batches: set<Digest>, certs: map<Slot, Cert>, ckpts: set<Checkpoint>,
    got: set<Msg>, made: set<Msg>, accepted: set<PQ>, acts: map<nat, Act>, execs: seq<Exec>,
    lost: bool, lagging: bool)
  {
    function Msgs(): set<Msg> {
      got + made
    }

    function CertAt(slot: Slot): Cert {
      if slot in certs then certs[slot] else EmptyCert
    }

    /** The last sequence number executed or being executed. */
    function SpecExec(): nat {
      if exec.Some? then exec.value else lastExec
    }
  }

  function Initial(id: nat): State {
    State(id, 0, true, 0, 0, 0, None, false, map[0 := "XXX GENESIS"], map[], map[], {}, map[], {},
          {}, {}, {}, map[], [], false, false)
  }

  predicate InW(cfg: Config, s: State, n: nat) {
    s.h < n <= s.h + cfg.L()
  }

  predicate InWV(cfg: Config, s: State, v: nat, n: nat) {
    s.view == v && InW(cfg, s, n)
  }

  // ----- Certificates -----

  function CountPrepares(ps: seq<Prepare>, v: nat, n: nat, d: Digest): nat {
    if ps == [] then 0
    else
      var p := ps[|ps| - 1];
      CountPrepares(ps[..|ps| - 1], v, n, d) + if p.v == v && p.n == n && p.d == d then 1 else 0
  }

  /** The digest of a commit is not looked at. */
  function CountCommits(cs: seq<Commit>, v: nat, n: nat): nat {
    if cs == [] then 0
    else
      var c := cs[|cs| - 1];
      CountCommits(cs[..|cs| - 1], v, n) + if c.v == v && c.n == n then 1 else 0
  }

  predicate PrePrepared(s: State, d: Digest, v: nat, n: nat) {
    && (d == Null || d in s.batches)
    && (|| (QKey(d, n) in s.qset && s.qset[QKey(d, n)].v == v)
        || (&& Slot(v, n) in s.certs
            && var p := s.certs[Slot(v, n)].prePrepare;
            && p.Some? && p.value.v == v && p.value.n == n && p.value.d == d))
  }

  predicate Prepared(cfg: Config, s: State, d: Digest, v: nat, n: nat) {
    && PrePrepared(s, d, v, n)
    && (|| (n in s.pset && s.pset[n].v == v && s.pset[n].d == d)
        || (&& Slot(v, n) in s.certs
            && CountPrepares(s.certs[Slot(v, n)].prepare, v, n, d) >= cfg.IntersectionQuorum() - 1))
  }

  predicate Committed(cfg: Config, s: State, d: Digest, v: nat, n: nat) {
    && Prepared(cfg, s, d, v, n)
    && Slot(v, n) in s.certs
    && CountCommits(s.certs[Slot(v, n)].commit, v, n) >= cfg.IntersectionQuorum()
  }

  // ----- P and Q sets -----

  predicate SlotPrepared(cfg: Config, s: State, slot: Slot) {
    && slot in s.certs
    && s.certs[slot].prePrepare.Some?
    && Prepared(cfg, s, s.certs[slot].digest, slot.v, slot.n)
  }

  predicate SlotPrePrepared(s: State, slot: Slot) {
    && slot in s.certs
    && s.certs[slot].prePrepare.Some?
    && PrePrepared(s, s.certs[slot].digest, slot.v, slot.n)
  }

  function CertNumbers(s: State): set<nat> {
    set slot | slot in s.certs :: slot.n
  }

  /** The P set: per sequence number the record of the current view, if it prepared here, else the
      record carried over. */
  function CalcP(cfg: Config, s: State): map<nat, PQ> {
    map n | n in s.pset.Keys + CertNumbers(s) && (n in s.pset || SlotPrepared(cfg, s, Slot(s.view, n))) ::
      if SlotPrepared(cfg, s, Slot(s.view, n)) then PQ(n, s.certs[Slot(s.view, n)].digest, s.view) else s.pset[n]
  }

  predicate KeyPrePrepared(s: State, k: QKey) {
    && SlotPrePrepared(s, Slot(s.view, k.n))
    && s.certs[Slot(s.view, k.n)].digest == k.d
  }

  function CertKeys(s: State): set<QKey> {
    set slot | slot in s.certs :: QKey(s.certs[slot].digest, slot.n)
  }

  /** The Q set, per digest and sequence number. */
  function CalcQ(s: State): map<QKey, PQ> {
    map k | k in s.qset.Keys + CertKeys(s) && (k in s.qset || KeyPrePrepared(s, k)) ::
      if KeyPrePrepared(s, k) then PQ(k.n, k.d, s.view) else s.qset[k]
  }

  ghost predicate ListsCheckpoints(cset: seq<CEntry>, chkpts: map<nat, StateId>) {
    && (forall c :: c in cset <==> c.n in chkpts && chkpts[c.n] == c.id)
    && (forall i, j :: 0 <= i < j < |cset| ==> cset[i].n != cset[j].n)
  }

  ghost predicate ListsP(entries: seq<PQ>, pset: map<nat, PQ>) {
    && (forall e :: e in entries <==> e.n in pset && pset[e.n] == e)
    && (forall i, j :: 0 <= i < j < |entries| ==> entries[i].n != entries[j].n)
  }

  ghost predicate ListsQ(entries: seq<PQ>, qset: map<QKey, PQ>) {
    && (forall e :: e in entries <==> QKey(e.d, e.n) in qset && qset[QKey(e.d, e.n)] == e)
    && (forall i, j :: 0 <= i < j < |entries| ==> !(entries[i].n == entries[j].n && entries[i].d == entries[j].d))
  }

  /** vc is the view-change that the replica sends on its way to view vc.v. */
  ghost predicate DescribesReplica(cfg: Config, s: State, vc: ViewChange) {
    && vc.h == s.h
    && vc.sender == s.id
    && ListsCheckpoints(vc.cset, s.chkpts)
    && ListsP(vc.pset, CalcP(cfg, s))
    && ListsQ(vc.qset, CalcQ(s))
  }

  // ----- Evidence in messages -----

  ghost function Preparers(cfg: Config, ms: set<Msg>, v: nat, n: nat, d: Digest): set<nat>
    requires cfg.Valid()
  {
    set m | m in ms && m.PrepareMsg? && m.prepare.v == v && m.prepare.n == n && m.prepare.d == d
            && m.prepare.sender != cfg.Primary(v) :: m.prepare.sender
  }

  ghost predicate PreparedEvidence(cfg: Config, ms: set<Msg>, v: nat, n: nat, d: Digest)
    requires cfg.Valid()
  {
    |Preparers(cfg, ms, v, n, d)| >= cfg.IntersectionQuorum() - 1
  }

  ghost function Committers(ms: set<Msg>, v: nat, n: nat): set<nat> {
    set m | m in ms && m.CommitMsg? && m.commit.v == v && m.commit.n == n :: m.commit.sender
  }

  /** Replicas that reported a checkpoint at n or above. */
  ghost function Reporters(ms: set<Msg>, n: nat): set<nat> {
    set m | m in ms && m.CheckpointMsg? && n <= m.chkpt.n :: m.chkpt.sender
  }

  ghost function CheckpointVoters(ckpts: set<Checkpoint>, n: nat, id: StateId): set<nat> {
    set k | k in ckpts && k.n == n && k.id == id :: k.sender
  }

  // ----- Steps -----

  datatype Step =
    | Hear(m: Msg)
    | KeepBatch(d: Digest)
    | AcceptPrePrepare(pp: PrePrepare)
    | IssuePrePrepare(batch: RequestBatch)
    | CastPrepare(n: nat)
    | CastNewViewPrepare(n: nat)
    | CountPrepare(prepare: Prepare)
    | CastCommit(n: nat)
    | CountCommit(commit: Commit)
    | StartExec(n: nat)
    | FinishExec
    | ReleaseExec
    | SkipOn
    | TakeCheckpoint(stateId: StateId)
    | StoreCheckpoint(chkpt: Checkpoint)
    | MoveOnQuorum(chkpt: Checkpoint)
    | MoveOnReports(n: nat)
    | MoveOnNewView(nv: NewView, cp: nat)
    | ChangeView(vc: ViewChange)
    | Activate(nv: NewView, cp: nat, top: nat)

  /** Steps that leave the certificates, the watermark and the view alone. */
  predicate Quiet(step: Step) {
    step.Hear? || step.KeepBatch? || step.StartExec? || step.FinishExec? || step.ReleaseExec? || step.SkipOn?
    || step.TakeCheckpoint? || step.StoreCheckpoint?
  }

  predicate Moves(step: Step) {
    step.MoveOnQuorum? || step.MoveOnReports? || step.MoveOnNewView?
  }

  function Sender(m: Msg): Option<nat> {
    match m
    case BatchMsg(_) => None
    case PrePrepareMsg(p) => Some(p.sender)
    case PrepareMsg(p) => Some(p.sender)
    case CommitMsg(c) => Some(c.sender)
    case CheckpointMsg(k) => Some(k.sender)
    case ViewChangeMsg(vc) => Some(vc.sender)
    case NewViewMsg(_) => None
    case FetchMsg(_, i) => Some(i)
  }

  /** Nobody else can send in this replica's name. (No code sends a new-view, so those come from
      outside even when they carry this replica's name.) */
  predicate Authentic(s: State, m: Msg) {
    Sender(m) == Some(s.id) ==> m in s.made
  }

  /** The initial checkpoint of the new-view is a multiple of the checkpoint period. It is, when a
      correct replica vouches for it. */
  ghost predicate Aligned(cfg: Config, nv: NewView)
    requires cfg.Valid()
  {
    forall cp :: Selected(cfg, nv.vset, cp) ==> cfg.IsMultiple(cp)
  }

  ghost predicate CanHear(cfg: Config, s: State, m: Msg)
    requires cfg.Valid()
  {
    && Authentic(s, m)
    && (m.NewViewMsg? ==> Aligned(cfg, m.nv))
  }

  ghost predicate Accepts(cfg: Config, s: State, nv: NewView, cp: nat)
    requires cfg.Valid()
  {
    && NewViewMsg(nv) in s.got
    && nv.v == s.view && 0 < nv.v
    && nv.sender == cfg.Primary(nv.v)
    && Selected(cfg, nv.vset, cp)
    && Assign(cfg, nv.vset, cp) == Some(nv.xset)
  }

  function DroppedDigests(s: State, h: nat): set<Digest> {
    set slot | slot in s.certs && slot.n <= h :: s.certs[slot].digest
  }

  /** Some certificate above h needs a batch that goes with a certificate at or below h. */
  predicate LosesBatch(s: State, h: nat) {
    exists slot :: slot in s.certs && h < slot.n
                   && s.certs[slot].digest != Null && s.certs[slot].digest in DroppedDigests(s, h)
  }

  function Move(s: State, h: nat): State {
    s.(h := h,
       certs := (map slot | slot in s.certs && h < slot.n :: s.certs[slot]),
       batches := s.batches - DroppedDigests(s, h),
       ckpts := (set k | k in s.ckpts && h < k.n),
       pset := (map n | n in s.pset && h < n :: s.pset[n]),
       qset := (map k | k in s.qset && h < k.n :: s.qset[k]),
       chkpts := (map n | n in s.chkpts && h <= n :: s.chkpts[n]),
       lost := s.lost || LosesBatch(s, h),
       lagging := s.lagging || s.SpecExec() < h)
  }

  /** The batch that goes with a digest in a pre-prepare made from a new-view message. */
  function BatchOf(d: Digest): RequestBatch {
    RequestBatch(if d.Of? then d.payload else "")
  }

  function NewViewPrePrepare(nv: NewView, n: nat, sender: nat): PrePrepare
    requires n in nv.xset
  {
    PrePrepare(nv.v, n, nv.xset[n], BatchOf(nv.xset[n]), sender)
  }

  /** The certificates right after entering a view: above the watermark, every assigned number has
      the new view's pre-prepare; votes that came early are kept. */
  function ActivatedCerts(s: State, nv: NewView): map<Slot, Cert> {
    map slot | slot in s.certs.Keys + (set n | n in nv.xset && s.h < n :: Slot(s.view, n)) ::
      if slot.v == s.view && slot.n in nv.xset && s.h < slot.n then
        s.CertAt(slot).(digest := nv.xset[slot.n], prePrepare := Some(NewViewPrePrepare(nv, slot.n, s.id)))
      else s.CertAt(slot)
  }

  // ----- When a step may be taken, and what it does -----

  predicate CanAcceptPrePrepare(cfg: Config, s: State, p: PrePrepare)
    requires cfg.Valid()
  {
    && s.active
    && cfg.Primary(s.view) == p.sender
    && InWV(cfg, s, p.v, p.n)
    && s.CertAt(Slot(p.v, p.n)).digest in {Null, p.d}
    && PrePrepareMsg(p) in s.got
  }

  function DoAcceptPrePrepare(s: State, p: PrePrepare): State {
    s.(certs := s.certs[Slot(p.v, p.n) := s.CertAt(Slot(p.v, p.n)).(prePrepare := Some(p), digest := p.d)],
       accepted := s.accepted + {PQ(p.n, p.d, p.v)})
  }

  /** The primary can give its next number to a batch that no other live certificate carries ... */
  predicate CanNumber(cfg: Config, s: State, b: RequestBatch)
    requires cfg.Valid()
  {
    && s.active
    && cfg.Primary(s.view) == s.id
    && InW(cfg, s, s.seqNo + 1)
    && (forall slot :: slot in s.certs && s.certs[slot].prePrepare.Some? && slot.n != s.seqNo + 1 ==>
          s.certs[slot].prePrepare.value.d != Hash(b))
  }

  /** ... and that it has at hand. */
  predicate CanIssuePrePrepare(cfg: Config, s: State, b: RequestBatch)
    requires cfg.Valid()
  {
    CanNumber(cfg, s, b) && Hash(b) in s.batches
  }

  function IssuedPrePrepare(s: State, b: RequestBatch): PrePrepare {
    PrePrepare(s.view, s.seqNo + 1, Hash(b), b, s.id)
  }

  function DoIssuePrePrepare(s: State, b: RequestBatch): State {
    var p := IssuedPrePrepare(s, b);
    s.(seqNo := p.n,
       certs := s.certs[Slot(p.v, p.n) := s.CertAt(Slot(p.v, p.n)).(prePrepare := Some(p), digest := p.d)],
       accepted := s.accepted + {PQ(p.n, p.d, p.v)},
       made := s.made + {PrePrepareMsg(p)})
  }

  predicate CanCastPrepare(cfg: Config, s: State, n: nat)
    requires cfg.Valid()
  {
    && s.active
    && cfg.Primary(s.view) != s.id
    && SlotPrePrepared(s, Slot(s.view, n))
    && !s.certs[Slot(s.view, n)].sentPrepare
  }

  function DoCastPrepare(s: State, n: nat): State {
    var slot := Slot(s.view, n);
    s.(certs := s.certs[slot := s.CertAt(slot).(sentPrepare := true)],
       made := s.made + {PrepareMsg(Prepare(s.view, n, s.CertAt(slot).digest, s.id))})
  }

  /** After entering a view, a backup prepares every assignment, also those below its watermark. */
  ghost predicate CanCastNewViewPrepare(cfg: Config, s: State, n: nat)
    requires cfg.Valid()
  {
    && s.active
    && cfg.Primary(s.view) != s.id
    && s.view in s.acts
    && n in s.acts[s.view].nv.xset
    && (forall p :: PrepareMsg(p) in s.made ==> !(p.v == s.view && p.n == n))
  }

  function DoCastNewViewPrepare(s: State, n: nat): State
    requires s.view in s.acts && n in s.acts[s.view].nv.xset
  {
    var slot := Slot(s.view, n);
    s.(certs := if s.h < n then s.certs[slot := s.CertAt(slot).(sentPrepare := true)] else s.certs,
       made := s.made + {PrepareMsg(Prepare(s.view, n, s.acts[s.view].nv.xset[n], s.id))})
  }

  predicate CanCountPrepare(cfg: Config, s: State, p: Prepare)
    requires cfg.Valid()
  {
    && PrepareMsg(p) in s.Msgs()
    && cfg.Primary(p.v) != p.sender
    && InWV(cfg, s, p.v, p.n)
    && (forall q :: q in s.CertAt(Slot(p.v, p.n)).prepare ==> q.sender != p.sender)
  }

  function DoCountPrepare(s: State, p: Prepare): State {
    var cert := s.CertAt(Slot(p.v, p.n));
    s.(certs := s.certs[Slot(p.v, p.n) := cert.(prepare := cert.prepare + [p])])
  }

  predicate CanCastCommit(cfg: Config, s: State, n: nat) {
    && SlotPrepared(cfg, s, Slot(s.view, n))
    && !s.certs[Slot(s.view, n)].sentCommit
  }

  function DoCastCommit(s: State, n: nat): State {
    var slot := Slot(s.view, n);
    s.(certs := s.certs[slot := s.CertAt(slot).(sentCommit := true)],
       made := s.made + {CommitMsg(Commit(s.view, n, s.CertAt(slot).digest, s.id))})
  }

  predicate CanCountCommit(cfg: Config, s: State, c: Commit) {
    && CommitMsg(c) in s.Msgs()
    && InWV(cfg, s, c.v, c.n)
    && (forall q :: q in s.CertAt(Slot(c.v, c.n)).commit ==> q.sender != c.sender)
  }

  function DoCountCommit(s: State, c: Commit): State {
    var cert := s.CertAt(Slot(c.v, c.n));
    s.(certs := s.certs[Slot(c.v, c.n) := cert.(commit := cert.commit + [c])])
  }

  predicate CanStartExec(cfg: Config, s: State, n: nat) {
    && s.exec.None?
    && !s.skip
    && n == s.lastExec + 1
    && Slot(s.view, n) in s.certs
    && s.certs[Slot(s.view, n)].prePrepare.Some?
    && Committed(cfg, s, s.certs[Slot(s.view, n)].digest, s.view, n)
  }

  function DoStartExec(s: State, n: nat): State {
    s.(exec := Some(n), execs := s.execs + [Exec(n, s.CertAt(Slot(s.view, n)).digest, s.view)])
  }

  function DoTakeCheckpoint(s: State, stateId: StateId): State {
    s.(chkpts := s.chkpts[s.lastExec := stateId],
       made := s.made + {CheckpointMsg(Checkpoint(s.lastExec, s.id, stateId))})
  }

  ghost predicate CanMoveOnQuorum(cfg: Config, s: State, k: Checkpoint) {
    && InW(cfg, s, k.n)
    && |CheckpointVoters(s.ckpts, k.n, k.id)| >= cfg.IntersectionQuorum()
    && (k.n in s.chkpts || (s.skip && s.h + cfg.L() / 2 <= k.n))
  }

  ghost predicate CanMoveOnReports(cfg: Config, s: State, n: nat) {
    && s.h + cfg.L() < n
    && |Reporters(s.Msgs(), n)| >= cfg.f + 1
  }

  ghost predicate CanMoveOnNewView(cfg: Config, s: State, nv: NewView, cp: nat)
    requires cfg.Valid()
  {
    && !s.active
    && Accepts(cfg, s, nv, cp)
    && s.h < cp
  }

  /** A view may be left at any time, as a timeout would make a replica do. (`ViewChangeCauses` has the
      reasons that the code has.) */
  ghost predicate CanChangeView(cfg: Config, s: State, vc: ViewChange) {
    && s.view < vc.v
    && DescribesReplica(cfg, s, vc)
  }

  function DoChangeView(cfg: Config, s: State, vc: ViewChange): State {
    s.(view := vc.v, active := false,
       pset := CalcP(cfg, s), qset := CalcQ(s),
       certs := (map slot | slot in s.certs && vc.v <= slot.v :: s.certs[slot]),
       made := s.made + {ViewChangeMsg(vc)})
  }

  /** A new view is entered when it is the one waited for, its assignment is the one computed from
      its view-changes, its checkpoint is reached, and all assigned batches are at hand. */
  ghost predicate CanActivate(cfg: Config, s: State, nv: NewView, cp: nat, top: nat)
    requires cfg.Valid()
  {
    && !s.active
    && Accepts(cfg, s, nv, cp)
    && cp <= s.h
    && (forall n :: n in nv.xset && s.h < n && nv.xset[n] != Null ==> nv.xset[n] in s.batches)
    && s.h <= top && (forall n :: n in nv.xset ==> n <= top) && (top == s.h || top in nv.xset)
  }

  function DoActivate(s: State, nv: NewView, cp: nat, top: nat): State {
    s.(active := true, seqNo := top,
       certs := ActivatedCerts(s, nv),
       accepted := s.accepted + (set n | n in nv.xset :: PQ(n, nv.xset[n], nv.v)),
       acts := s.acts[nv.v := Act(nv, cp, top)])
  }

  ghost predicate Enabled(cfg: Config, s: State, step: Step)
    requires cfg.Valid()
  {
    match step
    case Hear(m) => CanHear(cfg, s, m)
    case KeepBatch(d) => d != Null
    case AcceptPrePrepare(p) => CanAcceptPrePrepare(cfg, s, p)
    case IssuePrePrepare(b) => CanIssuePrePrepare(cfg, s, b)
    case CastPrepare(n) => CanCastPrepare(cfg, s, n)
    case CastNewViewPrepare(n) => CanCastNewViewPrepare(cfg, s, n)
    case CountPrepare(p) => CanCountPrepare(cfg, s, p)
    case CastCommit(n) => CanCastCommit(cfg, s, n)
    case CountCommit(c) => CanCountCommit(cfg, s, c)
    case StartExec(n) => CanStartExec(cfg, s, n)
    case FinishExec => s.exec == Some(s.lastExec + 1)
    case ReleaseExec => s.exec == Some(s.lastExec)
    case SkipOn => true
    case TakeCheckpoint(_) => s.exec == Some(s.lastExec) && cfg.IsMultiple(s.lastExec)
    case StoreCheckpoint(k) => CheckpointMsg(k) in s.Msgs() && InW(cfg, s, k.n)
    case MoveOnQuorum(k) => CanMoveOnQuorum(cfg, s, k)
    case MoveOnReports(n) => CanMoveOnReports(cfg, s, n)
    case MoveOnNewView(nv, cp) => CanMoveOnNewView(cfg, s, nv, cp)
    case ChangeView(vc) => CanChangeView(cfg, s, vc)
    case Activate(nv, cp, top) => CanActivate(cfg, s, nv, cp, top)
  }

  ghost function Apply(cfg: Config, s: State, step: Step): State
    requires cfg.Valid()
    requires Enabled(cfg, s, step)
  {
    match step
    case Hear(m) => s.(got := s.got + {m})
    case KeepBatch(d) => s.(batches := s.batches + {d})
    case AcceptPrePrepare(p) => DoAcceptPrePrepare(s, p)
    case IssuePrePrepare(b) => DoIssuePrePrepare(s, b)
    case CastPrepare(n) => DoCastPrepare(s, n)
    case CastNewViewPrepare(n) => DoCastNewViewPrepare(s, n)
    case CountPrepare(p) => DoCountPrepare(s, p)
    case CastCommit(n) => DoCastCommit(s, n)
    case CountCommit(c) => DoCountCommit(s, c)
    case StartExec(n) => DoStartExec(s, n)
    case FinishExec => s.(lastExec := s.lastExec + 1)
    case ReleaseExec => s.(exec := None)
    case SkipOn => s.(skip := true)
    case TakeCheckpoint(id) => DoTakeCheckpoint(s, id)
    case StoreCheckpoint(k) => s.(ckpts := s.ckpts + {k})
    case MoveOnQuorum(k) => Move(s, cfg.Floor(k.n))
    case MoveOnReports(n) => Move(s.(batches := {}), cfg.Floor(n))
    case MoveOnNewView(_, cp) => Move(s, cfg.Floor(cp))
    case ChangeView(vc) => DoChangeView(cfg, s, vc)
    case Activate(nv, cp, top) => DoActivate(s, nv, cp, top)
  }

  ghost predicate Next(cfg: Config, s: State, s': State)
    requires cfg.Valid()
  {
    exists step :: Enabled(cfg, s, step) && s' == Apply(cfg, s, step)
  }
}
