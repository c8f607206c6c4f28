/** What the handlers of a replica do: for every message, how all that the replica remembers afterwards
    follows from what it remembered before. */
module ReplicaEffects {
  import opened PbftTypes
  import opened NewViewRule
  import opened ReplicaSteps
  import opened ReplicaInvariant
  import opened ViewChangeCauses
  import opened ReplicaFacts
  import opened ReplicaLoops

  /** The state and how it came about, what was sent, and the stores beside the state. */
  datatype Memory = Memory(
    now: State, log: seq<State>, outbox: seq<Msg>, outstanding: map<Digest, RequestBatch>, missing: set<Digest>,
    reports: map<nat, nat>, viewChanges: map<VcKey, ViewChange>, newViews: map<nat, NewView>, end: Option<nat>,
    target: Option<nat>, transferring: bool, panicked: bool)
  {
    /** One step later. */
    ghost function Then(s: State): Memory {
      this.(now := s, log := log + [s])
    }

    ghost function Sent(m: Msg): Memory {
      this.(outbox := outbox + [m])
    }
  }

  // ----- Batches -----

  /** The primary may give the next number to b: also half of the log must be left, and no automatic
      view change lies before it. */
  ghost predicate MayIssue(cfg: Config, s: State, b: RequestBatch)
    requires cfg.Valid()
  {
    && CanNumber(cfg, s, b)
    && s.seqNo + 1 <= s.h + cfg.L() / 2
    && (Limit(cfg, s).Some? ==> s.seqNo + 1 <= Limit(cfg, s).value)
  }

  function Kept(s: State, b: RequestBatch): State {
    s.(batches := s.batches + {Hash(b)})
  }

  /** A batch is kept, and numbered if the replica may do that. */
  ghost predicate BatchHandled(cfg: Config, f: Memory, g: Memory, b: RequestBatch)
    requires cfg.Valid()
  {
    Submitted(cfg, f.Then(Kept(f.now, b)).(outstanding := f.outstanding[Hash(b) := b]), g, b)
  }

  ghost predicate Submitted(cfg: Config, f: Memory, g: Memory, b: RequestBatch)
    requires cfg.Valid()
  {
    if MayIssue(cfg, f.now, b) then Issued(cfg, f, g, b) else g == f
  }

  /** The next number is given to b, and the commit follows if the number is prepared already. */
  ghost predicate Issued(cfg: Config, f: Memory, g: Memory, b: RequestBatch)
    requires cfg.Valid()
  {
    var p := PrePrepareMsg(IssuedPrePrepare(f.now, b));
    CommitTried(cfg, f.Then(DoIssuePrePrepare(f.now, b)).Sent(p), g, Hash(b), f.now.seqNo + 1)
  }

  /** Batch b was handed in at place i of the log, and numbered at once if that was possible. */
  ghost predicate HandedIn(cfg: Config, log: seq<State>, outbox: seq<Msg>, b: RequestBatch, i: nat)
    requires cfg.Valid()
  {
    && 0 < i < |log|
    && log[i] == Kept(log[i - 1], b)
    && (MayIssue(cfg, log[i], b) ==>
          && i + 1 < |log| && log[i + 1] == DoIssuePrePrepare(log[i], b)
          && PrePrepareMsg(IssuedPrePrepare(log[i], b)) in outbox)
  }

  lemma IssueIgnoresBatches(cfg: Config, s: State, b: RequestBatch)
    requires cfg.Valid()
    ensures MayIssue(cfg, Kept(s, b), b) <==> MayIssue(cfg, s, b)
    ensures IssuedPrePrepare(Kept(s, b), b) == IssuedPrePrepare(s, b)
  {
  }

  lemma NothingToSubmit(cfg: Config, f: Memory, b: RequestBatch)
    requires cfg.Valid() && !(f.now.active && cfg.Primary(f.now.view) == f.now.id)
    ensures !MayIssue(cfg, f.now, b) && Submitted(cfg, f, f, b)
  {
  }

  lemma HandedInFirst(cfg: Config, before: seq<State>, s: State, log: seq<State>, outbox: seq<Msg>, b: RequestBatch)
    requires cfg.Valid() && before != [] && s == Kept(before[|before| - 1], b) && before + [s] <= log
    requires MayIssue(cfg, s, b) ==>
               && before + [s] + [DoIssuePrePrepare(s, b)] <= log
               && PrePrepareMsg(IssuedPrePrepare(s, b)) in outbox
    ensures HandedIn(cfg, log, outbox, b, |before|)
  {
    hide MayIssue, DoIssuePrePrepare, Kept;
    assert log[|before|] == s && log[|before| - 1] == before[|before| - 1];
    if MayIssue(cfg, s, b) {
      assert log[|before| + 1] == (before + [s] + [DoIssuePrePrepare(s, b)])[|before| + 1];
    }
  }

  ghost predicate HandedSince(cfg: Config, from: nat, g: Memory, b: RequestBatch)
    requires cfg.Valid()
  {
    exists i :: from <= i && HandedIn(cfg, g.log, g.outbox, b, i)
  }

  /** A primary hands in every outstanding batch that no certificate carries. While the view is not
      active that changes nothing but the batches at hand. */
  ghost predicate Resubmitted(cfg: Config, f: Memory, g: Memory)
    requires cfg.Valid()
  {
    if cfg.Primary(f.now.view) != f.now.id then g == f
    else
      && f.log <= g.log && f.outbox <= g.outbox
      && (forall b :: Hash(b) in f.outstanding && !HasCertificate(f.now.certs, Hash(b)) ==>
            HandedSince(cfg, |f.log|, g, b))
      && (!f.now.active ==>
            g == f.(now := f.now.(batches := f.now.batches + Uncertified(f.outstanding, f.now.certs)), log := g.log))
  }

  ghost function Uncertified(outstanding: map<Digest, RequestBatch>, certs: map<Slot, Cert>): set<Digest> {
    set d | d in outstanding && !HasCertificate(certs, d)
  }

  lemma NothingResubmitted(cfg: Config, f: Memory)
    requires cfg.Valid() && cfg.Primary(f.now.view) != f.now.id
    ensures Resubmitted(cfg, f, f)
  {
  }

  lemma HandedEarlier(cfg: Config, from: nat, mid: nat, g: Memory)
    requires cfg.Valid() && from <= mid
    ensures forall b :: HandedSince(cfg, mid, g, b) ==> HandedSince(cfg, from, g, b)
  {
    hide HandedIn;
  }

  lemma HandedInStays(cfg: Config, g: Memory, g': Memory, b: RequestBatch, i: nat)
    requires cfg.Valid() && g.log <= g'.log && g.outbox <= g'.outbox && HandedIn(cfg, g.log, g.outbox, b, i)
    ensures HandedIn(cfg, g'.log, g'.outbox, b, i)
  {
    hide MayIssue, DoIssuePrePrepare, IssuedPrePrepare, Kept;
  }

  /** The first i batches were handed in, and so was the next. */
  lemma HandedStays(cfg: Config, before: seq<State>, g: Memory, g': Memory, bs: seq<RequestBatch>, i: nat)
    requires cfg.Valid() && i < |bs| && before <= g.log <= g'.log && g.outbox <= g'.outbox
    requires forall j :: 0 <= j < i ==> HandedSince(cfg, |before|, g, bs[j])
    requires HandedIn(cfg, g'.log, g'.outbox, bs[i], |g.log|)
    ensures forall j :: 0 <= j <= i ==> HandedSince(cfg, |before|, g', bs[j])
  {
    hide HandedIn;
    forall j | 0 <= j < i ensures HandedSince(cfg, |before|, g', bs[j]) {
      var k :| |before| <= k && HandedIn(cfg, g.log, g.outbox, bs[j], k);
      HandedInStays(cfg, g, g', bs[j], k);
    }
  }

  ghost function Hashes(bs: seq<RequestBatch>): set<Digest> {
    set b | b in bs :: Hash(b)
  }

  /** Nothing happened but that these batches were kept. */
  ghost predicate KeptAlone(f: Memory, g: Memory, bs: seq<RequestBatch>) {
    g == f.(now := f.now.(batches := f.now.batches + Hashes(bs)), log := g.log)
  }

  lemma KeptNone(f: Memory)
    ensures KeptAlone(f, f, [])
  {
    assert f.now.batches + Hashes([]) == f.now.batches;
  }

  lemma KeptNext(cfg: Config, f: Memory, g: Memory, g': Memory, bs: seq<RequestBatch>, i: nat)
    requires cfg.Valid() && i < |bs| && !f.now.active && KeptAlone(f, g, bs[..i]) && BatchHandled(cfg, g, g', bs[i])
    requires Hashed(f.outstanding) && Hash(bs[i]) in f.outstanding
    ensures KeptAlone(f, g', bs[..i + 1])
  {
    hide Submitted;
    var b := bs[i];
    assert f.outstanding[Hash(b)] == b && f.outstanding[Hash(b) := b] == f.outstanding;
    NothingToSubmit(cfg, g.Then(Kept(g.now, b)), b);
    assert bs[..i + 1] == bs[..i] + [b];
    assert f.now.batches + Hashes(bs[..i + 1]) == f.now.batches + Hashes(bs[..i]) + {Hash(b)};
    NotSubmitted(cfg, g.Then(Kept(g.now, b)), g', b);
  }

  lemma NotSubmitted(cfg: Config, f: Memory, g: Memory, b: RequestBatch)
    requires cfg.Valid() && !MayIssue(cfg, f.now, b) && Submitted(cfg, f, g, b)
    ensures g == f
  {
  }

  lemma KeptFields(f: Memory, g: Memory, bs: seq<RequestBatch>)
    requires KeptAlone(f, g, bs)
    ensures g.now == f.now.(batches := g.now.batches) && f.now.batches <= g.now.batches
    ensures g.newViews == f.newViews && g.missing == f.missing && g.outbox == f.outbox
    ensures g.outstanding == f.outstanding
  {
  }

  lemma ResubmittedAll(cfg: Config, f: Memory, g: Memory, order: seq<RequestBatch>)
    requires cfg.Valid() && cfg.Primary(f.now.view) == f.now.id && f.log <= g.log && f.outbox <= g.outbox
    requires Hashed(f.outstanding)
    requires forall b :: b in order <==> Hash(b) in f.outstanding && !HasCertificate(f.now.certs, Hash(b))
    requires forall j :: 0 <= j < |order| ==> HandedSince(cfg, |f.log|, g, order[j])
    requires !f.now.active ==> KeptAlone(f, g, order)
    ensures Resubmitted(cfg, f, g)
    ensures forall b :: Hash(b) in f.outstanding && !HasCertificate(f.now.certs, Hash(b)) ==>
              HandedSince(cfg, |f.log|, g, b)
  {
    hide HandedSince, HasCertificate;
    forall b | Hash(b) in f.outstanding && !HasCertificate(f.now.certs, Hash(b))
      ensures HandedSince(cfg, |f.log|, g, b)
    {
      assert b in order;
    }
    forall d | d in Uncertified(f.outstanding, f.now.certs) ensures d in Hashes(order) {
      assert Hash(f.outstanding[d]) == d && f.outstanding[d] in order;
    }
    assert Hashes(order) == Uncertified(f.outstanding, f.now.certs);
  }

  // ----- Pre-prepares, prepares and commits -----

  /** The certificate at n in the present view is prepared for d, and its commit is not sent. */
  ghost predicate CommitOwed(cfg: Config, s: State, d: Digest, n: nat) {
    && Slot(s.view, n) in s.certs
    && Prepared(cfg, s, d, s.view, n)
    && !s.certs[Slot(s.view, n)].sentCommit
  }

  lemma CountedOwes(cfg: Config, s: State, p: Prepare)
    requires cfg.Valid()
    ensures CanCountPrepare(cfg, s, p) ==>
              var s' := DoCountPrepare(s, p);
              CommitOwed(cfg, s', p.d, p.n) <==>
                Prepared(cfg, s', p.d, p.v, p.n) && !s'.CertAt(Slot(p.v, p.n)).sentCommit
  {
    hide Prepared;
  }

  ghost predicate CommitTried(cfg: Config, f: Memory, g: Memory, d: Digest, n: nat)
    requires cfg.Valid()
  {
    if CommitOwed(cfg, f.now, d, n) then CommitSent(cfg, f, g, d, n) else g == f
  }

  /** The commit is made, counted here, and broadcast. */
  ghost predicate CommitSent(cfg: Config, f: Memory, g: Memory, d: Digest, n: nat)
    requires cfg.Valid()
  {
    var c := Commit(f.now.view, n, d, f.now.id);
    exists e :: CommitHandled(cfg, f.Then(DoCastCommit(f.now, n)), e, c) && g == e.Sent(CommitMsg(c))
  }

  /** A pre-prepare that is looked at: from the primary of the active view, in the window. */
  ghost predicate Considers(cfg: Config, s: State, p: PrePrepare)
    requires cfg.Valid()
  {
    s.active && cfg.Primary(s.view) == p.sender && InWV(cfg, s, p.v, p.n)
  }

  /** ... and makes the replica leave the view. */
  ghost predicate Rejects(cfg: Config, s: State, p: PrePrepare)
    requires cfg.Valid()
  {
    || (Limit(cfg, s).Some? && Limit(cfg, s).value < p.n)
    || s.CertAt(Slot(p.v, p.n)).digest !in {Null, p.d}
  }

  ghost predicate PrePrepareHandled(cfg: Config, f: Memory, g: Memory, p: PrePrepare)
    requires cfg.Valid()
  {
    if !Considers(cfg, f.now, p) then g == f
    else if Rejects(cfg, f.now, p) then ViewLeft(cfg, f, g)
    else PrePrepareFiled(cfg, f.Then(DoAcceptPrePrepare(f.now, p)), g, p)
  }

  lemma PrePrepareIgnored(cfg: Config, f: Memory, p: PrePrepare)
    requires cfg.Valid()
    ensures !Considers(cfg, f.now, p) ==> PrePrepareHandled(cfg, f, f, p)
  {
    hide Considers;
  }

  lemma PrePrepareRejected(cfg: Config, f: Memory, g: Memory, p: PrePrepare)
    requires cfg.Valid() && Considers(cfg, f.now, p) && Rejects(cfg, f.now, p) && ViewLeft(cfg, f, g)
    ensures PrePrepareHandled(cfg, f, g, p)
  {
    hide Considers, Rejects, ViewLeft;
  }

  lemma PrePrepareTaken(cfg: Config, f: Memory, g: Memory, p: PrePrepare)
    requires cfg.Valid() && Considers(cfg, f.now, p) && !Rejects(cfg, f.now, p)
    requires PrePrepareFiled(cfg, f.Then(DoAcceptPrePrepare(f.now, p)), g, p)
    ensures PrePrepareHandled(cfg, f, g, p)
  {
    hide Considers, Rejects, PrePrepareFiled;
  }

  /** The batch is kept if it is not at hand. One that is not the batch named stops here, and so does the
      pre-prepare that was prepared before; any other is prepared by a backup. */
  ghost predicate PrePrepareFiled(cfg: Config, f: Memory, g: Memory, p: PrePrepare)
    requires cfg.Valid()
  {
    if p.d == Null || p.d in f.now.batches then PrepareTried(cfg, f, g, p)
    else if Hash(p.batch) != p.d then g == f
    else PrepareTried(cfg, f.Then(Kept(f.now, p.batch)).(outstanding := f.outstanding[p.d := p.batch]), g, p)
  }

  ghost predicate PrepareTried(cfg: Config, f: Memory, g: Memory, p: PrePrepare)
    requires cfg.Valid()
  {
    if cfg.Primary(f.now.view) != f.now.id && !f.now.CertAt(Slot(p.v, p.n)).sentPrepare then
      PrepareSent(cfg, f, g, Prepare(p.v, p.n, p.d, f.now.id))
    else g == f
  }

  /** The prepare is made, counted here, and broadcast. */
  ghost predicate PrepareSent(cfg: Config, f: Memory, g: Memory, p: Prepare)
    requires cfg.Valid()
  {
    exists e :: PrepareHandled(cfg, f.Then(DoCastPrepare(f.now, p.n)), e, p) && g == e.Sent(PrepareMsg(p))
  }

  /** A prepare that counts is filed, and the commit follows if it completes a quorum. */
  ghost predicate PrepareHandled(cfg: Config, f: Memory, g: Memory, p: Prepare)
    requires cfg.Valid()
  {
    if CanCountPrepare(cfg, f.now, p) then CommitTried(cfg, f.Then(DoCountPrepare(f.now, p)), g, p.d, p.n) else g == f
  }

  /** A commit that counts is filed; it may complete a quorum. */
  ghost predicate CommitHandled(cfg: Config, f: Memory, g: Memory, m: Commit)
    requires cfg.Valid()
  {
    if !CanCountCommit(cfg, f.now, m) then g == f
    else
      var s := DoCountCommit(f.now, m);
      if Committed(cfg, s, m.d, m.v, m.n) then CommitActed(cfg, f.Then(s), g, m) else g == f.Then(s)
  }

  lemma CommitIgnored(cfg: Config, f: Memory, m: Commit)
    requires cfg.Valid()
    ensures !CanCountCommit(cfg, f.now, m) ==> CommitHandled(cfg, f, f, m)
  {
  }

  lemma CommitCounted(cfg: Config, f: Memory, g: Memory, m: Commit)
    requires cfg.Valid() && CanCountCommit(cfg, f.now, m)
    requires var s := DoCountCommit(f.now, m);
             if Committed(cfg, s, m.d, m.v, m.n) then CommitActed(cfg, f.Then(s), g, m) else g == f.Then(s)
    ensures CommitHandled(cfg, f, g, m)
  {
  }

  lemma ActedOn(cfg: Config, f: Memory, e: Memory, g: Memory, m: Commit)
    requires cfg.Valid() && Executed(cfg, f.(outstanding := f.outstanding - {m.d}), e)
    requires if e.end == Some(m.n) then ViewLeft(cfg, e, g) else g == e
    ensures CommitActed(cfg, f, g, m)
  {
    hide Executed, ViewLeft;
  }

  /** The request is no longer outstanding, what can be executed is executed, and the view is left at the
      appointed number. */
  ghost predicate CommitActed(cfg: Config, f: Memory, g: Memory, m: Commit)
    requires cfg.Valid()
  {
    exists e :: Executed(cfg, f.(outstanding := f.outstanding - {m.d}), e)
                && if e.end == Some(m.n) then ViewLeft(cfg, e, g) else g == e
  }

  // ----- Execution -----

  /** The next number is executed if that is possible. */
  ghost predicate Executed(cfg: Config, f: Memory, g: Memory)
    requires cfg.Valid()
  {
    var n := f.now.lastExec + 1;
    if !CanStartExec(cfg, f.now, n) then g == f
    else
      var s := DoStartExec(f.now, n);
      if s.CertAt(Slot(s.view, n)).digest != Null then g == f.Then(s) else ExecutionEnded(cfg, f.Then(s), g)
  }

  /** The execution in flight becomes the last one, a checkpoint is taken if one is due, the replica is
      free again, and the next number is tried. */
  ghost predicate ExecutionEnded(cfg: Config, f: Memory, g: Memory)
    requires cfg.Valid()
  {
    var s := f.now.(lastExec := f.now.lastExec + 1);
    exists e :: CheckpointTaken(cfg, f.Then(s), e) && NextTried(cfg, e.Then(e.now.(exec := None)), g)
  }

  /** The next execution is the next step, if it can be started. */
  ghost predicate NextTried(cfg: Config, f: Memory, g: Memory)
    requires cfg.Valid()
  {
    var n := f.now.lastExec + 1;
    if CanStartExec(cfg, f.now, n) then f.log + [DoStartExec(f.now, n)] <= g.log && f.outbox <= g.outbox else g == f
  }

  lemma NothingStarted(cfg: Config, f: Memory)
    requires cfg.Valid()
    ensures (forall n :: !CanStartExec(cfg, f.now, n)) || f.now.exec.Some? ==>
              Executed(cfg, f, f) && NextTried(cfg, f, f)
  {
  }

  lemma OneStarted(cfg: Config, f: Memory, g: Memory)
    requires cfg.Valid() && CanStartExec(cfg, f.now, f.now.lastExec + 1)
    requires f.log + [DoStartExec(f.now, f.now.lastExec + 1)] <= g.log && f.outbox <= g.outbox
    requires var s := DoStartExec(f.now, f.now.lastExec + 1);
             if f.now.CertAt(Slot(f.now.view, f.now.lastExec + 1)).digest != Null then g == f.Then(s)
             else ExecutionEnded(cfg, f.Then(s), g)
    ensures Executed(cfg, f, g) && NextTried(cfg, f, g)
  {
  }

  ghost predicate CheckpointTaken(cfg: Config, f: Memory, g: Memory)
    requires cfg.Valid()
  {
    if cfg.IsMultiple(f.now.lastExec) then exists id :: CheckpointSent(cfg, f, g, id) else g == f
  }

  /** The checkpoint is recorded, counted here, and broadcast. */
  ghost predicate CheckpointSent(cfg: Config, f: Memory, g: Memory, id: StateId)
    requires cfg.Valid()
  {
    var k := Checkpoint(f.now.lastExec, f.now.id, id);
    exists e :: CheckpointHandled(cfg, f.Then(DoTakeCheckpoint(f.now, id)), e, k) && g == e.Sent(CheckpointMsg(k))
  }

  // ----- Checkpoints -----

  /** The last report of each replica that was beyond the high watermark. */
  ghost function Tracked(cfg: Config, f: Memory, k: Checkpoint): map<nat, nat> {
    var high, reports := f.now.h + cfg.L(), f.reports[k.sender := k.n];
    if k.n < high then f.reports - {k.sender}
    else if |reports| >= cfg.f + 1 then ReportsNotBelow(reports, high)
    else reports
  }

  lemma TrackedIs(cfg: Config, f: Memory, k: Checkpoint)
    ensures k.n < f.now.h + cfg.L() ==> Tracked(cfg, f, k) == f.reports - {k.sender}
    ensures f.now.h + cfg.L() <= k.n ==>
              var reports := f.reports[k.sender := k.n];
              Tracked(cfg, f, k) ==
                if |reports| >= cfg.f + 1 then ReportsNotBelow(reports, f.now.h + cfg.L()) else reports
  {
  }

  /** With this one, f + 1 tracked reports are beyond the high watermark. */
  ghost predicate FarBehind(cfg: Config, f: Memory, k: Checkpoint) {
    var high := f.now.h + cfg.L();
    high <= k.n && |ReportsFrom(f.reports[k.sender := k.n], high + 1)| >= cfg.f + 1
  }

  /** m is the (f + 1)-th largest of the reports. */
  ghost predicate Ranked(cfg: Config, reports: map<nat, nat>, m: nat) {
    |ReportsFrom(reports, m)| >= cfg.f + 1 && |ReportsFrom(reports, m + 1)| <= cfg.f
  }

  /** A report is tracked. f + 1 of them make the replica jump; one in the window is counted. */
  ghost predicate CheckpointHandled(cfg: Config, f: Memory, g: Memory, k: Checkpoint)
    requires cfg.Valid()
  {
    var t := f.(reports := Tracked(cfg, f, k));
    if FarBehind(cfg, f, k) then
      exists m :: Ranked(cfg, f.reports[k.sender := k.n], m) && f.now.h + cfg.L() < m && Jumped(cfg, t, g, m)
    else if InW(cfg, f.now, k.n) then CheckpointFiled(cfg, t.Then(f.now.(ckpts := f.now.ckpts + {k})), g, k)
    else g == t
  }

  /** The log is left behind, and so are the outstanding batches; the replica begins to catch up. */
  ghost predicate Jumped(cfg: Config, f: Memory, g: Memory, m: nat)
    requires cfg.Valid()
  {
    exists e :: MarksMoved(cfg, f, e, OnReports, m)
                && g == e.Then(e.now.(skip := true)).(outstanding := map[])
  }

  ghost predicate MarksMoved(cfg: Config, f: Memory, g: Memory, why: Reason, n: nat)
    requires cfg.Valid()
  {
    Resubmitted(cfg, f.Then(Moved(cfg, f.now, why, n)), g)
  }

  /** The replica reached the checkpoint, or is catching up and more than half a log behind it. */
  ghost predicate Follows(cfg: Config, s: State, n: nat) {
    n in s.chkpts || (s.skip && s.h + cfg.L() / 2 <= n)
  }

  /** There is a quorum for a checkpoint that the replica follows. */
  ghost predicate IsStable(cfg: Config, s: State, k: Checkpoint) {
    Follows(cfg, s, k.n) && |CheckpointVoters(s.ckpts, k.n, k.id)| >= cfg.IntersectionQuorum()
  }

  /** The quorum moves the watermark. A replica that reached the checkpoint then looks at the new-view
      for its view, which may have waited for that. */
  ghost predicate CheckpointFiled(cfg: Config, f: Memory, g: Memory, k: Checkpoint)
    requires cfg.Valid()
  {
    var w := Weighed(cfg, f, k);
    if IsStable(cfg, f.now, k) then Stabilised(cfg, w, g, k) else g == w
  }

  ghost predicate Stabilised(cfg: Config, f: Memory, g: Memory, k: Checkpoint)
    requires cfg.Valid()
  {
    exists e :: MarksMoved(cfg, f, e, OnQuorum(k), k.n)
                && if k.n in f.now.chkpts then NewViewProcessed(cfg, e, g) else g == e
  }

  lemma BeyondReach(cfg: Config, s: State, m: nat)
    ensures CanMoveOnReports(cfg, s, m) ==> s.h + cfg.L() < m
  {
  }

  /** f + 2 different values, or a weak certificate that differs from the own checkpoint, stop the
      replica; the first weak certificate names a target. */
  ghost function Weighed(cfg: Config, f: Memory, k: Checkpoint): Memory {
    var weak := |CheckpointVoters(f.now.ckpts, k.n, k.id)| == cfg.f + 1;
    var differs := weak && k.n in f.now.chkpts && f.now.chkpts[k.n] != k.id;
    f.(panicked := f.panicked || |ValuesAt(f.now.ckpts, k)| > cfg.f + 1 || differs,
       target := if weak then Raised(f.target, k.n) else f.target,
       transferring := f.transferring || (weak && f.now.skip && f.now.exec.None?))
  }

  lemma WeighedIs(cfg: Config, f: Memory, k: Checkpoint, panicked: bool, target: Option<nat>, transferring: bool)
    requires var s, matching := f.now, |CheckpointVoters(f.now.ckpts, k.n, k.id)|;
             && (panicked <==>
                   || f.panicked || |ValuesAt(s.ckpts, k)| > cfg.f + 1
                   || (matching == cfg.f + 1 && k.n in s.chkpts && s.chkpts[k.n] != k.id))
             && target == (if matching == cfg.f + 1 then Raised(f.target, k.n) else f.target)
             && transferring == (f.transferring || (matching == cfg.f + 1 && s.skip && s.exec.None?))
    ensures Weighed(cfg, f, k) == f.(panicked := panicked, target := target, transferring := transferring)
  {
  }

  function Raised(target: Option<nat>, n: nat): Option<nat> {
    if target.Some? && n <= target.value then target else Some(n)
  }

  /** The target is raised as far as n, and never lowered. */
  lemma TargetReaches(target: Option<nat>, n: nat)
    ensures Raised(target, n).Some? && n <= Raised(target, n).value
    ensures target.Some? ==> target.value <= Raised(target, n).value
    ensures Raised(target, n) in {target, Some(n)}
  {
  }

  // ----- View changes -----

  /** The replica leaves its view for the next one; its message is broadcast, then filed with those of
      the others. */
  ghost predicate ViewLeft(cfg: Config, f: Memory, g: Memory)
    requires cfg.Valid()
  {
    exists vc: ViewChange :: vc.v == f.now.view + 1 && CanChangeView(cfg, f.now, vc) && ViewLeftWith(cfg, f, g, vc)
  }

  ghost predicate ViewLeftWith(cfg: Config, f: Memory, g: Memory, vc: ViewChange)
    requires cfg.Valid() && 0 < vc.v
  {
    ViewChangeHandled(cfg, f.Then(DoChangeView(cfg, f.now, vc)).Sent(ViewChangeMsg(vc)).(
        viewChanges := StoredFrom(f.viewChanges, vc.v), newViews := f.newViews - {vc.v - 1}), g, vc)
  }

  /** vc passes the tests and is new. */
  ghost predicate Files(cfg: Config, f: Memory, vc: ViewChange) {
    f.now.view <= vc.v && CorrectViewChange(cfg, vc) && VcKey(vc.v, vc.sender) !in f.viewChanges
  }

  /** A view-change is filed. f + 1 replicas ahead of this one make it join the least of their views. */
  ghost predicate ViewChangeHandled(cfg: Config, f: Memory, g: Memory, vc: ViewChange)
    requires cfg.Valid()
  {
    var store := f.viewChanges[VcKey(vc.v, vc.sender) := vc];
    if !Files(cfg, f, vc) then g == f
    else if |Ahead(store, f.now.view)| < cfg.f + 1 then g == f.(viewChanges := store)
    else Joined(cfg, f, g, store)
  }

  /** The view-change for the least view ahead is made from the present state, and broadcast. */
  ghost predicate Joined(cfg: Config, f: Memory, g: Memory, store: map<VcKey, ViewChange>)
    requires cfg.Valid()
  {
    && f.now.view < g.now.view && !g.now.active && g.now.certs == map[]
    && exists vc: ViewChange ::
         && LeastAbove(store, f.now.view, vc.v) && CanChangeView(cfg, f.now, vc)
         && f.log + [DoChangeView(cfg, f.now, vc)] <= g.log && ViewChangeMsg(vc) in g.outbox
  }

  lemma JoinedTo(cfg: Config, f: Memory, g: Memory, store: map<VcKey, ViewChange>, v: nat)
    requires cfg.Valid() && f.now.view < g.now.view && !g.now.active && g.now.certs == map[]
    requires LeastAbove(store, f.now.view, v)
    requires exists vc: ViewChange ::
               vc.v == v && ViewChangeMsg(vc) in g.outbox && CanChangeView(cfg, f.now, vc)
               && f.log + [DoChangeView(cfg, f.now, vc)] <= g.log
    ensures Joined(cfg, f, g, store)
  {
    hide LeastAbove, CanChangeView, DoChangeView;
  }

  lemma JoinedAlike(cfg: Config, f: Memory, store: map<VcKey, ViewChange>, g: Memory, store': map<VcKey, ViewChange>)
    requires cfg.Valid()
    ensures Joined(cfg, f.(viewChanges := store), g, store') ==> Joined(cfg, f, g, store')
  {
    hide LeastAbove, CanChangeView, DoChangeView;
  }

  lemma JoinedSays(cfg: Config, f: Memory, g: Memory, store: map<VcKey, ViewChange>)
    requires cfg.Valid()
    ensures Joined(cfg, f, g, store) ==>
              exists vc: ViewChange ::
                && LeastAbove(store, f.now.view, vc.v)
                && ViewChangeMsg(vc) in g.outbox && CanChangeView(cfg, f.now, vc)
                && f.log + [DoChangeView(cfg, f.now, vc)] <= g.log
  {
    hide LeastAbove, CanChangeView, DoChangeView;
  }

  // ----- New views -----

  /** The replica will reach the checkpoint by executing what is committed in its log. */
  ghost predicate Waits(cfg: Config, s: State, cp: nat) {
    s.SpecExec() < cp && forall n :: s.SpecExec() < n <= cp ==> CommittedHere(cfg, s.certs, n)
  }

  /** What the replica can still execute is what a quorum committed to, in certificates of its view. */
  lemma WaitsIff(cfg: Config, s: State, cp: nat)
    requires cfg.Valid() && Inv(cfg, s)
    ensures Waits(cfg, s, cp) <==>
              s.SpecExec() < cp && forall n :: s.SpecExec() < n <= cp ==>
                && Slot(s.view, n) in s.certs
                && |set c | c in s.certs[Slot(s.view, n)].commit :: c.sender| >= cfg.IntersectionQuorum()
  {
    hide Inv;
    forall n ensures CommittedHere(cfg, s.certs, n) <==>
        && Slot(s.view, n) in s.certs
        && |set c | c in s.certs[Slot(s.view, n)].commit :: c.sender| >= cfg.IntersectionQuorum()
    {
      CommittedHereIff(cfg, s, n);
    }
  }

  lemma CommittedHereIff(cfg: Config, s: State, n: nat)
    requires cfg.Valid() && Inv(cfg, s)
    ensures CommittedHere(cfg, s.certs, n) <==>
              && Slot(s.view, n) in s.certs
              && |set c | c in s.certs[Slot(s.view, n)].commit :: c.sender| >= cfg.IntersectionQuorum()
  {
    hide Inv, CertOk;
    forall slot | slot in s.certs && slot.n == n
      ensures slot == Slot(s.view, n)
      ensures CountCommits(s.certs[slot].commit, slot.v, n) == |set c | c in s.certs[slot].commit :: c.sender|
    {
      CertFacts(cfg, s, slot);
      CommitsDistinct(cfg, s, slot);
    }
  }

  /** The new-view does not verify: it has no initial checkpoint, or another assignment. */
  ghost predicate Refuses(cfg: Config, s: State, nv: NewView)
    requires cfg.Valid()
  {
    || (forall cp :: !Selected(cfg, nv.vset, cp))
    || (exists cp :: Selected(cfg, nv.vset, cp) && !Waits(cfg, s, cp) && Assign(cfg, nv.vset, cp) != Some(nv.xset))
  }

  ghost predicate Delays(cfg: Config, s: State, nv: NewView) {
    exists cp :: Selected(cfg, nv.vset, cp) && Waits(cfg, s, cp)
  }

  ghost predicate Approves(cfg: Config, s: State, nv: NewView)
    requires cfg.Valid()
  {
    exists cp :: Selected(cfg, nv.vset, cp) && !Waits(cfg, s, cp) && Assign(cfg, nv.vset, cp) == Some(nv.xset)
  }

  ghost predicate Stores(cfg: Config, f: Memory, nv: NewView)
    requires cfg.Valid()
  {
    0 < nv.v && f.now.view <= nv.v && cfg.Primary(nv.v) == nv.sender && nv.v !in f.newViews
  }

  ghost predicate NewViewHandled(cfg: Config, f: Memory, g: Memory, nv: NewView)
    requires cfg.Valid()
  {
    if Stores(cfg, f, nv) then NewViewProcessed(cfg, f.(newViews := f.newViews[nv.v := nv]), g) else g == f
  }

  /** The stored new-view for the view waited for: one that does not verify is answered by a view change,
      one that comes too early stays, and one that verifies is accepted. */
  ghost predicate NewViewProcessed(cfg: Config, f: Memory, g: Memory)
    requires cfg.Valid()
  {
    if f.now.active || f.now.view !in f.newViews then g == f
    else
      var nv := f.newViews[f.now.view];
      && (Refuses(cfg, f.now, nv) ==> ViewLeft(cfg, f, g))
      && (Delays(cfg, f.now, nv) ==> g == f)
      && (Approves(cfg, f.now, nv) ==> NewViewAccepted(cfg, f, g, nv))
  }

  /** The checkpoint is reached, and the view is entered unless an assigned batch is missing. */
  ghost predicate NewViewAccepted(cfg: Config, f: Memory, g: Memory, nv: NewView)
    requires cfg.Valid()
  {
    exists cp, e :: Selected(cfg, nv.vset, cp) && CheckpointReached(cfg, f, e, nv, cp)
                    && EnteredIfComplete(cfg, e, g, nv, cp)
  }

  ghost predicate CheckpointReached(cfg: Config, f: Memory, g: Memory, nv: NewView, cp: nat)
    requires cfg.Valid()
  {
    exists e :: MarkReached(cfg, f, e, nv, cp) && g == if f.now.SpecExec() < cp then Transferring(e, cp) else e
  }

  ghost predicate MarkReached(cfg: Config, f: Memory, g: Memory, nv: NewView, cp: nat)
    requires cfg.Valid()
  {
    if f.now.h < cp then MarksMoved(cfg, f, g, OnNewView(nv), cp) else g == f
  }

  /** State is to be transferred: the target is named, and the transfer asked for unless an execution is
      in flight. */
  ghost function Transferring(f: Memory, n: nat): Memory {
    (if f.now.skip then f else f.Then(f.now.(skip := true))).(
      target := Raised(f.target, n), transferring := f.transferring || f.now.exec.None?)
  }

  /** The assigned batches that are not at hand. */
  ghost function MissingAt(s: State, nv: NewView): set<Digest> {
    set n | n in nv.xset && s.h < n && nv.xset[n] != Null && nv.xset[n] !in s.batches :: nv.xset[n]
  }

  ghost predicate EnteredIfComplete(cfg: Config, f: Memory, g: Memory, nv: NewView, cp: nat)
    requires cfg.Valid()
  {
    var w := f.(missing := f.missing + MissingAt(f.now, nv));
    if w.missing == {} then exists top :: CanActivate(cfg, f.now, nv, cp, top) && ViewEntered(cfg, f, g, nv, cp, top)
    else if w.missing == f.missing then g == w
    else Fetched(w, g)
  }

  /** Every batch missed was asked for. */
  ghost predicate Fetched(f: Memory, g: Memory) {
    && g == f.(outbox := g.outbox) && f.outbox <= g.outbox
    && (forall d :: d in f.missing ==> FetchMsg(d, f.now.id) in g.outbox)
    && (forall i :: |f.outbox| <= i < |g.outbox| ==> g.outbox[i].FetchMsg? && g.outbox[i].d in f.missing)
  }

  /** The view is entered: a backup prepares every assignment, the primary resubmits. */
  ghost predicate ViewEntered(cfg: Config, f: Memory, g: Memory, nv: NewView, cp: nat, top: nat)
    requires cfg.Valid() && 0 < nv.v
  {
    var e := f.Then(DoActivate(f.now, nv, cp, top)).(newViews := f.newViews - {nv.v - 1},
                                                     end := cfg.ViewEnd(top));
    if cfg.Primary(f.now.view) == f.now.id then Resubmitted(cfg, e, g)
    else e.log <= g.log && forall n :: n in nv.xset ==> AssignmentPrepared(cfg, |e.log|, g, nv, n)
  }

  /** The view of nv was entered since f. A new primary handed in every batch outstanding then that no
      certificate carried; a backup prepared every assignment. */
  ghost predicate EnteredWith(cfg: Config, f: Memory, g: Memory, nv: NewView)
    requires cfg.Valid()
  {
    exists i :: |f.log| <= i < |g.log| && EntersAt(cfg, f.outstanding, g, nv, i)
  }

  ghost predicate EntersAt(cfg: Config, outstanding: map<Digest, RequestBatch>, g: Memory, nv: NewView, i: nat)
    requires cfg.Valid() && i < |g.log|
  {
    var s := g.log[i];
    && s.active && s.view == nv.v && nv.v in s.acts && s.acts[nv.v].nv == nv
    && if cfg.Primary(nv.v) == s.id then
         forall b :: Hash(b) in outstanding && !HasCertificate(s.certs, Hash(b)) ==> HandedSince(cfg, i + 1, g, b)
       else
         forall n :: n in nv.xset ==> PrepareMsg(Prepare(nv.v, n, nv.xset[n], s.id)) in g.outbox
  }

  lemma EnteredFirst(cfg: Config, f: Memory, s: State, g: Memory, nv: NewView)
    requires cfg.Valid() && f.log + [s] <= g.log
    requires s.active && s.view == nv.v && nv.v in s.acts && s.acts[nv.v].nv == nv
    requires if cfg.Primary(nv.v) == s.id then
               forall b :: Hash(b) in f.outstanding && !HasCertificate(s.certs, Hash(b)) ==>
                 HandedSince(cfg, |f.log| + 1, g, b)
             else
               forall n :: n in nv.xset ==> PrepareMsg(Prepare(nv.v, n, nv.xset[n], s.id)) in g.outbox
    ensures EnteredWith(cfg, f, g, nv)
  {
    hide HandedSince, HasCertificate;
    assert g.log[|f.log|] == s;
    assert EntersAt(cfg, f.outstanding, g, nv, |f.log|);
  }

  /** The assignment of n is prepared, counted here if n is above the watermark, and broadcast. */
  ghost predicate AssignmentPrepared(cfg: Config, from: nat, g: Memory, nv: NewView, n: nat)
    requires cfg.Valid() && n in nv.xset
  {
    && PrepareMsg(Prepare(nv.v, n, nv.xset[n], g.now.id)) in g.outbox
    && exists i :: from <= i && PreparedIn(cfg, g.log, g.outbox, Prepare(nv.v, n, nv.xset[n], g.now.id), i)
  }

  lemma PreparedInStays(cfg: Config, g: Memory, g': Memory, p: Prepare, i: nat)
    requires cfg.Valid() && g.log <= g'.log && g.outbox <= g'.outbox && PreparedIn(cfg, g.log, g.outbox, p, i)
    ensures PreparedIn(cfg, g'.log, g'.outbox, p, i)
  {
    hide CanCountPrepare, DoCountPrepare, CommitOwed;
  }

  lemma AssignmentStays(cfg: Config, from: nat, g: Memory, g': Memory, nv: NewView, n: nat)
    requires cfg.Valid() && g.log <= g'.log && g.outbox <= g'.outbox && g.now.id == g'.now.id
    requires n in nv.xset && AssignmentPrepared(cfg, from, g, nv, n)
    ensures AssignmentPrepared(cfg, from, g', nv, n)
  {
    hide PreparedIn;
    var p := Prepare(nv.v, n, nv.xset[n], g.now.id);
    var i :| from <= i && PreparedIn(cfg, g.log, g.outbox, p, i);
    PreparedInStays(cfg, g, g', p, i);
  }

  lemma AssignmentsStay(cfg: Config, from: nat, mid: nat, g: Memory, g': Memory, nv: NewView, n: nat, keys: set<nat>)
    requires cfg.Valid() && from <= mid && g.log <= g'.log && g.outbox <= g'.outbox && g.now.id == g'.now.id
    requires n in nv.xset && AssignmentPrepared(cfg, mid, g', nv, n)
    requires forall k :: k in nv.xset && k !in keys ==> AssignmentPrepared(cfg, from, g, nv, k)
    ensures forall k :: k in nv.xset && k !in keys - {n} ==> AssignmentPrepared(cfg, from, g', nv, k)
  {
    forall k | k in nv.xset && k !in keys - {n} ensures AssignmentPrepared(cfg, from, g', nv, k) {
      hide PreparedIn;
      if k != n {
        AssignmentStays(cfg, from, g, g', nv, k);
      }
    }
  }

  lemma AssignmentsSent(cfg: Config, from: nat, g: Memory, nv: NewView)
    requires cfg.Valid() && forall n :: n in nv.xset ==> AssignmentPrepared(cfg, from, g, nv, n)
    ensures forall n :: n in nv.xset ==> PrepareMsg(Prepare(nv.v, n, nv.xset[n], g.now.id)) in g.outbox
  {
    hide PreparedIn;
  }

  lemma AssignmentDone(cfg: Config, before: seq<State>, s: State, s': State, g: Memory, nv: NewView, p: Prepare)
    requires cfg.Valid() && p.n in nv.xset && p == Prepare(nv.v, p.n, nv.xset[p.n], g.now.id)
    requires before != [] && before[|before| - 1] == s && before + [s'] <= g.log
    requires PrepareMsg(p) !in s.made && PrepareMsg(p) in s'.made && PrepareMsg(p) in g.outbox
    requires CanCountPrepare(cfg, s', p) ==>
               && before + [s'] + [DoCountPrepare(s', p)] <= g.log
               && (CommitOwed(cfg, DoCountPrepare(s', p), p.d, p.n) ==>
                     CommitMsg(Commit(p.v, p.n, p.d, p.sender)) in g.outbox)
    ensures AssignmentPrepared(cfg, |before|, g, nv, p.n)
  {
    hide CanCountPrepare, DoCountPrepare, CommitOwed;
    assert g.log[|before|] == s' && g.log[|before| - 1] == s;
    if CanCountPrepare(cfg, s', p) {
      assert g.log[|before| + 1] == (before + [s'] + [DoCountPrepare(s', p)])[|before| + 1];
    }
    assert PreparedIn(cfg, g.log, g.outbox, p, |before|);
  }

  lemma BelowWindow(cfg: Config, s: State, p: Prepare)
    requires cfg.Valid() && p.n <= s.h
    ensures !CanCountPrepare(cfg, s, p)
  {
  }

  ghost predicate PreparedIn(cfg: Config, log: seq<State>, outbox: seq<Msg>, p: Prepare, i: nat)
    requires cfg.Valid()
  {
    && 0 < i < |log|
    && PrepareMsg(p) in log[i].made && PrepareMsg(p) !in log[i - 1].made
    && (CanCountPrepare(cfg, log[i], p) ==>
          && i + 1 < |log| && log[i + 1] == DoCountPrepare(log[i], p)
          && (CommitOwed(cfg, log[i + 1], p.d, p.n) ==> CommitMsg(Commit(p.v, p.n, p.d, p.sender)) in outbox))
  }

  lemma OneVerdict(cfg: Config, s: State, nv: NewView)
    requires cfg.Valid()
    ensures !(Refuses(cfg, s, nv) && Approves(cfg, s, nv)) && !(Refuses(cfg, s, nv) && Delays(cfg, s, nv))
    ensures !(Approves(cfg, s, nv) && Delays(cfg, s, nv))
    ensures Refuses(cfg, s, nv) || Delays(cfg, s, nv) || Approves(cfg, s, nv)
  {
    hide Selected, Assign, Waits;
    forall m, n | Selected(cfg, nv.vset, m) && Selected(cfg, nv.vset, n) ensures m == n {
      SelectedIsUnique(cfg, nv.vset, m, n);
    }
  }

  lemma AcceptedFrom(cfg: Config, s: State, nv: NewView, cp: nat)
    requires cfg.Valid()
    ensures Accepts(cfg, s, nv, cp) ==> Selected(cfg, nv.vset, cp) && nv.v == s.view
  {
    hide Selected, Assign;
  }

  // ----- Events -----

  ghost predicate Handled(cfg: Config, f: Memory, g: Memory, m: Msg)
    requires cfg.Valid()
  {
    match m
    case BatchMsg(b) => BatchHandled(cfg, f, g, b)
    case PrePrepareMsg(p) => PrePrepareHandled(cfg, f, g, p)
    case PrepareMsg(p) => PrepareHandled(cfg, f, g, p)
    case CommitMsg(c) => CommitHandled(cfg, f, g, c)
    case CheckpointMsg(k) => CheckpointHandled(cfg, f, g, k)
    case ViewChangeMsg(vc) => ViewChangeHandled(cfg, f, g, vc)
    case NewViewMsg(nv) => NewViewHandled(cfg, f, g, nv)
    case FetchMsg(_, _) => g == f
  }
}
