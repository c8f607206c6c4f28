/** The replica: the fields of `pbftCore`, updated in place by its handlers. A ghost state follows
    the handlers step by step, so that everything proved about runs of steps holds of them. */
module PbftReplica {
  import opened PbftTypes
  import opened Quorums
  import opened NewViewRule
  import opened NewViewLoops
  import opened ReplicaSteps
  import opened ReplicaInvariant
  import opened ViewChangeCauses
  import opened ReplicaLog
  import opened ReplicaMeasure
  import opened ReplicaFacts
  import opened ReplicaLoops
  import opened ReplicaEffects

  /** What becomes of a new-view for the view that the replica waits to enter. */
  datatype Verdict = Leave | Wait | Enter

  class Replica {
    const cfg: Config
    const id: nat

    var view: nat
    var activeView: bool
    var h: nat
    var seqNo: nat
    var lastExec: nat
    var currentExec: Option<nat>
    var skipInProgress: bool
    var chkpts: map<nat, StateId>
    var pset: map<nat, PQ>
    var qset: map<QKey, PQ>
    var reqBatchStore: map<Digest, RequestBatch>
    var certStore: map<Slot, Cert>
    var checkpointStore: set<Checkpoint>

    var outstandingReqBatches: map<Digest, RequestBatch>
    var missingReqBatches: set<Digest>
    var hChkpts: map<nat, nat>
    var viewChangeStore: map<VcKey, ViewChange>
    var newViewStore: map<nat, NewView>
    var viewChangeSeqNo: Option<nat>  // None is the infinite number
    var stateTransferring: bool
    var highStateTarget: Option<nat>
    var panicked: bool

    var outbox: seq<Msg>       // what was handed to the consumer's `broadcast`
    var executed: seq<ExecCall>  // ... and to its `execute`

    ghost var now: State
    ghost var log: seq<State>

    // ----- Validity -----

    /** The states passed so far are a run of steps that ends in the present one, and no view was left
        without a reason. */
    ghost predicate Recorded()
      requires cfg.Valid()
      reads `now, `log
    {
      Legal(cfg, id, log) && Reasoned(cfg, log) && log[|log| - 1] == now
    }

    /** The present view may be left for view w. */
    ghost predicate MayLeave(w: nat)
      requires cfg.Valid()
      reads `now, `log
    {
      Due(cfg, now, w) || ForesawIn(cfg, log, 0, |log|)
    }

    /** The fields are those of s: all but the view, which `RecvViewChange` sets ahead of time, and
        the batches, which go first when the replica falls behind. */
    ghost predicate Shows(s: State)
      reads `activeView, `h, `seqNo, `lastExec, `currentExec, `skipInProgress, `chkpts, `pset, `qset, `certStore
      reads `checkpointStore
    {
      && s.id == id
      && activeView == s.active && h == s.h && seqNo == s.seqNo
      && lastExec == s.lastExec && currentExec == s.exec && skipInProgress == s.skip
      && chkpts == s.chkpts && pset == s.pset && qset == s.qset
      && certStore == s.certs && checkpointStore == s.ckpts
    }

    ghost predicate Holds(s: State)
      reads `activeView, `h, `seqNo, `lastExec, `currentExec, `skipInProgress, `chkpts, `pset, `qset, `certStore
      reads `checkpointStore, `reqBatchStore
    {
      Shows(s) && reqBatchStore.Keys == s.batches
    }

    ghost predicate Matches(s: State)
      reads `activeView, `h, `seqNo, `lastExec, `currentExec, `skipInProgress, `chkpts, `pset, `qset, `certStore
      reads `checkpointStore, `reqBatchStore, `view
    {
      Holds(s) && view == s.view
    }

    /** What the pre-prepared predicate looks at ... */
    ghost predicate LogShows(s: State)
      reads `qset, `certStore, `reqBatchStore
    {
      qset == s.qset && certStore == s.certs && reqBatchStore.Keys == s.batches
    }

    ghost predicate BatchesHashed()
      reads `reqBatchStore, `outstandingReqBatches
    {
      Hashed(reqBatchStore) && Hashed(outstandingReqBatches)
    }

    ghost predicate NewViewsStored()
      requires cfg.Valid()
      reads `newViewStore, `now
    {
      forall v :: v in newViewStore ==>
        var nv := newViewStore[v];
        nv.v == v && 0 < v && nv.sender == cfg.Primary(v) && NewViewMsg(nv) in now.got
    }

    ghost predicate ReportsTracked()
      reads `hChkpts, `now
    {
      forall x :: x in hChkpts ==> exists k :: CheckpointMsg(k) in now.Msgs() && k.sender == x && k.n == hChkpts[x]
    }

    ghost predicate OutboxMade()
      reads `outbox, `now
    {
      forall m :: m in outbox ==> m.FetchMsg? || m in now.made
    }

    ghost predicate CallsMade(execs: seq<Exec>)
      reads `executed
    {
      executed == Calls(execs)
    }

    ghost predicate ViewChangesStored()
      reads `viewChangeStore, `now
    {
      forall k :: k in viewChangeStore ==>
        var vc := viewChangeStore[k];
        k == VcKey(vc.v, vc.sender) && ViewChangeMsg(vc) in now.Msgs()
    }

    /** An active view ends at the appointed number. */
    ghost predicate PeriodKept()
      requires cfg.Valid()
      reads `viewChangeSeqNo, `now
    {
      && (cfg.viewChangePeriod == 0 ==> viewChangeSeqNo.None?)
      && (now.active ==> viewChangeSeqNo == Limit(cfg, now))
    }

    /** The fields beside the state, when the executions are these. */
    ghost predicate Links(execs: seq<Exec>)
      requires cfg.Valid()
      reads `now, `reqBatchStore, `outstandingReqBatches, `newViewStore, `viewChangeStore, `hChkpts, `outbox, `executed,
            `viewChangeSeqNo
    {
      && BatchesHashed() && NewViewsStored() && ViewChangesStored() && ReportsTracked() && OutboxMade()
      && CallsMade(execs) && PeriodKept()
    }

    ghost predicate Valid()
      reads this
    {
      cfg.Valid() && Recorded() && Matches(now) && Links(now.execs)
    }

    lemma PresentLimit(execs: seq<Exec>)
      requires cfg.Valid() && Links(execs)
      ensures now.active ==> viewChangeSeqNo == Limit(cfg, now)
      ensures cfg.viewChangePeriod == 0 ==> viewChangeSeqNo.None?
    {
    }

    /** Messages made and not yet broadcast. */
    ghost function Pending(): set<Msg>
      reads `outbox, `now
    {
      Unsent(now.made, outbox)
    }

    // ----- Progress -----

    ghost function ViewsLeft(): nat
      reads `newViewStore, `now
    {
      |WaitingViews(newViewStore, now.view, now.active)|
    }

    ghost function NullsLeft(): nat
      reads `now
    {
      |WaitingNulls(now.certs, now.SpecExec())|
    }

    /** While an execution is in flight no other is started. */
    ghost function Free(): nat
      reads `now
    {
      if now.exec.Some? then 0 else 1
    }

    ghost function Snap(): Snapshot
      reads `now, `log, `outbox, `newViewStore, `viewChangeSeqNo
    {
      Snapshot(log, now, outbox, ViewsLeft(), NullsLeft(), viewChangeSeqNo)
    }

    /** All that the replica remembers. */
    ghost function Mem(): Memory
      reads `now, `log, `outbox, `outstandingReqBatches, `missingReqBatches, `hChkpts, `viewChangeStore, `newViewStore,
            `viewChangeSeqNo, `highStateTarget, `stateTransferring, `panicked
    {
      Memory(now, log, outbox, outstandingReqBatches, missingReqBatches, hChkpts, viewChangeStore, newViewStore,
             viewChangeSeqNo, highStateTarget, stateTransferring, panicked)
    }

    twostate predicate Goes()
      reads `now, `log, `outbox, `newViewStore, `viewChangeSeqNo
    {
      Evolves(old(Snap()), Snap()) && InStep(old(Snap()), Snap())
    }

    twostate predicate Keeps()
      reads `now, `log, `outbox, `newViewStore, `viewChangeSeqNo
    {
      Stepwise(old(Snap()), Snap())
    }

    twostate predicate Stays()
      requires cfg.Valid()
      reads `now, `log, `outbox, `newViewStore, `viewChangeSeqNo
    {
      Settled(cfg, old(Snap()), Snap())
    }

    constructor (cfg: Config, id: nat)
      requires cfg.Valid()
      ensures Valid() && Pending() == {} && now == Initial(id)
      ensures this.cfg == cfg && this.id == id
      ensures outbox == [] && executed == [] && outstandingReqBatches == map[] && missingReqBatches == {}
      ensures hChkpts == map[] && viewChangeStore == map[] && newViewStore == map[]
      ensures viewChangeSeqNo == cfg.ViewEnd(0) && highStateTarget == None && !stateTransferring && !panicked
    {
      this.cfg, this.id := cfg, id;
      view, activeView, h, seqNo, lastExec, currentExec, skipInProgress := 0, true, 0, 0, 0, None, false;
      chkpts, pset, qset := map[0 := "XXX GENESIS"], map[], map[];
      reqBatchStore, certStore, checkpointStore := map[], map[], {};
      outstandingReqBatches, missingReqBatches, hChkpts := map[], {}, map[];
      viewChangeStore, newViewStore := map[], map[];
      viewChangeSeqNo, stateTransferring, highStateTarget, panicked := None, false, None, false;
      outbox, executed := [], [];
      now := Initial(id);
      log := [Initial(id)];
      new;
      UpdateViewChangeSeqNo();
    }

    /** Whatever the period, the next automatic view change is above every number given out. */
    method UpdateViewChangeSeqNo()
      requires cfg.Valid()
      modifies `viewChangeSeqNo
      ensures cfg.viewChangePeriod == 0 ==> viewChangeSeqNo == old(viewChangeSeqNo)
      ensures cfg.viewChangePeriod > 0 ==>
                && viewChangeSeqNo == cfg.ViewEnd(seqNo)
                && seqNo < viewChangeSeqNo.value && cfg.IsMultiple(viewChangeSeqNo.value)
    {
      if cfg.viewChangePeriod <= 0 {
        return;
      }
      FloorIsRounding(cfg, seqNo);
      FloorIsMultiple(cfg, seqNo);
      DivMod(seqNo, cfg.K);
      MulMonotone(1, cfg.viewChangePeriod, cfg.K);
      ProductIsMultiple(cfg, cfg.viewChangePeriod);
      SumOfMultiples(cfg, cfg.Floor(seqNo), cfg.viewChangePeriod * cfg.K);
      viewChangeSeqNo := Some(seqNo + cfg.viewChangePeriod * cfg.K - seqNo % cfg.K);
    }

    lemma Fields()
      requires Matches(now)
      ensures id == now.id && view == now.view && activeView == now.active && h == now.h && seqNo == now.seqNo
      ensures lastExec == now.lastExec && currentExec == now.exec && skipInProgress == now.skip
      ensures certStore == now.certs && checkpointStore == now.ckpts && chkpts == now.chkpts && pset == now.pset
      ensures reqBatchStore.Keys == now.batches && LogShows(now) && Holds(now) && Shows(now)
    {
    }

    // ----- Steps as they are recorded -----

    ghost method Advance(s: State)
      requires cfg.Valid() && Recorded() && Next(cfg, now, s)
      requires Prompt(cfg, now, s) || ForesawIn(cfg, log, 0, |log|)
      modifies `now, `log
      ensures Recorded() && now == s && log == old(log) + [s]
    {
      LegalExtends(cfg, id, log, s);
      ReasonedExtends(cfg, log, s);
      log := log + [s];
      now := s;
    }

    /** What is remembered beside the state stays right when messages are added. */
    twostate lemma LinksGrow()
      requires cfg.Valid()
      requires old(now.got) <= now.got && old(now.made) <= now.made
      ensures unchanged(`newViewStore) && old(NewViewsStored()) ==> NewViewsStored()
      ensures unchanged(`viewChangeStore) && old(ViewChangesStored()) ==> ViewChangesStored()
      ensures unchanged(`hChkpts) && old(ReportsTracked()) ==> ReportsTracked()
      ensures unchanged(`outbox) && old(OutboxMade()) ==> OutboxMade()
    {
    }

    /** A step that changes nothing that is remembered beside the state. */
    twostate lemma Stepped()
      requires log == old(log) + [now]
      requires unchanged(`outbox) && unchanged(`outstandingReqBatches) && unchanged(`missingReqBatches)
      requires unchanged(`hChkpts) && unchanged(`viewChangeStore) && unchanged(`newViewStore)
      requires unchanged(`viewChangeSeqNo) && unchanged(`highStateTarget) && unchanged(`stateTransferring)
      requires unchanged(`panicked)
      ensures Mem() == old(Mem()).Then(now)
    {
    }

    /** ... or nothing but the outstanding batches. */
    twostate lemma SteppedWithBatches()
      requires log == old(log) + [now]
      requires unchanged(`outbox) && unchanged(`missingReqBatches)
      requires unchanged(`hChkpts) && unchanged(`viewChangeStore) && unchanged(`newViewStore)
      requires unchanged(`viewChangeSeqNo) && unchanged(`highStateTarget) && unchanged(`stateTransferring)
      requires unchanged(`panicked)
      ensures Mem() == old(Mem()).Then(now).(outstanding := outstandingReqBatches)
    {
    }

    /** ... or nothing but the stores that depend on the view. */
    twostate lemma SteppedWithViews()
      requires log == old(log) + [now]
      requires unchanged(`outbox) && unchanged(`outstandingReqBatches) && unchanged(`missingReqBatches)
      requires unchanged(`hChkpts) && unchanged(`highStateTarget) && unchanged(`stateTransferring)
      requires unchanged(`panicked)
      ensures Mem() == old(Mem()).Then(now).(viewChanges := viewChangeStore, newViews := newViewStore,
                                             end := viewChangeSeqNo)
    {
    }

    /** A message was sent, and nothing else happened. */
    twostate lemma Sends(m: Msg)
      requires outbox == old(outbox) + [m]
      requires unchanged(`now) && unchanged(`log) && unchanged(`outstandingReqBatches) && unchanged(`missingReqBatches)
      requires unchanged(`hChkpts) && unchanged(`viewChangeStore) && unchanged(`newViewStore)
      requires unchanged(`viewChangeSeqNo) && unchanged(`highStateTarget) && unchanged(`stateTransferring)
      requires unchanged(`panicked)
      ensures Mem() == old(Mem()).Sent(m)
    {
    }

    lemma MemFields()
      ensures Mem().now == now && Mem().log == log && Mem().outbox == outbox
      ensures Mem().outstanding == outstandingReqBatches
      ensures Mem().missing == missingReqBatches && Mem().reports == hChkpts && Mem().newViews == newViewStore
      ensures Mem().viewChanges == viewChangeStore && Mem().end == viewChangeSeqNo && Mem().target == highStateTarget
      ensures Mem().transferring == stateTransferring && Mem().panicked == panicked
    {
    }

    /** The fields were brought to state s, a step away: it becomes the present state. */
    ghost method RecordAny(s: State)
      requires cfg.Valid() && Recorded() && Links(s.execs) && Matches(s)
      requires Next(cfg, now, s) && now.got <= s.got && now.made <= s.made
      requires Prompt(cfg, now, s) || ForesawIn(cfg, log, 0, |log|)
      requires s.active ==> viewChangeSeqNo == Limit(cfg, s)
      modifies `now, `log
      ensures Valid() && now == s && log == old(log) + [s]
    {
      hide Next, Legal, Reasoned, Prompt, ForesawIn, Limit, Shows, Hashed, Calls;
      Advance(s);
      LinksGrow();
    }

    ghost method Record(s: State)
      requires cfg.Valid() && Recorded() && Links(s.execs) && Matches(s)
      requires Next(cfg, now, s) && Plain(now, s)
      modifies `now, `log
      ensures Valid() && now == s && log == old(log) + [s]
      ensures Evolves(old(Snap()), Snap()) && NullsLeft() <= old(NullsLeft())
      ensures s.lagging == old(now).lagging ==> Goes()
      ensures Keeps() && (SamePrepares(old(now), s) ==> Stays())
    {
      hide Next, Recorded, Matches, Links, Due, Limit, Foresaw, LeftFor;
      PresentLimit(s.execs);
      LimitStays(cfg, now, s);
      SubsetCard(WaitingNulls(s.certs, s.SpecExec()), WaitingNulls(now.certs, now.SpecExec()));
      RecordAny(s);
    }

    ghost predicate Unmade(m: Msg)
      reads `now
    {
      m !in now.made && !m.FetchMsg?
    }

    method Broadcast(m: Msg)
      requires Valid()
      requires m.FetchMsg? || m in now.made
      modifies `outbox
      ensures Valid()
      ensures outbox == old(outbox) + [m]
      ensures Pending() == old(Pending()) - {m}
      ensures Goes() && Stays()
    {
      hide Recorded, Matches, BatchesHashed, NewViewsStored, ReportsTracked, Calls, ViewChangesStored, PeriodKept,
           Unsent;
      SentWith(now.made, outbox, m);
      outbox := outbox + [m];
    }

    /** Message m, sent by another replica or bounced by the network, reaches this one. */
    ghost method Hear(m: Msg)
      requires Valid() && CanHear(cfg, now, m)
      modifies `now, `log
      ensures Valid() && now == old(now).(got := old(now).got + {m}) && log == old(log) + [now]
      ensures Pending() == old(Pending())
    {
      hide Next, Recorded, BatchesHashed, NewViewsStored, ViewChangesStored, ReportsTracked, OutboxMade, Calls, Due,
           Limit;
      NextHear(cfg, now, m);
      LimitStays(cfg, now, now.(got := now.got + {m}));
      Advance(now.(got := now.got + {m}));
      LinksGrow();
    }

    method KeepBatch(b: RequestBatch)
      requires Valid()
      modifies `reqBatchStore, `outstandingReqBatches, `now, `log
      ensures Valid() && now == old(now).(batches := old(now).batches + {Hash(b)}) && log == old(log) + [now]
      ensures outstandingReqBatches == old(outstandingReqBatches)[Hash(b) := b]
      ensures Pending() == old(Pending()) && Goes() && Stays()
    {
      hide Next, Plain, SamePrepares, Recorded, Links, Hashed, Evolves, InStep, Settled, ViewsLeft, NullsLeft,
           WaitingViews, WaitingNulls;
      BatchesAreHashed();
      HashedWith(reqBatchStore, b);
      HashedWith(outstandingReqBatches, b);
      reqBatchStore := reqBatchStore[Hash(b) := b];
      outstandingReqBatches := outstandingReqBatches[Hash(b) := b];
      LinksOfBatches();
      NextKeepBatch(cfg, now, Hash(b));
      Record(now.(batches := now.batches + {Hash(b)}));
    }

    lemma BatchesAreHashed()
      requires cfg.Valid() && Links(now.execs)
      ensures BatchesHashed()
    {
    }

    twostate lemma LinksOfBatches()
      requires cfg.Valid() && old(Links(now.execs)) && BatchesHashed()
      requires unchanged(`now) && unchanged(`newViewStore) && unchanged(`hChkpts) && unchanged(`outbox)
      requires unchanged(`executed)
      requires unchanged(`viewChangeSeqNo) && unchanged(`viewChangeStore)
      ensures Links(now.execs)
    {
      hide BatchesHashed;
    }

    /** `getCert` without the insertion: an absent certificate reads as an empty one. */
    function GetCert(v: nat, n: nat): Cert
      reads `certStore
    {
      if Slot(v, n) in certStore then certStore[Slot(v, n)] else EmptyCert
    }

    /** The pre-prepare of another primary is filed. */
    method SetPrePrepare(p: PrePrepare)
      requires Valid() && CanAcceptPrePrepare(cfg, now, p)
      modifies `certStore, `now, `log
      ensures Valid() && now == DoAcceptPrePrepare(old(now), p) && log == old(log) + [now]
      ensures Pending() == old(Pending())
    {
      hide Next, Recorded, BatchesHashed, NewViewsStored, ViewChangesStored, ReportsTracked, OutboxMade, Calls, Due,
           Limit;
      certStore := certStore[Slot(p.v, p.n) := GetCert(p.v, p.n).(prePrepare := Some(p), digest := p.d)];
      NextAcceptPrePrepare(cfg, now, p);
      LimitStays(cfg, now, DoAcceptPrePrepare(now, p));
      Advance(DoAcceptPrePrepare(now, p));
      LinksGrow();
    }

    /** The next number is given to a batch. */
    method IssueNumber(b: RequestBatch)
      requires Valid() && CanIssuePrePrepare(cfg, now, b)
      requires Unmade(PrePrepareMsg(IssuedPrePrepare(now, b)))
      modifies `certStore, `seqNo, `now, `log
      ensures Valid() && now == DoIssuePrePrepare(old(now), b) && log == old(log) + [now]
      ensures Pending() == old(Pending()) + {PrePrepareMsg(IssuedPrePrepare(old(now), b))}
      ensures Goes() && Stays()
    {
      hide CanIssuePrePrepare, Next, Plain, SamePrepares, Recorded, Links, Evolves, InStep, Settled, ViewsLeft,
           NullsLeft, WaitingViews, WaitingNulls;
      NothingSentUnmade();
      var p := PrePrepare(view, seqNo + 1, Hash(b), b, id);
      certStore := certStore[Slot(p.v, p.n) := GetCert(p.v, p.n).(prePrepare := Some(p), digest := p.d)];
      seqNo := p.n;
      NextIssuePrePrepare(cfg, now, b);
      UnsentWith(now.made, outbox, PrePrepareMsg(p));
      Record(DoIssuePrePrepare(now, b));
    }

    lemma NothingSentUnmade()
      requires cfg.Valid() && Links(now.execs)
      ensures forall m :: m in outbox && !m.FetchMsg? ==> m in now.made
    {
    }

    /** The prepare of a backup is made. */
    method MarkPrepared(n: nat)
      requires Valid() && CanCastPrepare(cfg, now, n)
      requires Unmade(PrepareMsg(Prepare(now.view, n, now.CertAt(Slot(now.view, n)).digest, id)))
      modifies `certStore, `now, `log
      ensures Valid() && now == DoCastPrepare(old(now), n) && log == old(log) + [now]
      ensures var was := old(now);
              Pending() == old(Pending()) + {PrepareMsg(Prepare(was.view, n, was.CertAt(Slot(was.view, n)).digest, id))}
      ensures Goes() && Keeps()
    {
      hide Next, Plain, SamePrepares, Recorded, Links, Evolves, InStep, Settled, Unsent, CanCastPrepare,
           CanCountPrepare, CanCastCommit, CanCountCommit, ViewsLeft, NullsLeft, WaitingViews, WaitingNulls;
      NothingSentUnmade();
      certStore := certStore[Slot(view, n) := GetCert(view, n).(sentPrepare := true)];
      NextCastPrepare(cfg, now, n);
      UnsentWith(now.made, outbox, PrepareMsg(Prepare(view, n, now.CertAt(Slot(view, n)).digest, id)));
      Record(DoCastPrepare(now, n));
    }

    /** The prepare for an assignment of the new view is made. */
    method MarkNewViewPrepared(n: nat, d: Digest)
      requires Valid() && CanCastNewViewPrepare(cfg, now, n) && d == now.acts[now.view].nv.xset[n]
      requires Unmade(PrepareMsg(Prepare(now.view, n, d, id)))
      modifies `certStore, `now, `log
      ensures Valid() && now == DoCastNewViewPrepare(old(now), n) && log == old(log) + [now]
      ensures Pending() == old(Pending()) + {PrepareMsg(Prepare(now.view, n, d, id))}
      ensures Goes() && Keeps()
    {
      hide Next, Plain, SamePrepares, Recorded, Links, Matches, Evolves, InStep, Settled, Unsent, CanCastNewViewPrepare,
           DoCastNewViewPrepare, ViewsLeft, NullsLeft, WaitingViews, WaitingNulls;
      Fields();
      NothingSentUnmade();
      ghost var s := NewViewPrepared(cfg, now, n, d);
      UnsentWith(now.made, outbox, PrepareMsg(Prepare(view, n, d, id)));
      FlagPrepared(n, s);
      Record(s);
    }

    /** Only above the watermark is there a certificate to flag. */
    method FlagPrepared(n: nat, ghost s: State)
      requires Matches(now)
      requires var slot := Slot(now.view, n);
               s == now.(made := s.made,
                         certs := if now.h < n then now.certs[slot := now.CertAt(slot).(sentPrepare := true)]
                                  else now.certs)
      modifies `certStore
      ensures Matches(s)
    {
      if n > h {
        certStore := certStore[Slot(view, n) := GetCert(view, n).(sentPrepare := true)];
      }
    }

    static lemma NewViewPrepared(cfg: Config, s: State, n: nat, d: Digest) returns (s': State)
      requires cfg.Valid() && CanCastNewViewPrepare(cfg, s, n) && d == s.acts[s.view].nv.xset[n]
      ensures s' == DoCastNewViewPrepare(s, n) && Next(cfg, s, s') && Plain(s, s')
      ensures var slot := Slot(s.view, n);
              s' == s.(certs := if s.h < n then s.certs[slot := s.CertAt(slot).(sentPrepare := true)] else s.certs,
                       made := s.made + {PrepareMsg(Prepare(s.view, n, d, s.id))})
    {
      hide Next, Plain;
      NextCastNewViewPrepare(cfg, s, n);
      s' := DoCastNewViewPrepare(s, n);
    }

    /** A prepare is filed. */
    method AddPrepare(p: Prepare)
      requires Valid() && CanCountPrepare(cfg, now, p)
      modifies `certStore, `now, `log
      ensures Valid() && now == DoCountPrepare(old(now), p) && log == old(log) + [now]
      ensures Pending() == old(Pending()) && Goes() && Stays()
    {
      hide Next, Plain, SamePrepares, Recorded, Links, Evolves, InStep, Settled, Unsent, CanCastPrepare,
           CanCountPrepare, CanCastCommit, CanCountCommit, ViewsLeft, NullsLeft, WaitingViews, WaitingNulls;
      var cert := GetCert(p.v, p.n);
      certStore := certStore[Slot(p.v, p.n) := cert.(prepare := cert.prepare + [p])];
      NextCountPrepare(cfg, now, p);
      Record(DoCountPrepare(now, p));
    }

    /** The commit is made. */
    method MarkCommitted(n: nat)
      requires Valid() && CanCastCommit(cfg, now, n)
      requires Unmade(CommitMsg(Commit(now.view, n, now.CertAt(Slot(now.view, n)).digest, id)))
      modifies `certStore, `now, `log
      ensures Valid() && now == DoCastCommit(old(now), n) && log == old(log) + [now]
      ensures var was := old(now);
              Pending() == old(Pending()) + {CommitMsg(Commit(was.view, n, was.CertAt(Slot(was.view, n)).digest, id))}
      ensures Goes() && Stays()
    {
      hide Next, Plain, SamePrepares, Recorded, Links, Evolves, InStep, Settled, Unsent, CanCastPrepare,
           CanCountPrepare, CanCastCommit, CanCountCommit, ViewsLeft, NullsLeft, WaitingViews, WaitingNulls;
      NothingSentUnmade();
      certStore := certStore[Slot(view, n) := GetCert(view, n).(sentCommit := true)];
      NextCastCommit(cfg, now, n);
      UnsentWith(now.made, outbox, CommitMsg(Commit(view, n, now.CertAt(Slot(view, n)).digest, id)));
      Record(DoCastCommit(now, n));
    }

    /** A commit is filed. */
    method AddCommit(c: Commit)
      requires Valid() && CanCountCommit(cfg, now, c)
      modifies `certStore, `now, `log
      ensures Valid() && now == DoCountCommit(old(now), c) && log == old(log) + [now]
      ensures Pending() == old(Pending()) && Goes() && Stays()
    {
      hide Next, Plain, SamePrepares, Recorded, Links, Evolves, InStep, Settled, Unsent, CanCastPrepare,
           CanCountPrepare, CanCastCommit, CanCountCommit, ViewsLeft, NullsLeft, WaitingViews, WaitingNulls;
      var cert := GetCert(c.v, c.n);
      certStore := certStore[Slot(c.v, c.n) := cert.(commit := cert.commit + [c])];
      NextCountCommit(cfg, now, c);
      Record(DoCountCommit(now, c));
    }

    // ----- Execution -----

    lemma NowInv()
      requires cfg.Valid() && Recorded()
      ensures Inv(cfg, now)
    {
      hide Inv;
      LegalInv(cfg, id, log, now);
    }

    /** Execution of the certificate at n starts; a batch goes to the consumer, a null request does
        not. */
    method BeginExec(n: nat)
      requires Valid() && CanStartExec(cfg, now, n)
      modifies `currentExec, `executed, `now, `log
      ensures Valid() && now == DoStartExec(old(now), n) && log == old(log) + [now]
      ensures Pending() == old(Pending()) && Goes() && Stays()
      ensures NullsLeft() <= old(NullsLeft())
      ensures now.CertAt(Slot(view, n)).digest == Null ==> NullsLeft() < old(NullsLeft())
    {
      hide CanStartExec, Next, Plain, SamePrepares, Recorded, Links, Evolves, InStep, Settled, Unsent, Hashed, Calls,
           WaitingNulls;
      BatchesAreHashed();
      ghost var s := Started(cfg, now, n);
      var digest := certStore[Slot(view, n)].digest;
      currentExec := Some(n);
      if digest != Null {
        HashedBatch(reqBatchStore, digest);
        executed := executed + [ExecCall(n, reqBatchStore[digest])];
      }
      LinksOfExec(Exec(n, digest, view));
      Record(s);
    }

    static lemma Started(cfg: Config, s: State, n: nat) returns (s': State)
      requires cfg.Valid() && CanStartExec(cfg, s, n)
      ensures s' == DoStartExec(s, n) && Next(cfg, s, s') && Plain(s, s') && SamePrepares(s, s')
      ensures Slot(s.view, n) in s.certs
      ensures var d := s.certs[Slot(s.view, n)].digest;
              && s' == s.(exec := Some(n), execs := s.execs + [Exec(n, d, s.view)])
              && (d == Null || d in s.batches)
              && (d == Null ==> |WaitingNulls(s.certs, n)| < |WaitingNulls(s.certs, s.SpecExec())|)
    {
      StartExecFacts(cfg, s, n);
      hide Next, Plain, SamePrepares, CanStartExec;
      if s.certs[Slot(s.view, n)].digest == Null {
        ExecutingShrinks(s.certs, s.SpecExec(), Slot(s.view, n));
      }
      NextStartExec(cfg, s, n);
      s' := DoStartExec(s, n);
    }

    twostate lemma LinksOfExec(e: Exec)
      requires cfg.Valid() && old(Links(now.execs))
      requires unchanged(`now) && unchanged(`reqBatchStore) && unchanged(`outstandingReqBatches)
      requires unchanged(`newViewStore)
      requires unchanged(`hChkpts) && unchanged(`outbox) && unchanged(`viewChangeSeqNo) && unchanged(`viewChangeStore)
      requires executed == old(executed) + if e.d == Null then [] else [ExecCall(e.n, BatchOf(e.d))]
      ensures Links(now.execs + [e])
    {
      CallsExtend(now.execs, e);
    }

    method SetLastExec()
      requires Valid() && currentExec == Some(lastExec + 1)
      modifies `lastExec, `now, `log
      ensures Valid() && now == old(now).(lastExec := old(now).lastExec + 1) && log == old(log) + [now]
      ensures Pending() == old(Pending()) && Stays()
      ensures Evolves(Idle(old(Snap())), Idle(Snap())) && InStep(Idle(old(Snap())), Idle(Snap()))
    {
      hide Next, Recorded, Links, Due, Limit, Foresaw, LeftFor, WaitingViews, WaitingNulls, Unsent;
      lastExec := currentExec.value;
      PresentLimit(now.execs);
      LimitStays(cfg, now, now.(lastExec := now.lastExec + 1));
      NextFinishExec(cfg, now);
      RecordAny(now.(lastExec := now.lastExec + 1));
    }

    method ClearCurrentExec()
      requires Valid() && currentExec == Some(lastExec)
      modifies `currentExec, `now, `log
      ensures Valid() && now == old(now).(exec := None) && log == old(log) + [now]
      ensures Pending() == old(Pending()) && Stays()
      ensures Evolves(Idle(old(Snap())), Snap()) && InStep(Idle(old(Snap())), Snap())
    {
      hide Next, Recorded, Links, Due, Limit, Foresaw, LeftFor, WaitingViews, WaitingNulls, Unsent;
      currentExec := None;
      PresentLimit(now.execs);
      LimitStays(cfg, now, now.(exec := None));
      NextReleaseExec(cfg, now);
      RecordAny(now.(exec := None));
    }

    method SetSkip()
      requires Valid()
      modifies `skipInProgress, `now, `log
      ensures Valid() && now == old(now).(skip := true) && log == old(log) + [now]
      ensures Pending() == old(Pending()) && Goes() && Stays()
    {
      hide Next, Recorded, Links, Due, Limit, Foresaw, LeftFor, WaitingViews, WaitingNulls, Unsent;
      skipInProgress := true;
      PresentLimit(now.execs);
      LimitStays(cfg, now, now.(skip := true));
      NextSkipOn(cfg, now);
      RecordAny(now.(skip := true));
    }

    // ----- Checkpoints -----

    method AddOwnCheckpoint(stateId: StateId)
      requires Valid() && currentExec == Some(lastExec) && cfg.IsMultiple(lastExec)
      requires Unmade(CheckpointMsg(Checkpoint(lastExec, id, stateId)))
      modifies `chkpts, `now, `log
      ensures Valid() && now == DoTakeCheckpoint(old(now), stateId) && log == old(log) + [now]
      ensures chkpts == old(chkpts)[lastExec := stateId]
      ensures Pending() == old(Pending()) + {CheckpointMsg(Checkpoint(lastExec, id, stateId))}
      ensures Goes() && Stays()
    {
      hide Next, Plain, SamePrepares, Recorded, Links, Evolves, InStep, Settled, Unsent, ViewsLeft, NullsLeft,
           WaitingViews, WaitingNulls;
      NothingSentUnmade();
      chkpts := chkpts[lastExec := stateId];
      UnsentWith(now.made, outbox, CheckpointMsg(Checkpoint(lastExec, id, stateId)));
      NextTakeCheckpoint(cfg, now, stateId);
      Record(DoTakeCheckpoint(now, stateId));
    }

    method AddCheckpoint(k: Checkpoint)
      requires Valid() && CheckpointMsg(k) in now.Msgs() && InW(cfg, now, k.n)
      modifies `checkpointStore, `now, `log
      ensures Valid() && now == old(now).(ckpts := old(now).ckpts + {k}) && log == old(log) + [now]
      ensures Pending() == old(Pending()) && Goes() && Stays()
    {
      hide Next, Plain, SamePrepares, Recorded, Links, Evolves, InStep, Settled, Unsent, ViewsLeft, NullsLeft,
           WaitingViews, WaitingNulls;
      checkpointStore := checkpointStore + {k};
      NextStoreCheckpoint(cfg, now, k);
      Record(now.(ckpts := now.ckpts + {k}));
    }

    // ----- The predicates over certificates -----

    method IsPrePrepared(d: Digest, v: nat, n: nat) returns (r: bool)
      requires LogShows(now)
      ensures r == PrePrepared(now, d, v, n)
    {
      if d != Null && d !in reqBatchStore {
        return false;
      }
      if QKey(d, n) in qset && qset[QKey(d, n)].v == v {
        return true;
      }
      if Slot(v, n) in certStore {
        var p := certStore[Slot(v, n)].prePrepare;
        if p.Some? && p.value.v == v && p.value.n == n && p.value.d == d {
          return true;
        }
      }
      return false;
    }

    method IsPrepared(d: Digest, v: nat, n: nat) returns (r: bool)
      requires cfg.Valid() && LogShows(now) && pset == now.pset
      ensures r == Prepared(cfg, now, d, v, n)
    {
      hide PrePrepared;
      var pre := IsPrePrepared(d, v, n);
      if !pre {
        return false;
      }
      if n in pset && pset[n].v == v && pset[n].d == d {
        return true;
      }
      if Slot(v, n) !in certStore {
        return false;
      }
      QuorumFacts(cfg);
      var quorum := CountMatchingPrepares(certStore[Slot(v, n)].prepare, v, n, d);
      return quorum >= cfg.IntersectionQuorum() - 1;
    }

    method IsCommitted(d: Digest, v: nat, n: nat) returns (r: bool)
      requires cfg.Valid() && LogShows(now) && pset == now.pset
      ensures r == Committed(cfg, now, d, v, n)
    {
      hide Prepared;
      var prep := IsPrepared(d, v, n);
      if !prep || Slot(v, n) !in certStore {
        return false;
      }
      var quorum := CountMatchingCommits(certStore[Slot(v, n)].commit, v, n);
      return quorum >= cfg.IntersectionQuorum();
    }

    // ----- P and Q sets -----

    ghost predicate PUpTo(keys: set<Slot>, ps: map<nat, PQ>)
      reads `now
    {
      && (forall n :: n in ps <==>
            n in now.pset || (Slot(now.view, n) !in keys && SlotPrepared(cfg, now, Slot(now.view, n))))
      && (forall n :: n in ps ==>
            ps[n] == if Slot(now.view, n) !in keys && SlotPrepared(cfg, now, Slot(now.view, n))
                     then PQ(n, now.certs[Slot(now.view, n)].digest, now.view) else now.pset[n])
    }

    /** The P set, whatever order the certificates come in. */
    method CalcPSet() returns (ps: map<nat, PQ>)
      requires cfg.Valid() && Recorded() && LogShows(now) && pset == now.pset
      ensures ps == CalcP(cfg, now)
    {
      hide Recorded, PUpTo, CalcP, Prepared, Window;
      LogWindow();
      PStart();
      ps := pset;
      var keys := certStore.Keys;
      while keys != {}
        invariant keys <= certStore.Keys
        invariant PUpTo(keys, ps)
        decreases |keys|
      {
        var idx :| idx in keys;
        PNext(keys, ps, idx);
        var cert := certStore[idx];
        keys := keys - {idx};
        if cert.prePrepare.None? {
          continue;
        }
        var found := IsPrepared(cert.digest, idx.v, idx.n);
        if !found {
          continue;
        }
        if idx.n in ps && ps[idx.n].v > idx.v {
          continue;
        }
        ps := ps[idx.n := PQ(idx.n, cert.digest, idx.v)];
      }
      PComplete(ps);
    }

    lemma PStart()
      ensures PUpTo(now.certs.Keys, now.pset)
    {
      hide Prepared;
    }

    lemma PNext(keys: set<Slot>, ps: map<nat, PQ>, idx: Slot)
      requires cfg.Valid() && Window(cfg, now) && PUpTo(keys, ps) && idx in keys && keys <= now.certs.Keys
      ensures var cert := now.certs[idx];
              if cert.prePrepare.Some? && Prepared(cfg, now, cert.digest, idx.v, idx.n) then
                && !(idx.n in ps && ps[idx.n].v > idx.v)
                && PUpTo(keys - {idx}, ps[idx.n := PQ(idx.n, cert.digest, idx.v)])
              else PUpTo(keys - {idx}, ps)
    {
      hide Prepared;
      assert idx == Slot(now.view, idx.n);
    }

    lemma LogWindow()
      requires cfg.Valid() && Recorded()
      ensures Window(cfg, now)
    {
      hide Window, Inv, Recorded;
      NowInv();
      WindowFacts(cfg, now);
    }

    lemma PComplete(ps: map<nat, PQ>)
      requires PUpTo({}, ps)
      ensures ps == CalcP(cfg, now)
    {
      hide Prepared;
      forall n | SlotPrepared(cfg, now, Slot(now.view, n)) ensures n in CertNumbers(now) {
        assert Slot(now.view, n) in now.certs;
      }
    }

    ghost predicate QUpTo(keys: set<Slot>, qs: map<QKey, PQ>)
      reads `now
    {
      && (forall k :: k in qs <==> k in now.qset || (Slot(now.view, k.n) !in keys && KeyPrePrepared(now, k)))
      && (forall k :: k in qs ==>
            qs[k] == if Slot(now.view, k.n) !in keys && KeyPrePrepared(now, k) then PQ(k.n, k.d, now.view)
                     else now.qset[k])
    }

    method CalcQSet() returns (qs: map<QKey, PQ>)
      requires cfg.Valid() && Recorded() && LogShows(now)
      ensures qs == CalcQ(now)
    {
      hide Recorded, QUpTo, CalcQ, PrePrepared, Window;
      LogWindow();
      QStart();
      qs := qset;
      var keys := certStore.Keys;
      while keys != {}
        invariant keys <= certStore.Keys
        invariant QUpTo(keys, qs)
        decreases |keys|
      {
        var idx :| idx in keys;
        QNext(keys, qs, idx);
        var cert := certStore[idx];
        keys := keys - {idx};
        if cert.prePrepare.None? {
          continue;
        }
        var found := IsPrePrepared(cert.digest, idx.v, idx.n);
        if !found {
          continue;
        }
        var qi := QKey(cert.digest, idx.n);
        if qi in qs && qs[qi].v > idx.v {
          continue;
        }
        qs := qs[qi := PQ(idx.n, cert.digest, idx.v)];
      }
      QComplete(qs);
    }

    lemma QStart()
      ensures QUpTo(now.certs.Keys, now.qset)
    {
      hide PrePrepared;
    }

    lemma QNext(keys: set<Slot>, qs: map<QKey, PQ>, idx: Slot)
      requires cfg.Valid() && Window(cfg, now) && QUpTo(keys, qs) && idx in keys && keys <= now.certs.Keys
      ensures var cert := now.certs[idx]; var qi := QKey(cert.digest, idx.n);
              if cert.prePrepare.Some? && PrePrepared(now, cert.digest, idx.v, idx.n) then
                && !(qi in qs && qs[qi].v > idx.v)
                && QUpTo(keys - {idx}, qs[qi := PQ(idx.n, cert.digest, idx.v)])
              else QUpTo(keys - {idx}, qs)
    {
      hide PrePrepared;
      assert idx == Slot(now.view, idx.n);
    }

    lemma QComplete(qs: map<QKey, PQ>)
      requires QUpTo({}, qs)
      ensures qs == CalcQ(now)
    {
      forall k | KeyPrePrepared(now, k) ensures k in CertKeys(now) {
        assert Slot(now.view, k.n) in now.certs;
      }
    }

    // ----- Watermarks -----

    /** Everything at or below low goes. */
    method Prune(ghost s: State, low: nat)
      requires Holds(s) && Hashed(reqBatchStore)
      modifies `certStore, `reqBatchStore, `checkpointStore, `pset, `qset, `chkpts, `h
      ensures Holds(Move(s, low)) && Hashed(reqBatchStore)
    {
      hide Hashed, Move, DigestsBelow, CertsOver, CheckpointsOver, KeysOver, EntriesOver, CheckpointsFrom;
      PruneLog(s, low);
      PruneSets(s, low);
      h := low;
      MoveFields(s, low);
    }

    method PruneLog(ghost s: State, low: nat)
      requires certStore == s.certs && reqBatchStore.Keys == s.batches && checkpointStore == s.ckpts
      requires Hashed(reqBatchStore)
      modifies `certStore, `reqBatchStore, `checkpointStore
      ensures certStore == CertsOver(s.certs, low)
      ensures reqBatchStore.Keys == s.batches - DigestsBelow(s.certs, s.certs.Keys, low)
      ensures checkpointStore == CheckpointsOver(s.ckpts, low)
      ensures Hashed(reqBatchStore)
    {
      hide Hashed, DigestsBelow, CertsOver, CheckpointsOver;
      certStore, reqBatchStore := DropCerts(certStore, reqBatchStore, low);
      checkpointStore := CheckpointsAbove(checkpointStore, low);
    }

    method PruneSets(ghost s: State, low: nat)
      requires pset == s.pset && qset == s.qset && chkpts == s.chkpts
      modifies `pset, `qset, `chkpts
      ensures pset == EntriesOver(s.pset, low)
      ensures qset == KeysOver(s.qset, low)
      ensures chkpts == CheckpointsFrom(s.chkpts, low)
    {
      pset := EntriesAbove(pset, low);
      qset := KeysAbove(qset, low);
      chkpts := OwnCheckpointsFrom(chkpts, low);
    }

    static lemma MoveFields(s: State, low: nat)
      ensures var s' := Move(s, low);
              && s'.certs == CertsOver(s.certs, low)
              && s'.batches == s.batches - DigestsBelow(s.certs, s.certs.Keys, low)
              && s'.ckpts == CheckpointsOver(s.ckpts, low)
              && s'.pset == EntriesOver(s.pset, low)
              && s'.qset == KeysOver(s.qset, low)
              && s'.chkpts == CheckpointsFrom(s.chkpts, low)
      ensures var s' := Move(s, low);
              && s'.id == s.id && s'.h == low && s'.active == s.active && s'.seqNo == s.seqNo
              && s'.lastExec == s.lastExec
              && s'.exec == s.exec && s'.skip == s.skip
    {
      hide LosesBatch;
    }

    /** The low watermark becomes n, rounded down. */
    method DropBelow(n: nat, ghost why: Reason)
      requires cfg.Valid() && Recorded() && Shows(now) && view == now.view && Links(now.execs)
      requires Warranted(cfg, now, why, n)
      requires reqBatchStore.Keys == if why.OnReports? then {} else now.batches
      modifies `certStore, `reqBatchStore, `checkpointStore, `pset, `qset, `chkpts, `h, `now, `log
      ensures Valid() && now == Moved(cfg, old(now), why, n) && log == old(log) + [now]
      ensures Pending() == old(Pending()) && Evolves(old(Snap()), Snap()) && Stays()
      ensures now.lagging ==> old(now).lagging || old(now).SpecExec() < cfg.Floor(n)
      ensures h == cfg.Floor(n)
    {
      hide Next, Plain, SamePrepares, Recorded, Links, Evolves, InStep, Settled, Unsent, Warranted, Hashed, Inv, Move,
           Moved, Holds, ViewsLeft, NullsLeft, WaitingViews, WaitingNulls;
      NowInv();
      FloorIsRounding(cfg, n);
      BatchesAreHashed();
      ghost var s, s' := MovedFrom(cfg, now, why, n);
      ShowsBatches(s);
      Prune(s, n / cfg.K * cfg.K);
      LinksOfBatches();
      Record(s');
      ShowsLow();
    }

    lemma ShowsBatches(s: State)
      requires Shows(now) && s == now.(batches := s.batches) && reqBatchStore.Keys == s.batches
      ensures Holds(s)
    {
    }

    static lemma MovedFrom(cfg: Config, s: State, why: Reason, n: nat) returns (before: State, s': State)
      requires cfg.Valid() && Inv(cfg, s) && Warranted(cfg, s, why, n)
      ensures s' == Moved(cfg, s, why, n) && Next(cfg, s, s') && Plain(s, s') && SamePrepares(s, s')
      ensures before == s.(batches := if why.OnReports? then {} else s.batches) && s' == Move(before, cfg.Floor(n))
      ensures s'.lagging ==> s.lagging || s.SpecExec() < cfg.Floor(n)
      ensures s'.h == cfg.Floor(n) && s'.made == s.made && s'.execs == s.execs && s'.view == s.view
    {
      hide Inv, Warranted, Next, Plain, SamePrepares;
      MoveIsPlain(cfg, s, why, n);
      MoveIsStep(cfg, s, why, n);
      MoveLags(cfg, s, why, n);
      before, s' := s.(batches := if why.OnReports? then {} else s.batches), Moved(cfg, s, why, n);
    }

    lemma ShowsLow()
      requires Holds(now)
      ensures h == now.h
    {
    }

    // ----- View changes -----

    /** The replica turns to the next view: what was prepared is carried over, older messages go. */
    method TurnOver()
      requires cfg.Valid() && Recorded() && LogShows(now) && pset == now.pset
      modifies `view, `activeView, `pset, `qset, `certStore, `viewChangeStore, `newViewStore
      ensures view == old(view) + 1 && !activeView
      ensures newViewStore == old(newViewStore) - {old(view)}
      ensures pset == CalcP(cfg, now) && qset == CalcQ(now)
      ensures certStore == CertsOfView(old(certStore), view)
      ensures viewChangeStore == StoredFrom(old(viewChangeStore), view)
    {
      hide Recorded, CalcP, CalcQ;
      newViewStore := newViewStore - {view};
      view := view + 1;
      activeView := false;
      pset := CalcPSet();
      qset := CalcQSet();
      certStore := CertsFrom(certStore, view);
      viewChangeStore := ViewChangesFrom(viewChangeStore, view);
    }

    method DescribeSelf() returns (vc: ViewChange)
      requires cfg.Valid() && Recorded() && now.id == id && h == now.h && chkpts == now.chkpts
      requires pset == CalcP(cfg, now) && qset == CalcQ(now)
      ensures DescribesReplica(cfg, now, vc) && vc.v == view && vc.sender == id
    {
      hide Recorded, CalcP, CalcQ, ListsP, ListsQ, ListsCheckpoints;
      PQKeys();
      var cset := ListCheckpoints(chkpts);
      var ps := ListP(pset);
      var qs := ListQ(qset);
      vc := ViewChange(view, h, cset, ps, qs, id);
    }

    lemma PQKeys()
      requires cfg.Valid() && Recorded()
      ensures forall n :: n in CalcP(cfg, now) ==> CalcP(cfg, now)[n].n == n
      ensures forall k :: k in CalcQ(now) ==> QKey(CalcQ(now)[k].d, CalcQ(now)[k].n) == k
    {
      hide Recorded, SlotPrepared, KeyPrePrepared;
      LogWindow();
    }

    /** The replica leaves its view, or the one before minView that it was told to jump to. */
    method LeaveView() returns (vc: ViewChange)
      requires cfg.Valid() && Recorded() && Holds(now) && Links(now.execs) && now.view <= view && MayLeave(view + 1)
      modifies `view, `activeView, `pset, `qset, `certStore, `viewChangeStore, `newViewStore, `now, `log
      ensures Valid() && CanChangeView(cfg, old(now), vc) && now == DoChangeView(cfg, old(now), vc)
      ensures log == old(log) + [now]
      ensures Pending() == old(Pending()) + {ViewChangeMsg(vc)} && ViewChangeMsg(vc) in now.made
      ensures ViewChangeMsg(vc) !in old(now).made
      ensures Goes()
      ensures view == old(view) + 1 == vc.v && certStore == map[] && vc.sender == id && !activeView
      ensures viewChangeStore == StoredFrom(old(viewChangeStore), view)
      ensures newViewStore == old(newViewStore) - {old(view)}
    {
      hide Next, Recorded, Links, Evolves, InStep, Settled, Unsent, CalcP, CalcQ, DescribesReplica, CanChangeView,
           DoChangeView, Inv, Onward, WaitingViews, WaitingNulls, StoredFrom, Matches, Due, ForesawIn, Limit;
      NowInv();
      NothingSentUnmade();
      vc := Refile();
      ghost var s := Left(cfg, now, vc);
      UnsentWith(now.made, outbox, ViewChangeMsg(vc));
      RecordAny(s);
      ViewsShrink(old(newViewStore), old(now).view, old(now).active, newViewStore, view, false);
      LeavingEvolves(old(Snap()), Snap());
    }

    method Refile() returns (vc: ViewChange)
      requires cfg.Valid() && Recorded() && Holds(now) && Links(now.execs) && now.view <= view
      modifies `view, `activeView, `pset, `qset, `certStore, `viewChangeStore, `newViewStore
      ensures Links(now.execs) && CanChangeView(cfg, now, vc) && Matches(DoChangeView(cfg, now, vc))
      ensures view == old(view) + 1 == vc.v && certStore == map[] && vc.sender == id && !activeView
      ensures viewChangeStore == StoredFrom(old(viewChangeStore), view)
      ensures newViewStore == old(newViewStore) - {old(view)}
    {
      hide Next, Recorded, Links, CalcP, CalcQ, DescribesReplica, DoChangeView, Inv, Onward, StoredFrom, CertsOfView;
      NowInv();
      TurnOver();
      StoredIsOld(old(viewChangeStore), view);
      LinksOfViews();
      vc := DescribeSelf();
      ghost var s := Left(cfg, now, vc);
    }

    static lemma StoredIsOld(store: map<VcKey, ViewChange>, view: nat)
      ensures forall k :: k in StoredFrom(store, view) ==> k in store && StoredFrom(store, view)[k] == store[k]
    {
    }

    static lemma StoredKeys(store: map<VcKey, ViewChange>, view: nat)
      ensures forall k :: k in StoredFrom(store, view) <==> k in store && view <= k.v
    {
    }

    static lemma Left(cfg: Config, s: State, vc: ViewChange) returns (s': State)
      requires cfg.Valid() && Inv(cfg, s) && CanChangeView(cfg, s, vc)
      ensures s' == DoChangeView(cfg, s, vc) && Next(cfg, s, s') && Onward(s, s')
      ensures s' == s.(view := vc.v, active := false, pset := CalcP(cfg, s), qset := CalcQ(s), certs := map[],
                       made := s.made + {ViewChangeMsg(vc)})
      ensures CertsOfView(s.certs, vc.v) == map[]
      ensures ViewChangeMsg(vc) !in s.made
    {
      hide Inv, Next, Onward, CanChangeView, CalcP, CalcQ;
      ChangeViewIsStep(cfg, s, vc);
      NewerView(cfg, s, vc);
      EmptiesLog(cfg, s, vc.v);
      s' := DoChangeView(cfg, s, vc);
    }

    static lemma NewerView(cfg: Config, s: State, vc: ViewChange)
      requires CanChangeView(cfg, s, vc)
      ensures s.view < vc.v
    {
    }

    twostate lemma LinksOfViews()
      requires cfg.Valid() && old(Links(now.execs))
      requires unchanged(`now) && unchanged(`reqBatchStore) && unchanged(`outstandingReqBatches)
      requires unchanged(`hChkpts) && unchanged(`outbox) && unchanged(`executed) && unchanged(`viewChangeSeqNo)
      requires newViewStore == old(newViewStore) - {old(view)}
      requires forall k :: k in viewChangeStore ==>
                k in old(viewChangeStore) && viewChangeStore[k] == old(viewChangeStore)[k]
      ensures Links(now.execs)
    {
      hide BatchesHashed, Calls;
    }

    /** An own view-change for the present view was broadcast. */
    ghost predicate ViewChangeSent()
      reads `outbox, `view
    {
      exists vc :: ViewChangeMsg(vc) in outbox && vc.v == view && vc.sender == id
    }

    /** An own view-change for view v was broadcast. */
    ghost predicate SentViewChange(v: nat)
      reads `outbox
    {
      exists vc :: ViewChangeMsg(vc) in outbox && vc.v == v && vc.sender == id
    }

    /** The replica changes view. Its own message is filed with the others, unless the watermark has
        passed execution and the message fails the tests. */
    method SendViewChange() returns (quorum: bool)
      requires cfg.Valid() && Recorded() && Holds(now) && Links(now.execs) && now.view <= view && MayLeave(view + 1)
      modifies `view, `activeView, `pset, `qset, `certStore, `viewChangeStore, `newViewStore, `outbox, `now, `log
      ensures Valid() && Pending() == old(Pending()) && Goes()
      ensures old(view) < view && !activeView && certStore == map[]
      ensures ViewChangeSent() && SentViewChange(old(view) + 1)
      ensures exists vc: ViewChange :: vc.v == old(view) + 1 && ViewChangeMsg(vc) in outbox
                           && CanChangeView(cfg, old(now), vc) && old(log) + [DoChangeView(cfg, old(now), vc)] <= log
                           && ViewLeftWith(cfg, old(Mem()), Mem(), vc)
      ensures old(view) == old(now).view ==> ViewLeft(cfg, old(Mem()), Mem()) && Keeps() && LeftFor(old(now), now)
      ensures now.lagging == old(now).lagging && (!now.lagging ==> VcKey(view, id) in viewChangeStore)
      decreases |Above(viewChangeStore, view + 1)|, 2
    {
      hide Next, Recorded, Matches, Holds, Links, Evolves, InStep, Settled, Stepwise, Unsent, Inv, CorrectViewChange,
           StoredFrom, Above, CanChangeView, DoChangeView, Ahead, InView, MayLeave, ViewsLeft, NullsLeft, WaitingViews,
           WaitingNulls, ViewChangeHandled, LeftFor, Mem;
      StoredAbove(viewChangeStore, view + 1);
      MemFields();
      ghost var a, was := Snap(), Mem();
      var vc := MakeViewChange();
      ghost var mid := Snap();
      quorum := RecvViewChange(vc);
      EvolvesTrans(a, mid, Snap());
      Measured(mid, Snap());
      SentStays(ViewChangeMsg(vc), mid, Snap());
      FirstStays(a.log, DoChangeView(cfg, a.now, vc), mid.log, log);
      Fields();
      assert ViewLeftWith(cfg, was, Mem(), vc);
      if old(view) == a.now.view {
        LeavingSteps(a, Snap(), vc);
      }
    }

    /** The view is left, and the view-change for it made and broadcast. */
    method MakeViewChange() returns (vc: ViewChange)
      requires cfg.Valid() && Recorded() && Holds(now) && Links(now.execs) && now.view <= view && MayLeave(view + 1)
      modifies `view, `activeView, `pset, `qset, `certStore, `viewChangeStore, `newViewStore, `outbox, `now, `log
      ensures Valid() && Pending() == old(Pending()) && Goes()
      ensures CanChangeView(cfg, old(now), vc) && now == DoChangeView(cfg, old(now), vc) && log == old(log) + [now]
      ensures view == old(view) + 1 == vc.v && certStore == map[] && vc.sender == id == old(now).id && !activeView
      ensures viewChangeStore == StoredFrom(old(viewChangeStore), view)
      ensures forall k :: k in viewChangeStore <==> k in old(viewChangeStore) && view <= k.v
      ensures Mem() == old(Mem()).Then(now).Sent(ViewChangeMsg(vc)).(
                         viewChanges := viewChangeStore, newViews := old(newViewStore) - {vc.v - 1})
      ensures ViewChangeMsg(vc) in outbox && ViewChangeMsg(vc) in now.made
      ensures now.lagging == old(now).lagging && (!now.lagging ==> CorrectViewChange(cfg, vc))
    {
      hide Next, Recorded, Matches, Links, Evolves, InStep, Settled, Unsent, Inv, CorrectViewChange, StoredFrom,
           CanChangeView, DoChangeView, MayLeave, ViewsLeft, NullsLeft, WaitingViews, WaitingNulls, Mem;
      MemFields();
      ghost var a := Snap();
      vc := LeaveView();
      StoredKeys(old(viewChangeStore), view);
      SteppedWithViews();
      UnmadeIsNotUnsent(a.now.made, a.outbox, ViewChangeMsg(vc));
      LeaveKeepsLagging(a.now, vc);
      ghost var mid := Snap();
      label left:
      Broadcast(ViewChangeMsg(vc));
      Sends@left(ViewChangeMsg(vc));
      assert outbox[|outbox| - 1] == ViewChangeMsg(vc);
      EvolvesTrans(a, mid, Snap());
      if !now.lagging {
        NowInv();
        OwnViewChangeIsCorrect(cfg, now, vc);
      }
    }

    lemma LeaveKeepsLagging(s: State, vc: ViewChange)
      ensures DoChangeView(cfg, s, vc).lagging == s.lagging
    {
    }

    /** A view-change is filed. Enough of them for later views make the replica join the smallest; the
        result says whether those for the present view have become a quorum. */
    method RecvViewChange(vc: ViewChange) returns (quorum: bool)
      requires Valid() && ViewChangeMsg(vc) in now.Msgs()
      modifies `view, `activeView, `pset, `qset, `certStore, `viewChangeStore, `newViewStore, `outbox, `now, `log
      ensures Valid() && Pending() == old(Pending()) && Goes()
      ensures ViewChangeHandled(cfg, old(Mem()), Mem(), vc)
      ensures !Files(cfg, old(Mem()), vc) ==> unchanged(this) && !quorum
      ensures Files(cfg, old(Mem()), vc)
              && |Ahead(old(viewChangeStore)[VcKey(vc.v, vc.sender) := vc], old(view))| >= cfg.f + 1 ==>
                old(view) < view && !activeView && certStore == map[] && ViewChangeSent()
                && (!now.lagging ==> VcKey(view, id) in viewChangeStore)
                && exists own: ViewChange ::
                     && LeastAbove(old(viewChangeStore)[VcKey(vc.v, vc.sender) := vc], old(view), own.v)
                     && ViewChangeMsg(own) in outbox && CanChangeView(cfg, old(now), own)
                     && old(log) + [DoChangeView(cfg, old(now), own)] <= log
      ensures Files(cfg, old(Mem()), vc)
              && |Ahead(old(viewChangeStore)[VcKey(vc.v, vc.sender) := vc], old(view))| < cfg.f + 1 ==>
                && viewChangeStore == old(viewChangeStore)[VcKey(vc.v, vc.sender) := vc]
                && now == old(now) && outbox == old(outbox) && view == old(view) && newViewStore == old(newViewStore)
                && activeView == old(activeView) && certStore == old(certStore)
                && (quorum <==>
                      && !activeView && vc.v == view
                      && |InView(viewChangeStore, view)| >= cfg.AllCorrectReplicasQuorum())
      ensures now.lagging == old(now).lagging
      decreases |Above(viewChangeStore, view)| + (if vc.v > view then 1 else 0), 1
    {
      hide Next, Recorded, Matches, Holds, Links, Evolves, InStep, Settled, Unsent, Inv, CorrectViewChange, Above,
           Ahead, InView, LeastAbove, CanChangeView, DoChangeView, ViewChangeSent, Joined, ViewsLeft, NullsLeft,
           WaitingViews, WaitingNulls;
      Fields();
      EvolvesSelf(cfg, Snap());
      if vc.v < view {
        return false;
      }
      var ok := CheckViewChange(cfg, vc);
      if !ok {
        return false;
      }
      if VcKey(vc.v, vc.sender) in viewChangeStore {
        return false;
      }
      MemFields();
      ghost var was := Mem();
      quorum := FileViewChange(vc);
      JoinedSays(cfg, was, Mem(), was.viewChanges[VcKey(vc.v, vc.sender) := vc]);
    }

    method FileViewChange(vc: ViewChange) returns (quorum: bool)
      requires Valid() && view <= vc.v && ViewChangeMsg(vc) in now.Msgs()
      modifies `view, `activeView, `pset, `qset, `certStore, `viewChangeStore, `newViewStore, `outbox, `now, `log
      ensures Valid() && Pending() == old(Pending()) && Goes()
      ensures var store := old(viewChangeStore)[VcKey(vc.v, vc.sender) := vc];
              if |Ahead(store, old(view))| < cfg.f + 1 then Mem() == old(Mem()).(viewChanges := store)
              else Joined(cfg, old(Mem()), Mem(), store)
      ensures |Ahead(old(viewChangeStore)[VcKey(vc.v, vc.sender) := vc], old(view))| >= cfg.f + 1 ==>
                old(view) < view && !activeView && certStore == map[] && ViewChangeSent()
                && (!now.lagging ==> VcKey(view, id) in viewChangeStore)
      ensures |Ahead(old(viewChangeStore)[VcKey(vc.v, vc.sender) := vc], old(view))| < cfg.f + 1 ==>
                && viewChangeStore == old(viewChangeStore)[VcKey(vc.v, vc.sender) := vc]
                && now == old(now) && outbox == old(outbox) && view == old(view) && newViewStore == old(newViewStore)
                && activeView == old(activeView) && certStore == old(certStore)
                && (quorum <==>
                      && !activeView && vc.v == view
                      && |InView(viewChangeStore, view)| >= cfg.AllCorrectReplicasQuorum())
      ensures now.lagging == old(now).lagging
      decreases |Above(viewChangeStore, view)| + (if vc.v > view then 1 else 0), 0
    {
      hide Next, Recorded, Matches, Holds, Links, Evolves, InStep, Settled, Unsent, Above, Ahead, InView, LeastAbove,
           CanChangeView, DoChangeView, ViewChangeSent, MayLeave, Config.L, ViewsLeft, NullsLeft, WaitingViews,
           WaitingNulls, Joined, Mem;
      MemFields();
      EvolvesSelf(cfg, Snap());
      ghost var was := Mem();
      StoreViewChange(vc);
      ghost var store := viewChangeStore;
      Fields();
      var replicas, minView := ViewChangesAbove(viewChangeStore, view);
      if |replicas| >= cfg.f + 1 {
        AheadFromAbove(viewChangeStore, view);
        ghost var k := LeastIsThere(viewChangeStore, view, minView);
        JoiningShrinks(old(viewChangeStore), vc, view, k);
        quorum := JoinView(minView);
        JoinedAlike(cfg, was, store, Mem(), store);
        return;
      }
      var count := CountView(viewChangeStore, view);
      quorum := !activeView && vc.v == view && count >= cfg.AllCorrectReplicasQuorum();
    }

    /** f + 1 replicas are ahead: the replica leaves for the least of their views. */
    method JoinView(minView: nat) returns (quorum: bool)
      requires Valid() && |Ahead(viewChangeStore, view)| >= cfg.f + 1 && LeastAbove(viewChangeStore, view, minView)
      modifies `view, `activeView, `pset, `qset, `certStore, `viewChangeStore, `newViewStore, `outbox, `now, `log
      ensures Valid() && Pending() == old(Pending()) && Goes()
      ensures Joined(cfg, old(Mem()), Mem(), old(viewChangeStore))
      ensures old(view) < view && !activeView && certStore == map[] && ViewChangeSent()
      ensures now.lagging == old(now).lagging && (!now.lagging ==> VcKey(view, id) in viewChangeStore)
      decreases |Above(viewChangeStore, minView)|, 3
    {
      hide Next, Recorded, Matches, Holds, Links, Evolves, InStep, Settled, Unsent, Above, Ahead, LeastAbove,
           CanChangeView, DoChangeView, ViewChangeSent, MayLeave, ViewsLeft, NullsLeft, WaitingViews,
           WaitingNulls, ViewLeft, ViewLeftWith, SentViewChange, Stepwise, LeftFor, Joined, Mem;
      MemFields();
      Fields();
      ghost var was := Mem();
      ghost var k := LeastIsThere(viewChangeStore, view, minView);
      AheadJoins(minView);
      view := minView - 1;
      quorum := SendViewChange();
      MemFields();
      Fields();
      JoinedTo(cfg, was, Mem(), was.viewChanges, minView);
    }

    method StoreViewChange(vc: ViewChange)
      requires Valid() && ViewChangeMsg(vc) in now.Msgs()
      modifies `viewChangeStore
      ensures Valid() && viewChangeStore == old(viewChangeStore)[VcKey(vc.v, vc.sender) := vc]
      ensures Mem() == old(Mem()).(viewChanges := viewChangeStore)
    {
      hide Recorded, Matches, BatchesHashed, NewViewsStored, ReportsTracked, OutboxMade, CallsMade, PeriodKept;
      viewChangeStore := viewChangeStore[VcKey(vc.v, vc.sender) := vc];
    }

    /** The stored view-changes are messages of the replicas under which they are stored. */
    lemma AheadJoins(minView: nat)
      requires Valid() && |Ahead(viewChangeStore, view)| >= cfg.f + 1 && LeastAbove(viewChangeStore, view, minView)
      ensures MayLeave(minView)
    {
      hide Recorded, Matches, BatchesHashed, NewViewsStored, ReportsTracked, OutboxMade, CallsMade, PeriodKept,
           ForesawIn, Ends, Offends, TurnsDown;
      var ms := now.Msgs();
      forall x | x in Ahead(viewChangeStore, view) ensures x in Callers(ms, minView) {
        var k :| k in Above(viewChangeStore, view) && k.id == x;
        var m := ViewChangeMsg(viewChangeStore[k]);
        assert m in ms && m.ViewChangeMsg? && minView <= m.vc.v && m.vc.sender == x;
      }
      SubsetCard(Ahead(viewChangeStore, view), Callers(ms, minView));
    }

    static lemma LeastIsThere(store: map<VcKey, ViewChange>, view: nat, v: nat) returns (k: VcKey)
      requires LeastAbove(store, view, v)
      ensures k in Above(store, view) && k.v == v && view < v && forall j :: j in Above(store, view) ==> k.v <= j.v
    {
      k :| k in Above(store, view) && k.v == v;
    }

    static lemma AheadFromAbove(store: map<VcKey, ViewChange>, view: nat)
      ensures Ahead(store, view) != {} ==> Above(store, view) != {}
    {
    }

    // ----- New views -----

    /** The assignment of n is filed if n is above the watermark. */
    method FileAssignment(nv: NewView, n: nat, ghost done: set<nat>)
      requires Hashed(reqBatchStore) && reqBatchStore.Keys == now.batches
      requires certStore == FiledCerts(now, nv, done) && h == now.h && view == now.view == nv.v && now.id == id
      requires n in nv.xset && n !in done && h <= seqNo
      requires h < n && nv.xset[n] != Null ==> nv.xset[n] in reqBatchStore
      modifies `certStore, `seqNo
      ensures certStore == FiledCerts(now, nv, done + {n})
      ensures old(seqNo) <= seqNo && n <= seqNo && (seqNo == old(seqNo) || seqNo == n)
    {
      hide Hashed, FiledCerts;
      FiledOne(now, nv, done, n);
      FiledOther(now, nv, done, n);
      if n <= h {
        return;
      }
      var d := nv.xset[n];
      if d != Null {
        HashedBatch(reqBatchStore, d);
      }
      var preprep := PrePrepare(view, n, d, if d == Null then RequestBatch("") else reqBatchStore[d], id);
      certStore := certStore[Slot(view, n) := GetCert(view, n).(prePrepare := Some(preprep), digest := d)];
      if n > seqNo {
        seqNo := n;
      }
    }

    /** The pre-prepares of a new view are filed above the watermark, and the last number given out is
        the highest one assigned. */
    method FileAssignments(nv: NewView)
      requires Hashed(reqBatchStore) && reqBatchStore.Keys == now.batches
      requires certStore == now.certs && h == now.h && view == now.view == nv.v && now.id == id
      requires forall n :: n in nv.xset && h < n && nv.xset[n] != Null ==> nv.xset[n] in reqBatchStore
      modifies `certStore, `seqNo
      ensures certStore == ActivatedCerts(now, nv)
      ensures IsTop(now, nv, seqNo)
    {
      hide Hashed, FiledCerts, ActivatedCerts, IsTop;
      seqNo := h;
      var keys := nv.xset.Keys;
      ghost var done: set<nat> := {};
      FiledNone(now, nv);
      while keys != {}
        invariant keys <= nv.xset.Keys && done <= nv.xset.Keys
        invariant forall n :: n in nv.xset ==> (n in done <==> n !in keys)
        invariant certStore == FiledCerts(now, nv, done)
        invariant h <= seqNo && (forall n :: n in done ==> n <= seqNo) && (seqNo == h || seqNo in nv.xset)
        decreases |keys|
      {
        var n :| n in keys;
        keys := keys - {n};
        FileAssignment(nv, n, done);
        done := done + {n};
      }
      assert done == nv.xset.Keys;
      FiledAll(now, nv);
      TopOf(now, nv, seqNo);
    }

    static lemma TopOf(s: State, nv: NewView, top: nat)
      requires s.h <= top && (forall n :: n in nv.xset.Keys ==> n <= top) && (top == s.h || top in nv.xset)
      ensures IsTop(s, nv, top)
    {
    }

    /** The replica becomes active in its view with the assignments of the new-view, and the number of
        its automatic end is set. */
    method EnterView(nv: NewView, ghost cp: nat)
      requires Valid() && CanEnter(cfg, now, nv, cp) && view in newViewStore
      modifies `activeView, `newViewStore, `certStore, `seqNo, `viewChangeSeqNo, `now, `log
      ensures Valid() && log == old(log) + [now]
      ensures CanActivate(cfg, old(now), nv, cp, seqNo) && now == DoActivate(old(now), nv, cp, seqNo)
      ensures Pending() == old(Pending()) && Goes() && ViewsLeft() < old(ViewsLeft())
      ensures activeView && view == now.view
      ensures viewChangeSeqNo == cfg.ViewEnd(seqNo) && forall n :: n in nv.xset ==> viewChangeSeqNo != Some(n)
      ensures newViewStore == old(newViewStore) - {view - 1}
    {
      hide Next, Recorded, Links, Matches, Evolves, InStep, Settled, Unsent, Inv, Onward, ActivatedCerts, CanActivate,
           CanEnter, IsTop, WaitingViews, WaitingNulls, DoActivate, Due, Foresaw, Limit, Config.ViewEnd;
      NowInv();
      EnterFacts(cfg, now, nv, cp);
      FileEntry(nv, cp);
      ghost var s := Entered(cfg, now, nv, cp, seqNo);
      EnteringShrinks(old(newViewStore), view, newViewStore);
      RecordAny(s);
      EnteringEvolves(old(Snap()), Snap());
    }

    method FileEntry(nv: NewView, ghost cp: nat)
      requires Valid() && CanEnter(cfg, now, nv, cp)
      modifies `activeView, `newViewStore, `certStore, `seqNo, `viewChangeSeqNo
      ensures Matches(DoActivate(now, nv, cp, seqNo)) && Links(now.execs) && IsTop(now, nv, seqNo)
      ensures viewChangeSeqNo == cfg.ViewEnd(seqNo) && forall n :: n in nv.xset ==> viewChangeSeqNo != Some(n)
      ensures activeView && view == now.view && newViewStore == old(newViewStore) - {view - 1}
    {
      hide Recorded, Links, Matches, DoActivate, CanEnter, IsTop, Config.ViewEnd;
      EnterFacts(cfg, now, nv, cp);
      PresentLimit(now.execs);
      FileLog(nv, cp);
      UpdateViewChangeSeqNo();
      EndOfEntered(cfg, now, nv, seqNo);
      LinksOfEntry();
    }

    method FileLog(nv: NewView, ghost cp: nat)
      requires Valid() && CanEnter(cfg, now, nv, cp)
      modifies `activeView, `newViewStore, `certStore, `seqNo
      ensures Matches(DoActivate(now, nv, cp, seqNo)) && IsTop(now, nv, seqNo)
      ensures activeView && view == now.view && newViewStore == old(newViewStore) - {view - 1}
    {
      hide Recorded, Links, ActivatedCerts, Hashed, CanEnter, IsTop;
      BatchesAreHashed();
      EnterFacts(cfg, now, nv, cp);
      activeView := true;
      newViewStore := newViewStore - {view - 1};
      FileAssignments(nv);
    }

    static lemma EndOfEntered(cfg: Config, s: State, nv: NewView, top: nat)
      requires cfg.Valid() && IsTop(s, nv, top)
      ensures cfg.viewChangePeriod == 0 ==> cfg.ViewEnd(top).None?
      ensures forall n :: n in nv.xset ==> cfg.ViewEnd(top) != Some(n)
    {
      EndIsAbove(cfg, top);
    }

    static lemma EnterFacts(cfg: Config, s: State, nv: NewView, cp: nat)
      requires cfg.Valid() && CanEnter(cfg, s, nv, cp)
      ensures nv.v == s.view && 0 < s.view && !s.active
      ensures forall n :: n in nv.xset && s.h < n && nv.xset[n] != Null ==> nv.xset[n] in s.batches
    {
    }

    static lemma Entered(cfg: Config, s: State, nv: NewView, cp: nat, top: nat) returns (s': State)
      requires cfg.Valid() && Inv(cfg, s) && CanEnter(cfg, s, nv, cp) && IsTop(s, nv, top)
      ensures CanActivate(cfg, s, nv, cp, top)
      ensures s' == DoActivate(s, nv, cp, top) && Next(cfg, s, s') && Onward(s, s')
      ensures s' == s.(active := true, seqNo := top, certs := ActivatedCerts(s, nv), accepted := s'.accepted,
                       acts := s'.acts)
      ensures Limit(cfg, s') == cfg.ViewEnd(top)
    {
      hide Inv, CanEnter, IsTop, Next, Onward, ActivatedCerts, CanActivate, Limit;
      EnterIsStep(cfg, s, nv, cp, top);
      EnteredLimit(cfg, s, nv, cp, top);
      s' := DoActivate(s, nv, cp, top);
    }

    twostate lemma LinksOfEntry()
      requires cfg.Valid() && old(Links(now.execs))
      requires unchanged(`now) && unchanged(`reqBatchStore) && unchanged(`outstandingReqBatches)
      requires unchanged(`hChkpts) && unchanged(`outbox) && unchanged(`executed) && unchanged(`viewChangeStore)
      requires !now.active && (cfg.viewChangePeriod == 0 ==> viewChangeSeqNo == old(viewChangeSeqNo))
      requires forall v :: v in newViewStore ==> v in old(newViewStore) && newViewStore[v] == old(newViewStore)[v]
      ensures Links(now.execs)
    {
      hide BatchesHashed, Calls;
    }

    // ----- The chain of handlers -----

    /** Nothing can be executed now. */
    ghost predicate Exhausted()
      requires cfg.Valid()
      reads `now
    {
      now.exec.Some? || forall n :: !CanStartExec(cfg, now, n)
    }

    ghost predicate OwnCheckpointSent(n: nat)
      reads `outbox
    {
      exists k :: CheckpointMsg(k) in outbox && k.n == n && k.sender == id
    }

    /** A batch is kept; the primary of an active view tries to give it a number. */
    method RecvRequestBatch(b: RequestBatch)
      requires Valid()
      modifies this
      ensures Valid() && Pending() == old(Pending()) && Goes() && Stays()
      ensures BatchHandled(cfg, old(Mem()), Mem(), b)
      ensures old(log) + [Kept(old(now), b)] <= log
      ensures !(old(activeView) && cfg.Primary(old(view)) == id) ==>
                && now == Kept(old(now), b)
                && unchanged(`newViewStore) && unchanged(`missingReqBatches) && unchanged(`outbox)
      ensures MayIssue(cfg, old(now), b) ==> PrePrepareMsg(IssuedPrePrepare(old(now), b)) in outbox
      ensures HandedIn(cfg, log, outbox, b, |old(log)|)
      ensures outstandingReqBatches.Keys <= old(outstandingReqBatches.Keys) + {Hash(b)}
      decreases ViewsLeft(), NullsLeft(), Free(), 10
    {
      hide Next, Recorded, Links, Matches, Evolves, InStep, Settled, Unsent, MayIssue, IssuedPrePrepare,
           DoIssuePrePrepare, Submitted, Mem, HandedIn, ViewsLeft, NullsLeft, WaitingViews, WaitingNulls;
      Fields();
      MemFields();
      PresentInLog();
      IssueIgnoresBatches(cfg, now, b);
      ghost var a := Snap();
      KeepBatch(b);
      SteppedWithBatches();
      ghost var c := Snap();
      Measured(a, c);
      Fields();
      if cfg.Primary(view) == id && activeView {
        SendPrePrepare(b);
        Then(cfg, a, c, Snap());
        Measured(c, Snap());
        FirstStays(a.log, c.now, c.log, log);
      } else {
        MemFields();
        NothingToSubmit(cfg, Mem(), b);
      }
      HandedInFirst(cfg, a.log, c.now, log, outbox, b);
    }

    method OtherPrePrepare(n: nat, d: Digest) returns (found: bool)
      ensures found <==> exists slot :: slot in certStore && certStore[slot].prePrepare.Some? &&
                           var p := certStore[slot].prePrepare.value; p.v == view && p.n != n && p.d == d
    {
      var keys := certStore.Keys;
      while keys != {}
        invariant keys <= certStore.Keys
        invariant forall slot :: slot in certStore && slot !in keys && certStore[slot].prePrepare.Some? ==>
                    var p := certStore[slot].prePrepare.value; !(p.v == view && p.n != n && p.d == d)
        decreases |keys|
      {
        var idx :| idx in keys;
        keys := keys - {idx};
        var p := certStore[idx].prePrepare;
        if p.Some? && p.value.v == view && p.value.n != n && p.value.d == d {
          return true;
        }
      }
      return false;
    }

    /** When the next number may be given to b, said with the fields. */
    lemma RoomForNext(b: RequestBatch)
      requires Valid() && activeView && cfg.Primary(view) == id
      ensures MayIssue(cfg, now, b) <==>
                && h < seqNo + 1 <= h + cfg.L() / 2
                && (viewChangeSeqNo.Some? ==> seqNo + 1 <= viewChangeSeqNo.value)
                && forall slot :: slot in certStore && slot.n != seqNo + 1 && certStore[slot].prePrepare.Some? ==>
                     certStore[slot].prePrepare.value.d != Hash(b)
      ensures forall slot :: slot in certStore && certStore[slot].prePrepare.Some? ==>
                certStore[slot].prePrepare.value.v == view && certStore[slot].prePrepare.value.n == slot.n
    {
      hide Recorded, Links, Inv, CertOk, Limit;
      NowInv();
      PresentLimit(now.execs);
      forall slot | slot in certStore && certStore[slot].prePrepare.Some?
        ensures certStore[slot].prePrepare.value.v == view && certStore[slot].prePrepare.value.n == slot.n
      {
        FiledPrePrepare(cfg, now, slot);
      }
    }

    /** The primary gives the next number to a batch, which its callers have just kept. */
    method SendPrePrepare(b: RequestBatch)
      requires Valid() && activeView && cfg.Primary(view) == id && Hash(b) in now.batches
      modifies this
      ensures Valid() && Pending() == old(Pending()) && Goes() && Stays()
      ensures Submitted(cfg, old(Mem()), Mem(), b)
      ensures !MayIssue(cfg, old(now), b) ==> unchanged(this)
      ensures MayIssue(cfg, old(now), b) ==>
                && PrePrepareMsg(IssuedPrePrepare(old(now), b)) in outbox
                && old(log) + [DoIssuePrePrepare(old(now), b)] <= log
      ensures var n := old(seqNo) + 1;
              MayIssue(cfg, old(now), b) <==>
                && old(h) < n <= old(h) + cfg.L() / 2
                && (old(viewChangeSeqNo).Some? ==> n <= old(viewChangeSeqNo).value)
                && forall slot :: slot in old(certStore) && slot.n != n && old(certStore)[slot].prePrepare.Some? ==>
                     old(certStore)[slot].prePrepare.value.d != Hash(b)
      ensures outstandingReqBatches.Keys <= old(outstandingReqBatches.Keys)
      decreases ViewsLeft(), NullsLeft(), Free(), 9
    {
      hide Next, Recorded, Links, Matches, LogShows, Evolves, InStep, Settled, Unsent, Inv, MayIssue, DoIssuePrePrepare,
           IssuedPrePrepare, Issued, Mem, ViewsLeft, NullsLeft, WaitingViews, WaitingNulls;
      EvolvesSelf(cfg, Snap());
      Fields();
      MemFields();
      RoomForNext(b);
      var n := seqNo + 1;
      var other := OtherPrePrepare(n, Hash(b));
      if other {
        return;
      }
      if !(h < n <= h + cfg.L()) || n > h + cfg.L() / 2 {
        return;
      }
      if viewChangeSeqNo.Some? && n > viewChangeSeqNo.value {
        return;
      }
      GiveNumber(b);
    }

    method GiveNumber(b: RequestBatch)
      requires Valid() && activeView && cfg.Primary(view) == id && MayIssue(cfg, now, b) && Hash(b) in now.batches
      modifies this
      ensures Valid() && Pending() == old(Pending()) && Goes() && Stays()
      ensures Issued(cfg, old(Mem()), Mem(), b)
      ensures PrePrepareMsg(IssuedPrePrepare(old(now), b)) in outbox
      ensures old(log) + [DoIssuePrePrepare(old(now), b)] <= log
      ensures outstandingReqBatches.Keys <= old(outstandingReqBatches.Keys)
      decreases ViewsLeft(), NullsLeft(), Free(), 8
    {
      hide Next, Recorded, Links, Matches, Evolves, InStep, Settled, Unsent, MayIssue, DoIssuePrePrepare,
           IssuedPrePrepare, Prepared, Foresaw, CommitTried, Stepwise, Config.L, Config.Primary, Mem, ViewsLeft,
           NullsLeft, WaitingViews, WaitingNulls;
      ghost var a := Snap();
      Fields();
      MemFields();
      var n := SendNumber(b);
      ghost var e := Snap();
      Measured(a, e);
      ghost var owed := CommitOwed(cfg, now, Hash(b), n);
      if owed {
        NumberForeseen(a.now, b, n);
      }
      MaybeSendCommit(Hash(b), n);
      Then(cfg, a, e, Snap());
      if owed {
        ForesightSettles(cfg, a, Snap());
      }
      SentStays(PrePrepareMsg(IssuedPrePrepare(a.now, b)), e, Snap());
      Measured(e, Snap());
      FirstStays(a.log, DoIssuePrePrepare(a.now, b), e.log, log);
    }

    lemma NumberForeseen(before: State, b: RequestBatch, n: nat)
      requires Valid() && now == DoIssuePrePrepare(before, b) && CanIssuePrePrepare(cfg, before, b)
      requires n == before.seqNo + 1 && CommitOwed(cfg, now, Hash(b), n)
      ensures Foresaw(cfg, before)
    {
      hide Recorded, Matches, Links, Prepared, Inv, Foresaw;
      NowInv();
      OwedIsForeseen(cfg, before, b);
    }

    method SendNumber(b: RequestBatch) returns (n: nat)
      requires Valid() && activeView && cfg.Primary(view) == id && MayIssue(cfg, now, b) && Hash(b) in now.batches
      modifies `certStore, `seqNo, `outbox, `now, `log
      ensures Valid() && Pending() == old(Pending()) && Goes() && Stays()
      ensures PrePrepareMsg(IssuedPrePrepare(old(now), b)) in outbox
      ensures CanIssuePrePrepare(cfg, old(now), b) && n == old(now).seqNo + 1
      ensures log == old(log) + [now] && now == DoIssuePrePrepare(old(now), b)
      ensures Mem() == old(Mem()).Then(now).Sent(PrePrepareMsg(IssuedPrePrepare(old(now), b)))
      ensures Slot(view, n) in certStore
    {
      hide Next, Recorded, Links, Matches, Evolves, InStep, Settled, Unsent, Inv, CanNumber, DoIssuePrePrepare,
           IssuedPrePrepare, Limit, Config.L, Config.Primary, Mem, ViewsLeft, NullsLeft, WaitingViews, WaitingNulls;
      ghost var a := Snap();
      Fields();
      NowInv();
      FreshNumber(cfg, now);
      IssuedFacts(cfg, now, b);
      n := seqNo + 1;
      var preprep := PrePrepare(view, n, Hash(b), b, id);
      UnmadeIsNotUnsent(now.made, outbox, PrePrepareMsg(preprep));
      IssueNumber(b);
      Stepped();
      ghost var c := Snap();
      label issued:
      Broadcast(PrePrepareMsg(preprep));
      Sends@issued(PrePrepareMsg(preprep));
      assert outbox[|outbox| - 1] == PrePrepareMsg(preprep);
      Then(cfg, a, c, Snap());
      Fields();
    }

    /** A prepare is filed, once per sender and never from the primary; it may complete a quorum. */
    method RecvPrepare(p: Prepare)
      requires Valid() && PrepareMsg(p) in now.Msgs()
      modifies this
      ensures Valid() && Pending() == old(Pending()) && Goes() && Keeps()
      ensures PrepareHandled(cfg, old(Mem()), Mem(), p)
      ensures old(viewChangeSeqNo) != Some(p.n) ==> Stays()
      ensures !old(CanCountPrepare(cfg, now, p)) ==> unchanged(this)
      ensures old(CanCountPrepare(cfg, now, p)) ==> old(log) + [DoCountPrepare(old(now), p)] <= log
      ensures old(CanCountPrepare(cfg, now, p)) && CommitOwed(cfg, DoCountPrepare(old(now), p), p.d, p.n) ==>
                CommitMsg(Commit(p.v, p.n, p.d, id)) in outbox
      ensures outstandingReqBatches.Keys <= old(outstandingReqBatches.Keys)
      decreases ViewsLeft(), NullsLeft(), Free(), 8
    {
      hide Next, Recorded, Links, Matches, LogShows, Evolves, InStep, Settled, Stepwise, Unsent, Prepared, CommitOwed,
           CommitTried, Mem, ViewsLeft, NullsLeft, WaitingViews, WaitingNulls;
      ghost var a := Snap();
      EvolvesSelf(cfg, a);
      Fields();
      MemFields();
      if cfg.Primary(p.v) == p.sender {
        return;
      }
      if !(view == p.v && h < p.n <= h + cfg.L()) {
        return;
      }
      var cert := GetCert(p.v, p.n);
      for i := 0 to |cert.prepare|
        invariant forall j :: 0 <= j < i ==> cert.prepare[j].sender != p.sender
      {
        if cert.prepare[i].sender == p.sender {
          assert cert.prepare[i] in cert.prepare;
          return;
        }
      }
      AddPrepare(p);
      Stepped();
      ghost var c := Snap();
      Measured(a, c);
      Fields();
      MaybeSendCommit(p.d, p.n);
      Then(cfg, a, c, Snap());
      Measured(c, Snap());
      FirstStays(a.log, c.now, c.log, log);
    }

    /** A prepared certificate is committed to, once. */
    method MaybeSendCommit(d: Digest, n: nat)
      requires Valid() && Slot(view, n) in certStore
      modifies this
      ensures Valid() && Pending() == old(Pending()) && Goes() && Keeps()
      ensures CommitTried(cfg, old(Mem()), Mem(), d, n)
      ensures old(viewChangeSeqNo) != Some(n) ==> Stays()
      ensures !CommitOwed(cfg, old(now), d, n) ==> unchanged(this)
      ensures CommitOwed(cfg, old(now), d, n) ==>
                && CommitMsg(Commit(old(view), n, d, id)) in outbox
                && old(log) + [DoCastCommit(old(now), n)] <= log
      ensures outstandingReqBatches.Keys <= old(outstandingReqBatches.Keys)
      decreases ViewsLeft(), NullsLeft(), Free(), 7
    {
      hide Next, Recorded, Links, Matches, LogShows, Evolves, InStep, Settled, Unsent, Prepared, Inv, SlotPrepared,
           DoCastCommit, CommitSent, Stepwise, Config.L, Config.Primary, Mem, ViewsLeft, NullsLeft, WaitingViews,
           WaitingNulls;
      ghost var a := Snap();
      EvolvesSelf(cfg, a);
      Fields();
      MemFields();
      Then(cfg, a, a, a);
      var ready := IsPrepared(d, view, n);
      if !ready || GetCert(view, n).sentCommit {
        return;
      }
      SendCommit(d, n);
    }

    method SendCommit(d: Digest, n: nat)
      requires Valid() && CommitOwed(cfg, now, d, n)
      modifies this
      ensures Valid() && Pending() == old(Pending()) && Goes() && Keeps()
      ensures CommitSent(cfg, old(Mem()), Mem(), d, n)
      ensures old(viewChangeSeqNo) != Some(n) ==> Stays()
      ensures CommitMsg(Commit(old(view), n, d, id)) in outbox
      ensures old(log) + [DoCastCommit(old(now), n)] <= log
      ensures outstandingReqBatches.Keys <= old(outstandingReqBatches.Keys)
      decreases ViewsLeft(), NullsLeft(), Free(), 7, 0
    {
      hide Next, Recorded, Links, Matches, Evolves, InStep, Settled, Stepwise, Unsent, Prepared, Inv, SlotPrepared,
           DoCastCommit, CommitHandled, Config.L, Config.Primary, Mem, ViewsLeft, NullsLeft, WaitingViews, WaitingNulls;
      ghost var a := Snap();
      Fields();
      MemFields();
      NowInv();
      PreparedFacts(cfg, now, d, n);
      CertFacts(cfg, now, Slot(view, n));
      UnsentCommit(cfg, now, n);
      var commit := Commit(view, n, d, id);
      UnmadeIsNotUnsent(now.made, outbox, CommitMsg(commit));
      MarkCommitted(n);
      Stepped();
      ghost var c := Snap();
      Measured(a, c);
      CommitIsMade(cfg, a.now, n);
      RecvCommit(commit);
      ghost var e := Snap();
      Then(cfg, a, c, e);
      Measured(c, e);
      FirstStays(a.log, c.now, c.log, log);
      label counted:
      Broadcast(CommitMsg(commit));
      Sends@counted(CommitMsg(commit));
      assert outbox[|outbox| - 1] == CommitMsg(commit);
      Then(cfg, a, e, Snap());
    }

    /** A commit is filed, once per sender. If the certificate is committed now, everything that can be
        executed is executed, and the view is left at the appointed number. */
    method RecvCommit(m: Commit)
      requires Valid() && CommitMsg(m) in now.Msgs()
      modifies this
      ensures Valid() && Pending() == old(Pending()) && Goes() && Keeps()
      ensures CommitHandled(cfg, old(Mem()), Mem(), m)
      ensures old(viewChangeSeqNo) != Some(m.n) ==> Stays()
      ensures !old(CanCountCommit(cfg, now, m)) ==> unchanged(this)
      ensures old(CanCountCommit(cfg, now, m)) ==> old(log) + [DoCountCommit(old(now), m)] <= log
      ensures old(CanCountCommit(cfg, now, m)) && Committed(cfg, DoCountCommit(old(now), m), m.d, m.v, m.n) ==>
                && Exhausted() && m.d !in outstandingReqBatches
                && (old(viewChangeSeqNo) == Some(m.n) ==> old(view) < view && SentViewChange(old(view) + 1))
      ensures outstandingReqBatches.Keys <= old(outstandingReqBatches.Keys)
      decreases ViewsLeft(), NullsLeft(), Free(), 6
    {
      hide Next, Recorded, Links, Matches, LogShows, Evolves, InStep, Settled, Stepwise, Unsent, Committed, Exhausted,
           DoCountCommit, Inv, CommitHandled, SentViewChange, Mem, ViewsLeft, NullsLeft, WaitingViews, WaitingNulls;
      ghost var a := Snap();
      EvolvesSelf(cfg, a);
      Then(cfg, a, a, a);
      Fields();
      MemFields();
      CommitIgnored(cfg, Mem(), m);
      if !(view == m.v && h < m.n <= h + cfg.L()) {
        return;
      }
      var cert := GetCert(m.v, m.n);
      for i := 0 to |cert.commit|
        invariant forall j :: 0 <= j < i ==> cert.commit[j].sender != m.sender
      {
        if cert.commit[i].sender == m.sender {
          assert cert.commit[i] in cert.commit;
          return;
        }
      }
      CountCommit(m);
    }

    method CountCommit(m: Commit)
      requires Valid() && CanCountCommit(cfg, now, m)
      modifies this
      ensures Valid() && Pending() == old(Pending()) && Goes() && Keeps()
      ensures CommitHandled(cfg, old(Mem()), Mem(), m)
      ensures old(viewChangeSeqNo) != Some(m.n) ==> Stays()
      ensures old(log) + [DoCountCommit(old(now), m)] <= log
      ensures Committed(cfg, DoCountCommit(old(now), m), m.d, m.v, m.n) ==>
                && Exhausted() && m.d !in outstandingReqBatches
                && (old(viewChangeSeqNo) == Some(m.n) ==> old(view) < view && SentViewChange(old(view) + 1))
      ensures outstandingReqBatches.Keys <= old(outstandingReqBatches.Keys)
      decreases ViewsLeft(), NullsLeft(), Free(), 5
    {
      hide Next, Recorded, Links, Matches, LogShows, Evolves, InStep, Settled, Stepwise, Unsent, Committed, Exhausted,
           DoCountCommit, CanCountCommit, Inv, SawCommitted, CommitActed, CommitHandled, LeftFor, SentViewChange, Mem,
           ViewsLeft, NullsLeft, WaitingViews, WaitingNulls;
      ghost var a, was := Snap(), Mem();
      Fields();
      MemFields();
      CountedFields(cfg, now, m);
      AddCommit(m);
      Stepped();
      ghost var c := Snap();
      Measured(a, c);
      Fields();
      var ok := IsCommitted(m.d, m.v, m.n);
      if ok {
        NowInv();
        CommittedIsSeen(cfg, now, m.d, m.n);
        ActOnCommit(m);
        Then(cfg, a, c, Snap());
        Measured(c, Snap());
        FirstStays(a.log, c.now, c.log, log);
      } else {
        EvolvesSelf(cfg, c);
        Then(cfg, a, c, c);
      }
      CommitCounted(cfg, was, Mem(), m);
    }

    /** The request is done with, what can be executed is executed, and the view is left if this was its
        last number. */
    method ActOnCommit(m: Commit)
      requires Valid() && m.v == now.view && now.active && SawCommitted(cfg, now, PQ(m.n, m.d, m.v))
      modifies this
      ensures Valid() && Pending() == old(Pending()) && Goes() && Keeps()
      ensures CommitActed(cfg, old(Mem()), Mem(), m)
      ensures old(viewChangeSeqNo) != Some(m.n) ==> Stays()
      ensures old(viewChangeSeqNo) == Some(m.n) ==> old(view) < view && SentViewChange(old(view) + 1)
      ensures m.d !in outstandingReqBatches
      ensures Exhausted()
      ensures outstandingReqBatches.Keys <= old(outstandingReqBatches.Keys)
      decreases ViewsLeft(), NullsLeft(), Free(), 5, 0
    {
      hide Next, Recorded, Links, Matches, Evolves, InStep, Settled, Stepwise, Unsent, Inv, Exhausted, SawCommitted,
           NoMore, Executed, NextTried, ViewLeft, CommitActed, LeftFor, SentViewChange, Mem, ViewsLeft, NullsLeft,
           WaitingViews, WaitingNulls;
      ghost var a, was := Snap(), Mem();
      Fields();
      MemFields();
      PresentInLog();
      NowInv();
      ForgetOutstanding(m.d);
      ExecuteOutstanding();
      MemFields();
      ghost var e, done := Snap(), Mem();
      Measured(a, e);
      EndView(a, m);
      Then(cfg, a, e, Snap());
      ActedOn(cfg, was, done, Mem(), m);
      if a.vcSeqNo == Some(m.n) {
        LeftIsSent(cfg, a.now, a.outbox, now, outbox);
      }
    }

    /** The view is left if m was for its last number. Before the commit was acted on, the replica was as
        in a. */
    method EndView(ghost a: Snapshot, m: Commit)
      requires Valid() && Exhausted() && Evolves(a, Snap()) && Settled(cfg, a, Snap())
      requires a.log != [] && a.log[|a.log| - 1] == a.now
      requires m.v == a.now.view && a.now.active && SawCommitted(cfg, a.now, PQ(m.n, m.d, m.v))
      modifies `view, `activeView, `pset, `qset, `certStore, `viewChangeStore, `newViewStore, `outbox, `now, `log
      ensures Valid() && Pending() == old(Pending()) && Goes() && Exhausted()
      ensures if old(viewChangeSeqNo) == Some(m.n) then ViewLeft(cfg, old(Mem()), Mem()) else Mem() == old(Mem())
      ensures Stepwise(a, Snap()) && (a.vcSeqNo != Some(m.n) ==> Settled(cfg, a, Snap()))
      ensures a.vcSeqNo == Some(m.n) ==> a.now.view < view && LeftFor(a.now, now)
      decreases ViewsLeft(), NullsLeft(), Free(), 4, 1
    {
      hide Next, Recorded, Links, Matches, Evolves, InStep, Settled, Stepwise, Unsent, Inv, Exhausted, SawCommitted,
           NoMore, ViewLeft, LeftFor, Mem, ViewsLeft, NullsLeft, WaitingViews, WaitingNulls;
      Fields();
      ghost var e := Snap();
      EvolvesSelf(cfg, e);
      Then(cfg, a, e, e);
      Then(cfg, e, e, e);
      if viewChangeSeqNo == Some(m.n) {
        CycleView(a, m);
        Then(cfg, a, e, Snap());
        if a.vcSeqNo != Some(m.n) {
          SettledElsewhere(cfg, a, e, Snap());
        }
        NothingToExecute();
      }
      if a.vcSeqNo == Some(m.n) {
        ViewEnds(cfg, a, e, Snap());
      }
      Fields();
    }

    /** What was made in the meantime is broadcast when nothing more is unsent than before. */
    lemma LeftIsSent(cfg: Config, s: State, sent: seq<Msg>, s': State, sent': seq<Msg>)
      requires cfg.Valid() && Inv(cfg, s) && LeftFor(s, s') && Unsent(s'.made, sent') == Unsent(s.made, sent)
      requires s.id == id && sent' == outbox
      ensures SentViewChange(s.view + 1)
    {
      hide Inv;
      OldViewChanges(cfg, s);
      var vc: ViewChange :| vc.v == s.view + 1 && vc.sender == s.id && ViewChangeMsg(vc) in s'.made;
      assert ViewChangeMsg(vc) !in Unsent(s.made, sent);
    }

    lemma PresentInLog()
      requires cfg.Valid() && Recorded()
      ensures log != [] && log[|log| - 1] == now
    {
    }

    /** The replica is still in the view of the commit, or it had foreseen the next number. */
    lemma EndOfView(a: Snapshot, m: Commit)
      requires Valid() && viewChangeSeqNo == Some(m.n) && Evolves(a, Snap()) && Settled(cfg, a, Snap())
      requires a.log != [] && a.log[|a.log| - 1] == a.now
      requires m.v == a.now.view && a.now.active && SawCommitted(cfg, a.now, PQ(m.n, m.d, m.v))
      ensures MayLeave(view + 1)
    {
      hide Recorded, Links, SawCommitted, Foresaw, Inv, Limit, Joins, Offends, TurnsDown, NoMore;
      if Foresaw(cfg, a.now) {
        assert log[|a.log| - 1] == a.now;
      } else {
        NowInv();
        SeenStays(cfg, a.now, now, PQ(m.n, m.d, m.v));
        PresentLimit(now.execs);
        assert PQ(m.n, m.d, m.v).v == now.view;
      }
    }

    method CycleView(ghost a: Snapshot, m: Commit)
      requires Valid() && viewChangeSeqNo == Some(m.n) && Evolves(a, Snap()) && Settled(cfg, a, Snap())
      requires a.log != [] && a.log[|a.log| - 1] == a.now
      requires m.v == a.now.view && a.now.active && SawCommitted(cfg, a.now, PQ(m.n, m.d, m.v))
      modifies `view, `activeView, `pset, `qset, `certStore, `viewChangeStore, `newViewStore, `outbox, `now, `log
      ensures Valid() && Pending() == old(Pending()) && Goes() && certStore == map[]
      ensures ViewLeft(cfg, old(Mem()), Mem()) && Keeps() && old(now).view < now.view && LeftFor(old(now), now)
      decreases ViewsLeft(), NullsLeft(), Free(), 4, 0
    {
      hide Next, Recorded, Links, Matches, Evolves, InStep, Settled, Stepwise, Unsent, SawCommitted, MayLeave,
           CanChangeView, ViewLeft, ViewLeftWith, LeftFor, Mem, ViewsLeft, NullsLeft, WaitingViews, WaitingNulls;
      Fields();
      EndOfView(a, m);
      var quorum := SendViewChange();
      Fields();
    }

    method ForgetOutstanding(d: Digest)
      requires Valid()
      modifies `outstandingReqBatches
      ensures Valid() && outstandingReqBatches == old(outstandingReqBatches) - {d}
      ensures Mem() == old(Mem()).(outstanding := outstandingReqBatches)
    {
      hide Recorded, NewViewsStored, ReportsTracked, OutboxMade, CallsMade, ViewChangesStored, PeriodKept;
      outstandingReqBatches := outstandingReqBatches - {d};
    }

    lemma NothingToExecute()
      requires cfg.Valid() && Matches(now) && certStore == map[]
      ensures Exhausted()
    {
    }

    /** At most one execution is started, and the chain behind it starts the next. */
    method ExecuteOutstanding()
      requires Valid()
      modifies this
      ensures Valid() && Pending() == old(Pending()) && Goes() && Stays()
      ensures Executed(cfg, old(Mem()), Mem()) && NextTried(cfg, old(Mem()), Mem())
      ensures Exhausted()
      ensures old(Exhausted()) ==> unchanged(this)
      ensures outstandingReqBatches.Keys <= old(outstandingReqBatches.Keys)
      decreases ViewsLeft(), NullsLeft(), Free(), 4
    {
      hide Next, Recorded, Links, Matches, LogShows, Evolves, InStep, Settled, Unsent, CanStartExec, Executed,
           NextTried, ViewsLeft, NullsLeft, WaitingViews, WaitingNulls;
      EvolvesSelf(cfg, Snap());
      Fields();
      NothingStarted(cfg, Mem());
      if currentExec.Some? {
        return;
      }
      var keys := certStore.Keys;
      while keys != {}
        invariant unchanged(this)
        invariant keys <= certStore.Keys
        invariant forall slot :: slot in certStore && slot !in keys ==> !CanStartExec(cfg, now, slot.n)
        decreases |keys|
      {
        var idx :| idx in keys;
        keys := keys - {idx};
        var done := ExecuteOne(idx);
        if done {
          return;
        }
      }
      OnlyFromLog();
    }

    lemma OnlyFromLog()
      requires Valid() && forall slot :: slot in certStore ==> !CanStartExec(cfg, now, slot.n)
      ensures Exhausted()
    {
      hide Recorded, Links, CanStartExec;
      forall n ensures !CanStartExec(cfg, now, n) {
        StartNeedsSlot(cfg, now, n);
      }
    }

    /** One certificate is executed if it is the next and committed. */
    method ExecuteOne(idx: Slot) returns (done: bool)
      requires Valid() && currentExec.None? && idx in certStore
      modifies this
      ensures Valid() && Pending() == old(Pending()) && Goes() && Stays()
      ensures done <==> old(CanStartExec(cfg, now, idx.n))
      ensures !done ==> unchanged(this)
      ensures done ==> Executed(cfg, old(Mem()), Mem()) && NextTried(cfg, old(Mem()), Mem())
      ensures done ==> old(log) + [DoStartExec(old(now), idx.n)] <= log && Exhausted()
      ensures outstandingReqBatches.Keys <= old(outstandingReqBatches.Keys)
      decreases ViewsLeft(), NullsLeft(), Free(), 3
    {
      hide Next, Recorded, Links, Matches, LogShows, Evolves, InStep, Settled, Unsent, Committed, DoStartExec, Executed,
           NextTried, CanStartExec, Mem, ViewsLeft, NullsLeft, WaitingViews, WaitingNulls;
      ghost var a := Snap();
      EvolvesSelf(cfg, a);
      Fields();
      LogWindow();
      assert idx == Slot(view, idx.n);
      var cert := certStore[idx];
      StartNeeds(cfg, now, idx.n);
      if idx.n != lastExec + 1 || cert.prePrepare.None? {
        return false;
      }
      if skipInProgress {
        return false;
      }
      var digest := cert.digest;
      var ok := IsCommitted(digest, idx.v, idx.n);
      if !ok {
        return false;
      }
      ExecuteNext(idx.n);
      return true;
    }

    method ExecuteNext(n: nat)
      requires Valid() && CanStartExec(cfg, now, n) && Slot(view, n) in certStore
      modifies this
      ensures Valid() && Pending() == old(Pending()) && Goes() && Stays()
      ensures Executed(cfg, old(Mem()), Mem()) && NextTried(cfg, old(Mem()), Mem())
      ensures old(log) + [DoStartExec(old(now), n)] <= log && Exhausted()
      ensures outstandingReqBatches.Keys <= old(outstandingReqBatches.Keys)
      decreases ViewsLeft(), NullsLeft(), Free(), 2
    {
      hide Next, Recorded, Links, Matches, Evolves, InStep, Settled, Unsent, Committed, DoStartExec, Executed,
           ExecutionEnded, NextTried, CanStartExec, Mem, ViewsLeft, NullsLeft, WaitingViews, WaitingNulls;
      ghost var a, was := Snap(), Mem();
      Fields();
      MemFields();
      StartExecFacts(cfg, now, n);
      var digest := certStore[Slot(view, n)].digest;
      BeginExec(n);
      Stepped();
      MemFields();
      ghost var c := Snap();
      Measured(a, c);
      ExecStarted(cfg, a.now, n);
      if digest == Null {
        Fields();
        ExecDoneSync();
        IdleThen(cfg, a, c, Snap());
        FirstStays(a.log, c.now, c.log, log);
        MemFields();
        OutboxGoesOn(a, Snap());
      }
      OneStarted(cfg, was, Mem());
    }

    /** The execution in flight is over: a checkpoint is due at every multiple of K, then the next
        execution. Called when nothing is in flight, it marks the replica as out of date. */
    method ExecDoneSync()
      requires Valid() && (currentExec.None? || currentExec == Some(lastExec + 1))
      modifies this
      ensures Valid() && Pending() == old(Pending()) && Stays()
      ensures Evolves(Idle(old(Snap())), Snap()) && InStep(old(Snap()), Snap())
      ensures Exhausted()
      ensures old(currentExec).None? ==> Mem() == old(Mem()).Then(old(now).(skip := true)) && skipInProgress
      ensures old(currentExec).Some? ==> ExecutionEnded(cfg, old(Mem()), Mem())
      ensures old(currentExec).Some? ==> old(log) + [old(now).(lastExec := old(now).lastExec + 1)] <= log
      ensures old(currentExec).Some? && cfg.IsMultiple(old(lastExec) + 1) ==> OwnCheckpointSent(old(lastExec) + 1)
      ensures outstandingReqBatches.Keys <= old(outstandingReqBatches.Keys)
      decreases ViewsLeft(), NullsLeft(), 3, 0
    {
      hide Next, Recorded, Links, Matches, Evolves, InStep, Settled, Unsent, Inv, Exhausted, CheckpointTaken, Executed,
           NextTried, Config.L, Config.Primary, Mem, ViewsLeft, NullsLeft, WaitingViews, WaitingNulls;
      ghost var a := Snap();
      Fields();
      MemFields();
      if currentExec.Some? {
        FinishCurrent();
        ghost var e := Snap();
        NoMoreFinished(a, e);
        ExecuteOutstanding();
        Then(cfg, Idle(a), e, Snap());
        IdleInStep(a, e, Snap());
        SettledTrans(cfg, a, e, Snap());
        Measured(e, Snap());
        CheckpointsStaySent(e);
        PrefixTrans(a.log + [a.now.(lastExec := a.now.lastExec + 1)], e.log, log);
      } else {
        FlagOutOfDate();
        IdleOfFree(a);
      }
    }

    /** The execution in flight becomes the last one, a checkpoint is taken if it is due, and the replica
        is free. */
    method FinishCurrent()
      requires Valid() && currentExec == Some(lastExec + 1)
      modifies this
      ensures Valid() && Pending() == old(Pending()) && Stays()
      ensures Evolves(Idle(old(Snap())), Snap()) && InStep(old(Snap()), Snap())
      ensures exists e :: CheckpointTaken(cfg, old(Mem()).Then(old(now).(lastExec := old(now).lastExec + 1)), e)
                          && Mem() == e.Then(e.now.(exec := None))
      ensures old(log) + [old(now).(lastExec := old(now).lastExec + 1)] <= log
      ensures cfg.IsMultiple(old(lastExec) + 1) ==> OwnCheckpointSent(old(lastExec) + 1)
      ensures outstandingReqBatches.Keys <= old(outstandingReqBatches.Keys)
      decreases ViewsLeft(), NullsLeft(), 2, 0
    {
      hide Next, Recorded, Links, Matches, Evolves, InStep, Settled, Unsent, Inv, CheckpointTaken, Config.L,
           Config.Primary, Mem, ViewsLeft, NullsLeft, WaitingViews, WaitingNulls;
      ghost var a := Snap();
      Fields();
      MemFields();
      NowInv();
      OldCheckpoints(cfg, now);
      SetLastExec();
      Stepped();
      ghost var b := Snap();
      Fields();
      NoMoreIdle(a, b);
      CloseExecution();
      DoneThen(cfg, a, b, Snap());
      FirstStays(a.log, b.now, b.log, log);
    }

    lemma CheckpointsStaySent(e: Snapshot)
      requires Evolves(e, Snap())
      ensures forall k :: CheckpointMsg(k) in e.outbox ==> CheckpointMsg(k) in outbox
    {
      hide Evolves, ViewsLeft, NullsLeft, WaitingViews, WaitingNulls;
      forall k | CheckpointMsg(k) in e.outbox ensures CheckpointMsg(k) in outbox {
        SentStays(CheckpointMsg(k), e, Snap());
      }
    }

    method FlagOutOfDate()
      requires Valid() && currentExec.None?
      modifies this
      ensures Valid() && Pending() == old(Pending()) && Goes() && Stays()
      ensures Exhausted()
      ensures Mem() == old(Mem()).Then(old(now).(skip := true)) && skipInProgress
      ensures outstandingReqBatches.Keys <= old(outstandingReqBatches.Keys)
      decreases ViewsLeft(), NullsLeft(), 1, 5
    {
      hide Next, Recorded, Links, Matches, Evolves, InStep, Settled, Unsent, Exhausted, Config.L, Config.Primary, Mem,
           Executed, NextTried, ViewsLeft, NullsLeft, WaitingViews, WaitingNulls;
      ghost var a := Snap();
      Fields();
      SetSkip();
      Stepped();
      ghost var b := Snap();
      Measured(a, b);
      SkipsAll();
      ExecuteOutstanding();
      Then(cfg, a, b, Snap());
      Fields();
    }

    lemma SkipsAll()
      requires cfg.Valid() && now.skip
      ensures Exhausted()
    {
    }

    /** A checkpoint is taken if one is due, and the replica is free again. */
    method CloseExecution()
      requires Valid() && currentExec == Some(lastExec)
      requires forall k :: CheckpointMsg(k) in now.made ==> k.n < lastExec
      modifies this
      ensures Valid() && Pending() == old(Pending())
      ensures Evolves(Idle(old(Snap())), Snap()) && InStep(Idle(old(Snap())), Snap()) && Stays()
      ensures exists e :: CheckpointTaken(cfg, old(Mem()), e) && Mem() == e.Then(e.now.(exec := None))
      ensures cfg.IsMultiple(old(lastExec)) ==> OwnCheckpointSent(old(lastExec))
      ensures outstandingReqBatches.Keys <= old(outstandingReqBatches.Keys)
      decreases ViewsLeft(), NullsLeft(), 1, 0
    {
      hide Next, Recorded, Links, Matches, Evolves, InStep, Settled, Unsent, Idle, CheckpointSent, Mem, ViewsLeft,
           NullsLeft, WaitingViews, WaitingNulls;
      ghost var b := Snap();
      Fields();
      MemFields();
      FloorIsRounding(cfg, lastExec);
      if lastExec % cfg.K == 0 {
        var stateId: StateId := *;
        TakeCheckpoint(stateId);
      } else {
        EvolvesSelf(cfg, b);
      }
      ghost var c := Snap();
      Measured(b, c);
      Fields();
      MemFields();
      label taken:
      ClearCurrentExec();
      Stepped@taken();
      FreedThen(cfg, b, c, Snap());
    }

    /** `Checkpoint`: at a multiple of K the replica takes and broadcasts a checkpoint. */
    method TakeCheckpoint(stateId: StateId)
      requires Valid() && currentExec == Some(lastExec)
      requires forall k :: CheckpointMsg(k) in now.made ==> k.n < lastExec
      modifies this
      ensures Valid() && Pending() == old(Pending()) && Goes() && Stays()
      ensures !cfg.IsMultiple(old(lastExec)) ==> unchanged(this)
      ensures cfg.IsMultiple(old(lastExec)) ==>
                && CheckpointSent(cfg, old(Mem()), Mem(), stateId)
                && OwnCheckpointSent(old(lastExec)) && old(log) + [DoTakeCheckpoint(old(now), stateId)] <= log
      ensures outstandingReqBatches.Keys <= old(outstandingReqBatches.Keys)
      decreases ViewsLeft(), NullsLeft(), Free(), 20
    {
      hide Next, Recorded, Links, Matches, Evolves, InStep, Settled, Unsent, Inv, CheckpointHandled, Mem, ViewsLeft,
           NullsLeft, WaitingViews, WaitingNulls;
      ghost var a := Snap();
      EvolvesSelf(cfg, a);
      Fields();
      MemFields();
      FloorIsRounding(cfg, lastExec);
      if lastExec % cfg.K != 0 {
        return;
      }
      var chkpt := Checkpoint(lastExec, id, stateId);
      UnmadeIsNotUnsent(now.made, outbox, CheckpointMsg(chkpt));
      AddOwnCheckpoint(stateId);
      Stepped();
      ghost var b := Snap();
      Measured(a, b);
      RecvCheckpoint(chkpt);
      ghost var c := Snap();
      Then(cfg, a, b, c);
      Measured(b, c);
      FirstStays(a.log, b.now, b.log, log);
      label counted:
      Broadcast(CheckpointMsg(chkpt));
      Sends@counted(CheckpointMsg(chkpt));
      assert outbox[|outbox| - 1] == CheckpointMsg(chkpt);
      Then(cfg, a, c, Snap());
    }

    /** A batch waits for a number when no certificate carries it. */
    method ResubmitRequestBatches()
      requires Valid()
      modifies this
      ensures Valid() && Pending() == old(Pending()) && Goes() && Stays()
      ensures Resubmitted(cfg, old(Mem()), Mem())
      ensures cfg.Primary(old(view)) != id ==> unchanged(this)
      ensures !old(activeView) ==>
                && now == old(now).(batches := now.batches) && old(now).batches <= now.batches
                && unchanged(`newViewStore) && unchanged(`missingReqBatches) && unchanged(`outbox)
                && unchanged(`outstandingReqBatches)
      ensures outstandingReqBatches.Keys <= old(outstandingReqBatches.Keys)
      ensures cfg.Primary(old(view)) == id ==>
                forall b :: Hash(b) in old(outstandingReqBatches) && !HasCertificate(old(certStore), Hash(b)) ==>
                  HandedSince(cfg, |old(log)|, Mem(), b)
      decreases ViewsLeft(), NullsLeft(), Free(), 11
    {
      hide Next, Recorded, Links, Matches, Evolves, InStep, Settled, Unsent, Inv, HandedSince, HandedIn, HasCertificate,
           MayIssue, IssuedPrePrepare, Config.L, Config.Primary, Resubmitted, KeptAlone, ViewsLeft, NullsLeft,
           WaitingViews, WaitingNulls, Mem;
      Fields();
      MemFields();
      ghost var a, was := Snap(), Mem();
      EvolvesSelf(cfg, a);
      if cfg.Primary(view) != id {
        NothingResubmitted(cfg, was);
        return;
      }
      BatchesAreHashed();
      var order := SubmissionOrder(certStore, outstandingReqBatches);
      SubmitAll(order);
      MemFields();
      ResubmittedAll(cfg, was, Mem(), order);
      if !a.now.active {
        KeptFields(was, Mem(), order);
      }
    }

    method SubmitAll(order: seq<RequestBatch>)
      requires Valid() && forall b :: b in order ==> Hash(b) in outstandingReqBatches
      modifies this
      ensures Valid() && Pending() == old(Pending()) && Goes() && Stays()
      ensures old(log) <= log && old(outbox) <= outbox
      ensures forall j :: 0 <= j < |order| ==> HandedSince(cfg, |old(log)|, Mem(), order[j])
      ensures !old(now).active ==> KeptAlone(old(Mem()), Mem(), order)
      ensures outstandingReqBatches.Keys <= old(outstandingReqBatches.Keys)
      decreases ViewsLeft(), NullsLeft(), Free(), 11, 0
    {
      hide Next, Recorded, Links, Matches, Evolves, InStep, Settled, Unsent, Inv, HandedSince, HandedIn,
           MayIssue, IssuedPrePrepare, Config.L, Config.Primary, BatchHandled, KeptAlone, Hashed, ViewsLeft, NullsLeft,
           WaitingViews, WaitingNulls, Mem;
      Fields();
      MemFields();
      BatchesAreHashed();
      ghost var a, was := Snap(), Mem();
      EvolvesSelf(cfg, a);
      KeptNone(was);
      for i := 0 to |order|
        invariant Valid() && Pending() == old(Pending())
        invariant Evolves(a, Snap()) && InStep(a, Snap()) && Settled(cfg, a, Snap())
        invariant outstandingReqBatches.Keys <= old(outstandingReqBatches.Keys)
        invariant a.log <= log && a.outbox <= outbox
        invariant forall j :: 0 <= j < i ==> HandedSince(cfg, |was.log|, Mem(), order[j])
        invariant !a.now.active ==> KeptAlone(was, Mem(), order[..i])
      {
        ghost var b, mid := Snap(), Mem();
        Measured(a, b);
        MemFields();
        assert order[i] in order;
        RecvRequestBatch(order[i]);
        Then(cfg, a, b, Snap());
        Measured(b, Snap());
        OutboxGoesOn(b, Snap());
        MemFields();
        HandedStays(cfg, was.log, mid, Mem(), order, i);
        if !a.now.active {
          KeptNext(cfg, was, mid, Mem(), order, i);
        }
      }
      assert order[..|order|] == order;
    }

    lemma ShownFields()
      requires Shows(now)
      ensures id == now.id && activeView == now.active && h == now.h && certStore == now.certs
    {
    }

    /** The watermark moves, and batches that wait for room are submitted again. */
    method MoveWatermarks(n: nat, ghost why: Reason)
      requires cfg.Valid() && Recorded() && Shows(now) && view == now.view && Links(now.execs)
      requires Warranted(cfg, now, why, n)
      requires reqBatchStore.Keys == if why.OnReports? then {} else now.batches
      modifies this
      ensures Valid() && Pending() == old(Pending()) && Evolves(old(Snap()), Snap()) && Stays()
      ensures MarksMoved(cfg, old(Mem()), Mem(), why, n)
      ensures now.lagging ==> old(now).lagging || now.skip || old(now).SpecExec() < cfg.Floor(n)
      ensures old(log) + [Moved(cfg, old(now), why, n)] <= log
      ensures cfg.Floor(n) <= h
      ensures !old(activeView) ==>
                && now == Moved(cfg, old(now), why, n).(batches := now.batches) && h == cfg.Floor(n)
                && Moved(cfg, old(now), why, n).batches <= now.batches
                && unchanged(`newViewStore) && unchanged(`missingReqBatches) && unchanged(`outbox)
                && unchanged(`outstandingReqBatches)
      ensures outstandingReqBatches.Keys <= old(outstandingReqBatches.Keys)
      ensures cfg.Primary(old(view)) == id ==>
                var certs := Moved(cfg, old(now), why, n).certs;
                forall b :: Hash(b) in old(outstandingReqBatches) && !HasCertificate(certs, Hash(b)) ==>
                  HandedSince(cfg, |old(log)|, Mem(), b)
      decreases ViewsLeft(), NullsLeft(), Free(), 12
    {
      hide Next, Recorded, Links, Matches, Shows, Evolves, Settled, Unsent, Inv, Warranted, Moved, HandedSince,
           HasCertificate, Config.L, Resubmitted, ViewsLeft, NullsLeft, WaitingViews, WaitingNulls, Mem;
      ghost var a := Snap();
      ShownFields();
      MemFields();
      DropBelow(n, why);
      Stepped();
      MemFields();
      ghost var b := Snap();
      Measured(a, b);
      MovedFields(cfg, a.now, why, n);
      Fields();
      ResubmitRequestBatches();
      Then(cfg, a, b, Snap());
      Measured(b, Snap());
      FirstStays(a.log, b.now, b.log, log);
      HandedEarlier(cfg, |a.log|, |b.log|, Mem());
      Rises(b, Snap());
      Fields();
      MemFields();
    }

    // ----- Checkpoints of others -----

    /** `weakCheckpointSetOutOfRange`, up to its decision: the (f + 1)-th largest tracked report, when
        that is beyond the high watermark. */
    method TrackReport(k: Checkpoint) returns (target: Option<nat>)
      requires Valid() && CheckpointMsg(k) in now.Msgs()
      modifies `hChkpts
      ensures Valid()
      ensures hChkpts == Tracked(cfg, old(Mem()), k)
      ensures k.n < h + cfg.L() ==> hChkpts == old(hChkpts) - {k.sender} && target.None?
      ensures var tracked := old(hChkpts)[k.sender := k.n];
              h + cfg.L() <= k.n ==>
                && (target.Some? <==> |ReportsFrom(tracked, h + cfg.L() + 1)| >= cfg.f + 1)
                && (target.Some? ==> |ReportsFrom(tracked, target.value)| >= cfg.f + 1
                                     && |ReportsFrom(tracked, target.value + 1)| <= cfg.f)
                && hChkpts == if |tracked| >= cfg.f + 1 then ReportsNotBelow(tracked, h + cfg.L()) else tracked
      ensures target.Some? ==> CanMoveOnReports(cfg, now, target.value)
    {
      hide Recorded, Matches, Links, ReportsFrom, CanMoveOnReports, ReportsNotBelow, Tracked, Mem, Config.L;
      Fields();
      MemFields();
      TrackedIs(cfg, Mem(), k);
      var high := h + cfg.L();
      if k.n < high {
        ForgetReport(k.sender);
        return None;
      }
      StoreReport(k);
      ghost var tracked := hChkpts;
      target := None;
      if |hChkpts| >= cfg.f + 1 {
        var m := RankedReport(cfg, hChkpts);
        TrackedReports();
        PruneReports(high);
        ReportsOrdered(tracked, m, high);
        if m > high {
          target := Some(m);
          TrackedAreReported(tracked, m);
        }
      } else {
        FewReports(tracked, high + 1);
      }
    }

    method ForgetReport(sender: nat)
      requires Valid()
      modifies `hChkpts
      ensures Valid() && hChkpts == old(hChkpts) - {sender}
    {
      hide Recorded, Matches, BatchesHashed, NewViewsStored, OutboxMade, CallsMade, ViewChangesStored, PeriodKept;
      hChkpts := hChkpts - {sender};
    }

    method StoreReport(k: Checkpoint)
      requires Valid() && CheckpointMsg(k) in now.Msgs()
      modifies `hChkpts
      ensures Valid() && hChkpts == old(hChkpts)[k.sender := k.n]
    {
      hide Recorded, Matches, BatchesHashed, NewViewsStored, OutboxMade, CallsMade, ViewChangesStored, PeriodKept;
      hChkpts := hChkpts[k.sender := k.n];
    }

    method PruneReports(high: nat)
      requires Valid()
      modifies `hChkpts
      ensures Valid() && hChkpts == ReportsNotBelow(old(hChkpts), high)
    {
      hide Recorded, Matches, BatchesHashed, NewViewsStored, OutboxMade, CallsMade, ViewChangesStored, PeriodKept;
      hChkpts := KeepReports(hChkpts, high);
    }

    lemma TrackedReports()
      requires Valid()
      ensures forall x :: x in hChkpts ==> Reported(x, hChkpts[x])
    {
      hide Recorded, Matches, BatchesHashed, NewViewsStored, OutboxMade, CallsMade, ViewChangesStored, PeriodKept;
    }

    ghost predicate Reported(x: nat, n: nat)
      reads `now
    {
      exists k :: CheckpointMsg(k) in now.Msgs() && k.sender == x && k.n == n
    }

    /** The (f + 1)-th largest of the reports. */
    static method RankedReport(cfg: Config, reports: map<nat, nat>) returns (m: nat)
      requires |reports| >= cfg.f + 1
      ensures |ReportsFrom(reports, m)| >= cfg.f + 1 && |ReportsFrom(reports, m + 1)| <= cfg.f
    {
      hide Sorted;
      var values, ids := SortReports(reports);
      ReportCount(reports, values, ids);
      PlaceFromTop(reports, values, ids, cfg.f + 1);
      PlaceFromTopIsGreatest(reports, values, ids, cfg.f + 1);
      m := values[|values| - (cfg.f + 1)];
    }

    lemma TrackedAreReported(tracked: map<nat, nat>, m: nat)
      requires Matches(now) && h + cfg.L() < m && |ReportsFrom(tracked, m)| >= cfg.f + 1
      requires forall x :: x in tracked ==> Reported(x, tracked[x])
      ensures CanMoveOnReports(cfg, now, m)
    {
      forall x | x in ReportsFrom(tracked, m) ensures x in Reporters(now.Msgs(), m) {
        assert Reported(x, tracked[x]);
        var k :| CheckpointMsg(k) in now.Msgs() && k.sender == x && k.n == tracked[x];
        assert CheckpointMsg(k) in now.Msgs() && CheckpointMsg(k).CheckpointMsg?;
      }
      SubsetCard(ReportsFrom(tracked, m), Reporters(now.Msgs(), m));
    }

    /** The replica is out of date: its log goes, and it starts to catch up. */
    method JumpAhead(m: nat)
      requires Valid() && CanMoveOnReports(cfg, now, m)
      modifies this
      ensures Valid() && Pending() == old(Pending()) && Goes() && Stays()
      ensures Jumped(cfg, old(Mem()), Mem(), m)
      ensures old(log) + [Moved(cfg, old(now), OnReports, m)] <= log
      ensures old(h) + cfg.L() <= h && skipInProgress && outstandingReqBatches == map[]
      ensures outstandingReqBatches.Keys <= old(outstandingReqBatches.Keys)
      decreases ViewsLeft(), NullsLeft(), Free(), 13
    {
      hide Next, Recorded, Links, Matches, Evolves, InStep, Settled, Unsent, Inv, Moved, CanMoveOnReports, MarksMoved,
           ViewsLeft, NullsLeft, WaitingViews, WaitingNulls;
      ghost var a := Snap();
      Fields();
      NowInv();
      DropBatches();
      MoveWatermarks(m, OnReports);
      ghost var b, moved := Snap(), Mem();
      Measured(a, b);
      CatchUp();
      assert Mem() == moved.Then(moved.now.(skip := true)).(outstanding := map[]);
      Then(cfg, a, b, Snap());
      Measured(b, Snap());
      CatchingUp(a, Snap());
      PrefixTrans(a.log + [Moved(cfg, a.now, OnReports, m)], b.log, log);
      Rises(b, Snap());
      JumpClearsLog(cfg, a.now, m);
    }

    method CatchUp()
      requires Valid()
      modifies `outstandingReqBatches, `skipInProgress, `now, `log
      ensures Valid() && Pending() == old(Pending()) && Goes() && Stays()
      ensures Mem() == old(Mem()).Then(old(now).(skip := true)).(outstanding := map[])
      ensures outstandingReqBatches == map[] && skipInProgress && now.skip && h == now.h
    {
      hide Next, Recorded, Links, Matches, Evolves, InStep, Settled, Unsent, Config.L, Config.Primary, ViewsLeft,
           NullsLeft, WaitingViews, WaitingNulls;
      ForgetAllOutstanding();
      SetSkip();
      Fields();
    }

    method DropBatches()
      requires Valid()
      modifies `reqBatchStore
      ensures reqBatchStore == map[] && Links(now.execs)
    {
      hide Recorded, Matches;
      reqBatchStore := map[];
    }

    method ForgetAllOutstanding()
      requires Valid()
      modifies `outstandingReqBatches
      ensures Valid() && outstandingReqBatches == map[]
    {
      hide Recorded, Matches;
      outstandingReqBatches := map[];
    }

    method UpdateHighStateTarget(n: nat)
      modifies `highStateTarget
      ensures highStateTarget == Raised(old(highStateTarget), n)
    {
      if highStateTarget.Some? && highStateTarget.value >= n {
        return;
      }
      highStateTarget := Some(n);
    }

    method RetryStateTransfer()
      modifies `stateTransferring
      ensures stateTransferring == (old(stateTransferring) || currentExec.None?)
    {
      if currentExec.Some? {
        return;
      }
      if stateTransferring {
        return;
      }
      stateTransferring := true;
    }

    /** The first weak certificate for a checkpoint names a target for state transfer. */
    method WitnessCheckpointWeakCert(k: Checkpoint)
      requires |CheckpointVoters(checkpointStore, k.n, k.id)| == cfg.f + 1
      modifies `highStateTarget, `stateTransferring
      ensures highStateTarget == Raised(old(highStateTarget), k.n)
      ensures stateTransferring == (old(stateTransferring) || (skipInProgress && currentExec.None?))
    {
      var members := WeakCertMembers(checkpointStore, k, cfg.f);
      UpdateHighStateTarget(k.n);
      if skipInProgress {
        RetryStateTransfer();
      }
    }

    method WeighReport(k: Checkpoint) returns (target: Option<nat>)
      requires Valid() && CheckpointMsg(k) in now.Msgs()
      modifies `hChkpts
      ensures Valid() && Mem() == old(Mem()).(reports := Tracked(cfg, old(Mem()), k))
      ensures target.Some? <==> FarBehind(cfg, old(Mem()), k)
      ensures target.Some? ==> CanMoveOnReports(cfg, now, target.value)
                               && Ranked(cfg, old(hChkpts)[k.sender := k.n], target.value)
    {
      hide Recorded, Links, Matches, Config.L, ReportsFrom, ReportsNotBelow, CanMoveOnReports, Tracked;
      Fields();
      target := TrackReport(k);
    }

    /** With this one there is a quorum for a checkpoint that the replica reached, or that is more than half a
        log ahead while it is catching up. */
    ghost predicate Stabilises(k: Checkpoint)
      reads `checkpointStore, `chkpts, `skipInProgress, `h
    {
      && (k.n in chkpts || (skipInProgress && h + cfg.L() / 2 <= k.n))
      && |CheckpointVoters(checkpointStore + {k}, k.n, k.id)| >= cfg.IntersectionQuorum()
    }

    lemma StabilisesIff(k: Checkpoint)
      requires Matches(now)
      ensures Stabilises(k) <==> IsStable(cfg, now.(ckpts := now.ckpts + {k}), k)
    {
    }

    /** The view of nv is entered, or an assigned batch is missing and was asked for. */
    ghost predicate TakesUp(f: Memory, nv: NewView)
      requires cfg.Valid()
      reads this
    {
      || EnteredWith(cfg, f, Mem(), nv)
      || (&& view == nv.v && !activeView && missingReqBatches != {}
          && forall d :: d in missingReqBatches && d !in f.missing ==> FetchMsg(d, id) in outbox)
    }

    /** The answer to new-view nv for the view waited for in state s: the next view if it does not verify,
        or it is taken up. */
    ghost predicate Answers(f: Memory, s: State, nv: NewView)
      requires cfg.Valid()
      reads this
    {
      && (Refuses(cfg, s, nv) ==> s.view < view && SentViewChange(s.view + 1))
      && (Approves(cfg, s, nv) ==> TakesUp(f, nv))
    }

    /** A checkpoint is counted; a quorum moves the watermark of a replica that follows it. A new-view that
        waited for the checkpoint is then answered. */
    method RecvCheckpoint(k: Checkpoint)
      requires Valid() && CheckpointMsg(k) in now.Msgs()
      modifies this
      ensures Valid() && Pending() == old(Pending()) && Goes() && Stays()
      ensures CheckpointHandled(cfg, old(Mem()), Mem(), k)
      ensures FarBehind(cfg, old(Mem()), k) ==> old(h) + cfg.L() <= h && skipInProgress
      ensures !FarBehind(cfg, old(Mem()), k) && old(InW(cfg, now, k.n)) ==>
                old(log) + [old(now).(ckpts := old(now).ckpts + {k})] <= log
      ensures !FarBehind(cfg, old(Mem()), k) && !old(InW(cfg, now, k.n)) ==> now == old(now) && outbox == old(outbox)
      ensures old(InW(cfg, now, k.n)) && old(Stabilises(k)) ==> cfg.Floor(k.n) <= h
      ensures !FarBehind(cfg, old(Mem()), k) && old(InW(cfg, now, k.n)) && !old(Stabilises(k)) ==>
                now == old(now).(ckpts := old(now).ckpts + {k}) && outbox == old(outbox)
      ensures !FarBehind(cfg, old(Mem()), k) && old(InW(cfg, now, k.n)) && old(Stabilises(k)) && k.n in old(chkpts)
              && !old(activeView) && old(view) in old(newViewStore) ==>
                Answers(old(Mem()), Moved(cfg, old(now).(ckpts := old(now).ckpts + {k}), OnQuorum(k), k.n),
                        old(newViewStore)[old(view)])
      ensures outstandingReqBatches.Keys <= old(outstandingReqBatches.Keys)
      decreases ViewsLeft(), NullsLeft(), Free(), 19
    {
      hide Next, Recorded, Links, Matches, Evolves, InStep, Settled, Unsent, Inv, CheckpointVoters, IsStable,
           CanMoveOnReports, FarBehind, Moved, Tracked, Ranked, CheckpointFiled, Jumped, Answers, ViewsLeft, NullsLeft,
           WaitingViews, WaitingNulls, Mem;
      ghost var a, was := Snap(), Mem();
      EvolvesSelf(cfg, a);
      Fields();
      StabilisesIff(k);
      MemFields();
      var target := WeighReport(k);
      if target.Some? {
        JumpAhead(target.value);
        BeyondReach(cfg, a.now, target.value);
        return;
      }
      if !(h < k.n <= h + cfg.L()) {
        return;
      }
      ghost var tracked := Mem();
      FileCheckpoint(k);
      AnsweredEarlier(was, tracked, Moved(cfg, a.now.(ckpts := a.now.ckpts + {k}), OnQuorum(k), k.n));
    }

    method FileCheckpoint(k: Checkpoint)
      requires Valid() && CheckpointMsg(k) in now.Msgs() && InW(cfg, now, k.n)
      modifies this
      ensures Valid() && Pending() == old(Pending()) && Goes() && Stays()
      ensures CheckpointFiled(cfg, old(Mem()).Then(old(now).(ckpts := old(now).ckpts + {k})), Mem(), k)
      ensures old(log) + [old(now).(ckpts := old(now).ckpts + {k})] <= log
      ensures old(Stabilises(k)) ==> cfg.Floor(k.n) <= h
      ensures !old(Stabilises(k)) ==> now == old(now).(ckpts := old(now).ckpts + {k}) && outbox == old(outbox)
      ensures old(Stabilises(k)) && k.n in old(chkpts) && !old(activeView) && old(view) in old(newViewStore) ==>
                Answers(old(Mem()), Moved(cfg, old(now).(ckpts := old(now).ckpts + {k}), OnQuorum(k), k.n),
                        old(newViewStore)[old(view)])
      ensures outstandingReqBatches.Keys <= old(outstandingReqBatches.Keys)
      decreases ViewsLeft(), NullsLeft(), Free(), 18
    {
      hide Next, Recorded, Links, Matches, Evolves, InStep, Settled, Unsent, Inv, IsStable, Moved, CheckpointFiled,
           Answers, ViewsLeft, NullsLeft, WaitingViews, WaitingNulls, Mem;
      ghost var a, was := Snap(), Mem();
      Fields();
      StabilisesIff(k);
      MemFields();
      AddCheckpoint(k);
      Stepped();
      ghost var b, stored := Snap(), Mem();
      Measured(a, b);
      Fields();
      CountCheckpoint(k);
      Then(cfg, a, b, Snap());
      Measured(b, Snap());
      FirstStays(a.log, b.now, b.log, log);
      AnsweredEarlier(was, stored, Moved(cfg, b.now, OnQuorum(k), k.n));
    }

    /** A checkpoint that was just stored is judged by the others at its number. */
    method CountCheckpoint(k: Checkpoint)
      requires Valid() && InW(cfg, now, k.n)
      modifies this
      ensures Valid() && Pending() == old(Pending()) && Goes() && Stays()
      ensures CheckpointFiled(cfg, old(Mem()), Mem(), k)
      ensures IsStable(cfg, old(now), k) ==> cfg.Floor(k.n) <= h
      ensures !IsStable(cfg, old(now), k) ==> now == old(now) && outbox == old(outbox)
      ensures IsStable(cfg, old(now), k) && k.n in old(chkpts) && !old(activeView) && old(view) in old(newViewStore) ==>
                Answers(old(Mem()), Moved(cfg, old(now), OnQuorum(k), k.n), old(newViewStore)[old(view)])
      ensures outstandingReqBatches.Keys <= old(outstandingReqBatches.Keys)
      decreases ViewsLeft(), NullsLeft(), Free(), 18, 0
    {
      hide Next, Recorded, Links, Matches, Evolves, InStep, Settled, Unsent, Inv, CheckpointVoters, ValuesAt, Moved,
           Weighed, Follows, Stabilised, Raised, Answers, ViewsLeft, NullsLeft, WaitingViews, WaitingNulls, Mem;
      EvolvesSelf(cfg, Snap());
      ghost var was := Mem();
      Fields();
      MemFields();
      var matching := WeighCheckpoint(k);
      WeighedTo();
      WeighedIs(cfg, old(Mem()), k, panicked, highStateTarget, stateTransferring);
      if matching < cfg.IntersectionQuorum() {
        return;
      }
      ghost var weighed := Mem();
      ActOnCheckpoint(k);
      AnsweredEarlier(was, weighed, Moved(cfg, was.now, OnQuorum(k), k.n));
    }

    lemma AnsweredEarlier(f: Memory, f': Memory, s: State)
      requires cfg.Valid() && f.log <= f'.log && f.outstanding == f'.outstanding && f.missing == f'.missing
      ensures forall nv :: Answers(f', s, nv) ==> Answers(f, s, nv)
    {
      hide Refuses, Approves, Mem;
    }

    /** The matching reports are counted. f + 2 different values, or a weak certificate that differs
        from the own checkpoint, stop the replica; the first weak certificate names a target. */
    method WeighCheckpoint(k: Checkpoint) returns (matching: nat)
      requires Valid()
      modifies `panicked, `highStateTarget, `stateTransferring
      ensures Valid()
      ensures matching == |CheckpointVoters(checkpointStore, k.n, k.id)|
      ensures panicked <==>
                || old(panicked) || |ValuesAt(checkpointStore, k)| > cfg.f + 1
                || (matching == cfg.f + 1 && k.n in chkpts && chkpts[k.n] != k.id)
      ensures highStateTarget ==
                if matching == cfg.f + 1 then Raised(old(highStateTarget), k.n) else old(highStateTarget)
      ensures stateTransferring ==
                (old(stateTransferring) || (matching == cfg.f + 1 && skipInProgress && currentExec.None?))
      ensures matching == cfg.f + 1 ==> highStateTarget.Some? && k.n <= highStateTarget.value
    {
      hide Recorded, Links, Matches, CheckpointVoters, ValuesAt, Raised;
      TargetReaches(highStateTarget, k.n);
      var values;
      matching, values := CountMatching(checkpointStore, k);
      if |values| > cfg.f + 1 {
        panicked := true;
      }
      if matching == cfg.f + 1 {
        if k.n in chkpts && chkpts[k.n] != k.id {
          panicked := true;
        }
        WitnessCheckpointWeakCert(k);
      }
    }

    twostate lemma WeighedTo()
      requires unchanged(`log) && unchanged(`now)
      requires unchanged(`outbox) && unchanged(`outstandingReqBatches) && unchanged(`missingReqBatches)
      requires unchanged(`hChkpts) && unchanged(`viewChangeStore) && unchanged(`newViewStore)
      requires unchanged(`viewChangeSeqNo)
      ensures Mem() == old(Mem()).(panicked := panicked, target := highStateTarget, transferring := stateTransferring)
    {
    }

    /** A checkpoint quorum moves the watermark if the replica reached the checkpoint, or is catching
        up and more than half a log behind. */
    method ActOnCheckpoint(k: Checkpoint)
      requires Valid() && InW(cfg, now, k.n)
      requires |CheckpointVoters(checkpointStore, k.n, k.id)| >= cfg.IntersectionQuorum()
      modifies this
      ensures Valid() && Pending() == old(Pending()) && Goes() && Stays()
      ensures Follows(cfg, old(now), k.n) ==> Stabilised(cfg, old(Mem()), Mem(), k) && cfg.Floor(k.n) <= h
      ensures !Follows(cfg, old(now), k.n) ==> unchanged(this)
      ensures k.n in old(chkpts) && !old(activeView) && old(view) in old(newViewStore) ==>
                Answers(old(Mem()), Moved(cfg, old(now), OnQuorum(k), k.n), old(newViewStore)[old(view)])
      ensures outstandingReqBatches.Keys <= old(outstandingReqBatches.Keys)
      decreases ViewsLeft(), NullsLeft(), Free(), 17
    {
      hide Next, Recorded, Links, Matches, Evolves, InStep, Settled, Unsent, Inv, CheckpointVoters, Moved, Warranted,
           MarksMoved, NewViewProcessed, Answers, ViewsLeft, NullsLeft, WaitingViews, WaitingNulls, Mem;
      ghost var a, was := Snap(), Mem();
      EvolvesSelf(cfg, a);
      Fields();
      MemFields();
      if k.n !in chkpts {
        if skipInProgress {
          var logSafetyBound := h + cfg.L() / 2;
          if k.n >= logSafetyBound {
            QuorumWarrants(k);
            MoveWatermarks(k.n, OnQuorum(k));
            MovedInStep(a, Snap(), cfg.Floor(k.n));
          }
        }
        return;
      }
      Stabilise(k);
    }

    /** The watermark moves to a checkpoint that the replica reached, and the new-view for its view is looked
        at again. */
    method Stabilise(k: Checkpoint)
      requires Valid() && InW(cfg, now, k.n) && k.n in chkpts
      requires |CheckpointVoters(checkpointStore, k.n, k.id)| >= cfg.IntersectionQuorum()
      modifies this
      ensures Valid() && Pending() == old(Pending()) && Goes() && Stays()
      ensures Stabilised(cfg, old(Mem()), Mem(), k) && cfg.Floor(k.n) <= h
      ensures !old(activeView) && old(view) in old(newViewStore) ==>
                Answers(old(Mem()), Moved(cfg, old(now), OnQuorum(k), k.n), old(newViewStore)[old(view)])
      ensures outstandingReqBatches.Keys <= old(outstandingReqBatches.Keys)
      decreases ViewsLeft(), NullsLeft(), Free(), 17, 0
    {
      hide Next, Recorded, Links, Matches, Evolves, InStep, Settled, Unsent, Inv, CheckpointVoters, Moved, Warranted,
           MarksMoved, NewViewProcessed, Answers, ViewsLeft, NullsLeft, WaitingViews, WaitingNulls, Mem;
      ghost var a, was := Snap(), Mem();
      Fields();
      MemFields();
      QuorumWarrants(k);
      MoveWatermarks(k.n, OnQuorum(k));
      ghost var c, moved := Snap(), Mem();
      MovedInStep(a, c, cfg.Floor(k.n));
      Measured(a, c);
      MovedFields(cfg, a.now, OnQuorum(k), k.n);
      Fields();
      MemFields();
      ProcessNewView();
      Then(cfg, a, c, Snap());
      Rises(c, Snap());
      Fields();
      if !a.now.active {
        AnsweredAlike(was, moved, Moved(cfg, a.now, OnQuorum(k), k.n), c.now);
      }
    }

    /** The batches at hand make no difference to the answer. */
    lemma AnsweredAlike(f: Memory, f': Memory, s: State, s': State)
      requires cfg.Valid() && f.log <= f'.log && f.outstanding == f'.outstanding && f.missing == f'.missing
      requires s' == s.(batches := s'.batches)
      ensures forall nv :: Answers(f', s', nv) ==> Answers(f, s, nv)
    {
      hide Selected, Assign, Mem;
    }

    lemma QuorumWarrants(k: Checkpoint)
      requires Valid() && InW(cfg, now, k.n)
      requires |CheckpointVoters(checkpointStore, k.n, k.id)| >= cfg.IntersectionQuorum()
      requires Follows(cfg, now, k.n)
      ensures Warranted(cfg, now, OnQuorum(k), k.n)
      ensures k.n in chkpts ==> cfg.Floor(k.n) <= now.SpecExec()
    {
      hide Recorded, Links;
      LogWindow();
    }

    // ----- Processing a new view -----

    /** The assigned batches that are not at hand; the result says whether some are newly missed. */
    method NoteMissing(nv: NewView) returns (newlyMissing: bool)
      requires Valid()
      modifies `missingReqBatches
      ensures Valid()
      ensures Mem() == old(Mem()).(missing := missingReqBatches)
      ensures missingReqBatches == old(missingReqBatches) + Missing(nv)
      ensures newlyMissing <==> missingReqBatches != old(missingReqBatches)
    {
      hide Recorded, Matches, Links, MissingAmong, Misses;
      ghost var before := missingReqBatches;
      newlyMissing := false;
      var keys := nv.xset.Keys;
      NoneYet(nv);
      while keys != {}
        invariant keys <= nv.xset.Keys
        invariant missingReqBatches == before + MissingAmong(nv, keys)
        invariant newlyMissing <==> missingReqBatches != before
        decreases |keys|
      {
        var n: nat :| n in keys;
        newlyMissing := NoteOne(nv, n, newlyMissing, before, keys);
        keys := keys - {n};
      }
      AllSeen(nv);
    }

    method NoteOne(nv: NewView, n: nat, noted: bool, ghost before: set<Digest>, ghost keys: set<nat>)
      returns (newlyMissing: bool)
      requires n in nv.xset && n in keys
      requires missingReqBatches == before + MissingAmong(nv, keys) && (noted <==> missingReqBatches != before)
      modifies `missingReqBatches
      ensures missingReqBatches == before + MissingAmong(nv, keys - {n})
      ensures (newlyMissing <==> missingReqBatches != before)
    {
      hide MissingAmong, Misses;
      newlyMissing := noted;
      MissingStep(nv, keys, n);
      MissesIs(nv, n);
      if n <= h {
        return;
      }
      var d := nv.xset[n];
      if d == Null {
        return;
      }
      if d !in reqBatchStore {
        if d !in missingReqBatches {
          newlyMissing := true;
          missingReqBatches := missingReqBatches + {d};
        }
      }
    }

    lemma MissesIs(nv: NewView, n: nat)
      requires n in nv.xset
      ensures Misses(nv, n) <==> h < n && nv.xset[n] != Null && nv.xset[n] !in reqBatchStore
    {
    }

    lemma NoneYet(nv: NewView)
      ensures MissingAmong(nv, nv.xset.Keys) == {}
    {
    }

    lemma AllSeen(nv: NewView)
      ensures MissingAmong(nv, {}) == Missing(nv)
    {
      hide Misses;
    }

    ghost predicate Misses(nv: NewView, n: nat)
      requires n in nv.xset
      reads `h, `reqBatchStore
    {
      h < n && nv.xset[n] != Null && nv.xset[n] !in reqBatchStore
    }

    ghost function Missing(nv: NewView): set<Digest>
      reads `h, `reqBatchStore
    {
      set n | n in nv.xset && Misses(nv, n) :: nv.xset[n]
    }

    ghost function MissingAmong(nv: NewView, keys: set<nat>): set<Digest>
      reads `h, `reqBatchStore
    {
      set n | n in nv.xset && n !in keys && Misses(nv, n) :: nv.xset[n]
    }

    lemma MissingStep(nv: NewView, keys: set<nat>, n: nat)
      requires n in nv.xset && n in keys
      ensures MissingAmong(nv, keys - {n}) == MissingAmong(nv, keys) + if Misses(nv, n) then {nv.xset[n]} else {}
    {
    }

    method FetchRequestBatches()
      requires Valid()
      modifies `outbox
      ensures Valid() && Pending() == old(Pending()) && Goes() && Stays()
      ensures Fetched(old(Mem()), Mem())
      ensures forall d :: d in missingReqBatches ==> FetchMsg(d, id) in outbox
    {
      hide Recorded, Matches, Links, Evolves, InStep, Settled, Unsent, ViewsLeft, NullsLeft, WaitingViews, WaitingNulls;
      Fields();
      ghost var a := Snap();
      EvolvesSelf(cfg, a);
      var keys := missingReqBatches;
      while keys != {}
        invariant keys <= missingReqBatches
        invariant Valid() && Pending() == old(Pending())
        invariant Evolves(a, Snap()) && InStep(a, Snap()) && Settled(cfg, a, Snap())
        invariant forall d :: d in missingReqBatches && d !in keys ==> FetchMsg(d, id) in outbox
        invariant a.outbox <= outbox
        invariant forall i :: |a.outbox| <= i < |outbox| ==> outbox[i].FetchMsg? && outbox[i].d in missingReqBatches
        decreases |keys|
      {
        var d :| d in keys;
        keys := keys - {d};
        ghost var b := Snap();
        FetchIsNotUnsent(now.made, outbox, d, id);
        Broadcast(FetchMsg(d, id));
        assert outbox[|outbox| - 1] == FetchMsg(d, id);
        Then(cfg, a, b, Snap());
      }
    }

    /** The new-view is checked against its own view-changes. */
    method JudgeNewView(nv: NewView) returns (verdict: Verdict, cp: nat)
      requires cfg.Valid() && lastExec == now.lastExec && currentExec == now.exec && certStore == now.certs
      ensures verdict.Leave? <==> Refuses(cfg, now, nv)
      ensures verdict.Wait? <==> Delays(cfg, now, nv)
      ensures verdict.Enter? <==> Approves(cfg, now, nv)
      ensures verdict.Enter? ==> Selected(cfg, nv.vset, cp) && Assign(cfg, nv.vset, cp) == Some(nv.xset)
    {
      hide Selected, Assign, CommittedHere;
      var checkpoint, ok := SelectInitialCheckpoint(cfg, nv.vset);
      cp := checkpoint.n;
      if !ok {
        return Leave, cp;
      }
      OnlySelected(nv, cp);
      var speculativeLastExec := if currentExec.Some? then currentExec.value else lastExec;
      if speculativeLastExec < cp {
        var canExecuteToTarget := CanExecuteTo(cfg, certStore, speculativeLastExec, cp);
        if canExecuteToTarget {
          return Wait, cp;
        }
      }
      var msgList := AssignSequenceNumbers(cfg, nv.vset, cp);
      if msgList.None? {
        return Leave, cp;
      }
      if msgList.value != nv.xset {
        return Leave, cp;
      }
      return Enter, cp;
    }

    lemma OnlySelected(nv: NewView, n: nat)
      requires Selected(cfg, nv.vset, n)
      ensures forall cp :: Selected(cfg, nv.vset, cp) ==> cp == n
    {
      forall cp | Selected(cfg, nv.vset, cp) ensures cp == n {
        SelectedIsUnique(cfg, nv.vset, cp, n);
      }
    }

    /** The new-view for the present view is entered if it verifies and no assigned batch is missing; if
        it does not verify the replica moves on to the next view; and it waits while it can reach the
        checkpoint by executing. */
    method ProcessNewView()
      requires Valid()
      modifies this
      ensures Valid() && Pending() == old(Pending()) && Goes() && Stays()
      ensures NewViewProcessed(cfg, old(Mem()), Mem())
      ensures old(activeView) || old(view) !in old(newViewStore) ==> unchanged(this)
      ensures !old(activeView) && old(view) in old(newViewStore) ==>
                var nv := old(newViewStore)[old(view)];
                Answers(old(Mem()), old(now), nv) && (Delays(cfg, old(now), nv) ==> unchanged(this))
      ensures outstandingReqBatches.Keys <= old(outstandingReqBatches.Keys)
      decreases ViewsLeft(), NullsLeft(), Free(), 16
    {
      hide Next, Recorded, Links, Matches, Evolves, InStep, Settled, Unsent, Inv, Selected, Assign, Refuses, Delays,
           Approves, TakesUp, MayLeave, CanChangeView, ViewLeftWith, NewViewAccepted, LeftFor, SentViewChange,
           Config.L, Config.Primary, ViewsLeft, NullsLeft, WaitingViews, WaitingNulls;
      ghost var a := Snap();
      EvolvesSelf(cfg, a);
      Fields();
      if view !in newViewStore {
        return;
      }
      var nv := newViewStore[view];
      if activeView {
        return;
      }
      StoredNewView();
      var verdict, cp := JudgeNewView(nv);
      OneVerdict(cfg, now, nv);
      match verdict {
        case Leave =>
          RefusalIsReason(nv);
          var quorum := SendViewChange();
        case Wait =>
        case Enter =>
          AcceptNewView(nv, cp);
      }
      InactiveIsSettled(cfg, a, Snap());
    }

    lemma StoredNewView()
      requires Valid() && view in newViewStore
      ensures var nv := newViewStore[view];
              nv.v == view && 0 < view && nv.sender == cfg.Primary(view) && NewViewMsg(nv) in now.got
    {
      hide Recorded, BatchesHashed, ReportsTracked, OutboxMade, CallsMade, ViewChangesStored, PeriodKept;
    }

    lemma RefusalIsReason(nv: NewView)
      requires cfg.Valid() && Refuses(cfg, now, nv) && !now.active && view == now.view
      requires nv.v == view && 0 < view && nv.sender == cfg.Primary(view) && NewViewMsg(nv) in now.got
      ensures MayLeave(view + 1)
    {
      hide Selected, Assign, Waits, Joins, Offends, Ends, ForesawIn;
      forall cp | Selected(cfg, nv.vset, cp) ensures Assign(cfg, nv.vset, cp) != Some(nv.xset) {
        OnlySelected(nv, cp);
      }
      assert Unacceptable(cfg, view, nv);
    }

    /** The watermark reaches the checkpoint of the new view; if execution cannot, state is to be
        transferred. */
    method ReachCheckpoint(nv: NewView, cp: nat)
      requires Valid() && !activeView && Accepts(cfg, now, nv, cp)
      modifies this
      ensures Valid() && Pending() == old(Pending()) && Goes()
      ensures CheckpointReached(cfg, old(Mem()), Mem(), nv, cp)
      ensures !activeView && view == old(view) && Accepts(cfg, now, nv, cp) && cp <= h
      ensures unchanged(`newViewStore) && unchanged(`missingReqBatches) && unchanged(`outbox)
      ensures unchanged(`outstandingReqBatches)
      ensures old(now).SpecExec() < cp ==>
                && skipInProgress && highStateTarget.Some? && cp <= highStateTarget.value
                && (currentExec.None? ==> stateTransferring)
      ensures outstandingReqBatches.Keys <= old(outstandingReqBatches.Keys)
      decreases ViewsLeft(), NullsLeft(), Free(), 14
    {
      hide Next, Recorded, Links, Matches, Evolves, InStep, Settled, Unsent, Inv, Accepts, MarkReached, ViewsLeft,
           NullsLeft, WaitingViews, WaitingNulls;
      ghost var a := Snap();
      Fields();
      var speculativeLastExec := if currentExec.Some? then currentExec.value else lastExec;
      RaiseTo(nv, cp);
      ghost var b := Snap();
      if speculativeLastExec < cp {
        StateTransfer(cp);
        AcceptsStays(cfg, b.now, now, nv, cp);
        Then(cfg, a, b, Snap());
        CatchingUp(a, Snap());
      } else {
        NotBehind(a, b, cp);
      }
    }

    method RaiseTo(nv: NewView, cp: nat)
      requires Valid() && !activeView && Accepts(cfg, now, nv, cp)
      modifies this
      ensures Valid() && Pending() == old(Pending()) && Evolves(old(Snap()), Snap())
      ensures MarkReached(cfg, old(Mem()), Mem(), nv, cp)
      ensures !activeView && view == old(view) && Accepts(cfg, now, nv, cp) && cp <= h
      ensures unchanged(`newViewStore) && unchanged(`missingReqBatches) && unchanged(`outbox)
      ensures unchanged(`outstandingReqBatches)
      ensures now.lagging ==> old(now).lagging || now.skip || old(now).SpecExec() < cp
      ensures outstandingReqBatches.Keys <= old(outstandingReqBatches.Keys)
      decreases ViewsLeft(), NullsLeft(), Free(), 13
    {
      hide Next, Recorded, Links, Matches, Evolves, InStep, Settled, Unsent, Inv, Moved, Accepts, MarksMoved, ViewsLeft,
           NullsLeft, WaitingViews, WaitingNulls;
      ghost var a := Snap();
      EvolvesSelf(cfg, a);
      Fields();
      NowInv();
      CheckpointIsAligned(cfg, now, nv, cp);
      if h < cp {
        NewViewWarrants(cfg, now, nv, cp);
        MoveWatermarks(cp, OnNewView(nv));
        MovedFields(cfg, a.now, OnNewView(nv), cp);
        AcceptsStays(cfg, a.now, now, nv, cp);
        Fields();
      }
    }

    method InvalidateState()
      requires Valid()
      modifies `skipInProgress, `now, `log
      ensures Valid() && Pending() == old(Pending()) && Goes() && Stays()
      ensures Mem() == if old(now).skip then old(Mem()) else old(Mem()).Then(old(now).(skip := true))
      ensures skipInProgress && now.skip && now.view == old(now).view && now.got == old(now).got
    {
      hide Next, Recorded, Links, Matches, Evolves, InStep, Settled, Unsent, Config.L, Config.Primary, ViewsLeft,
           NullsLeft, WaitingViews, WaitingNulls;
      EvolvesSelf(cfg, Snap());
      Fields();
      if !skipInProgress {
        SetSkip();
        Fields();
      }
    }

    method StateTransfer(target: nat)
      requires Valid()
      modifies `highStateTarget, `skipInProgress, `stateTransferring, `now, `log
      ensures Valid() && Pending() == old(Pending()) && Goes() && Stays()
      ensures Mem() == Transferring(old(Mem()), target)
      ensures skipInProgress && now.skip && now.view == old(now).view && now.got == old(now).got
      ensures highStateTarget.Some? && target <= highStateTarget.value && (currentExec.None? ==> stateTransferring)
    {
      hide Next, Recorded, Links, Matches, Evolves, InStep, Settled, Unsent, Config.L, Config.Primary, ViewsLeft,
           NullsLeft, WaitingViews, WaitingNulls;
      Fields();
      UpdateHighStateTarget(target);
      InvalidateState();
      RetryStateTransfer();
    }

    /** A verified new-view is entered when no assigned batch is missing. */
    method AcceptNewView(nv: NewView, cp: nat)
      requires Valid() && !activeView && Accepts(cfg, now, nv, cp)
      requires view in newViewStore
      modifies this
      ensures Valid() && Pending() == old(Pending()) && Goes()
      ensures NewViewAccepted(cfg, old(Mem()), Mem(), nv)
      ensures TakesUp(old(Mem()), nv)
      ensures outstandingReqBatches.Keys <= old(outstandingReqBatches.Keys)
      decreases ViewsLeft(), NullsLeft(), Free(), 15
    {
      hide Next, Recorded, Links, Matches, Evolves, InStep, Settled, Unsent, Inv, Accepts, CheckpointReached,
           EnteredIfComplete, Selected, TakesUp, ViewsLeft, NullsLeft, WaitingViews, WaitingNulls, Mem;
      ghost var a, was := Snap(), Mem();
      Fields();
      MemFields();
      AcceptedFrom(cfg, now, nv, cp);
      ReachCheckpoint(nv, cp);
      MemFields();
      ghost var b, reached := Snap(), Mem();
      Measured(a, b);
      EnterOrFetch(nv, cp);
      Then(cfg, a, b, Snap());
      TakenUpEarlier(was, reached, nv);
    }

    lemma TakenUpEarlier(f: Memory, f': Memory, nv: NewView)
      requires cfg.Valid() && f.log <= f'.log && f.outstanding == f'.outstanding && f.missing == f'.missing
      requires TakesUp(f', nv)
      ensures TakesUp(f, nv)
    {
      hide EntersAt, Mem;
    }

    /** The assigned batches that are missing are asked for; if none is, the view is entered. */
    method EnterOrFetch(nv: NewView, cp: nat)
      requires Valid() && !activeView && Accepts(cfg, now, nv, cp) && cp <= h && view in newViewStore
      modifies this
      ensures Valid() && Pending() == old(Pending()) && Goes()
      ensures EnteredIfComplete(cfg, old(Mem()), Mem(), nv, cp)
      ensures TakesUp(old(Mem()), nv)
      ensures outstandingReqBatches.Keys <= old(outstandingReqBatches.Keys)
      decreases ViewsLeft(), NullsLeft(), Free(), 15, 0
    {
      hide Next, Recorded, Links, Matches, Evolves, InStep, Settled, Unsent, Inv, Accepts, Missing, Selected,
           ViewEntered, CanActivate, MissingAt, EnteredWith, ViewsLeft, NullsLeft, WaitingViews, WaitingNulls, Mem;
      EvolvesSelf(cfg, Snap());
      ghost var was := Mem();
      Fields();
      MemFields();
      AcceptedFrom(cfg, now, nv, cp);
      MissingHere(nv);
      var newReqBatchMissing := NoteMissing(nv);
      MemFields();
      assert Mem() == was.(missing := was.missing + MissingAt(was.now, nv));
      if missingReqBatches == {} {
        Fields();
        NoneMissing(nv);
        EnterWhenComplete(cfg, now, nv, cp);
        ProcessNewView2(nv, cp);
      } else if newReqBatchMissing {
        FetchRequestBatches();
      }
      MemFields();
      Fields();
    }

    lemma MissingHere(nv: NewView)
      requires Valid()
      ensures Missing(nv) == MissingAt(now, nv)
    {
      hide Recorded, Links;
    }

    lemma NoneMissing(nv: NewView)
      requires Matches(now) && Missing(nv) == {}
      ensures forall n :: n in nv.xset && now.h < n && nv.xset[n] != Null ==> nv.xset[n] in now.batches
    {
      forall n | n in nv.xset && Misses(nv, n) ensures nv.xset[n] in Missing(nv) {
      }
    }

    /** The view is entered: a backup prepares every assignment, the primary resubmits. */
    method ProcessNewView2(nv: NewView, ghost cp: nat)
      requires Valid() && CanEnter(cfg, now, nv, cp) && view in newViewStore
      modifies this
      ensures Valid() && Pending() == old(Pending()) && Goes()
      ensures exists top :: CanActivate(cfg, old(now), nv, cp, top) && ViewEntered(cfg, old(Mem()), Mem(), nv, cp, top)
      ensures EnteredWith(cfg, old(Mem()), Mem(), nv)
      ensures cfg.Primary(old(view)) != id ==>
                && activeView && view == old(view)
                && forall n :: n in nv.xset ==> PrepareMsg(Prepare(view, n, nv.xset[n], id)) in outbox
      ensures cfg.Primary(old(view)) == id ==>
                forall b :: Hash(b) in old(outstandingReqBatches)
                            && !HasCertificate(ActivatedCerts(old(now), nv), Hash(b)) ==>
                  HandedSince(cfg, |old(log)|, Mem(), b)
      ensures outstandingReqBatches.Keys <= old(outstandingReqBatches.Keys)
      decreases ViewsLeft(), NullsLeft(), Free(), 12
    {
      hide Next, Recorded, Links, Matches, Evolves, InStep, Settled, Unsent, Inv, CanEnter, CanActivate, DoActivate,
           Config.L, Config.Primary, Resubmitted, AssignmentPrepared, HandedSince, HasCertificate, ActivatedCerts,
           ViewsLeft, NullsLeft, WaitingViews, WaitingNulls, Mem;
      ghost var a, was := Snap(), Mem();
      Fields();
      MemFields();
      BeginView(nv, cp);
      MemFields();
      ghost var c, top := Snap(), seqNo;
      Measured(a, c);
      ActivateFacts(cfg, a.now, nv, cp, top);
      if cfg.Primary(view) != id {
        PrepareAssignments(nv);
      } else {
        ResubmitRequestBatches();
        HandedEarlier(cfg, |a.log|, |c.log|, Mem());
      }
      Then(cfg, a, c, Snap());
      Measured(c, Snap());
      MemFields();
      EnteredFirst(cfg, was, c.now, Mem(), nv);
      assert ViewEntered(cfg, was, Mem(), nv, cp, top);
    }

    /** The view is entered. */
    method BeginView(nv: NewView, ghost cp: nat)
      requires Valid() && CanEnter(cfg, now, nv, cp) && view in newViewStore
      modifies `activeView, `newViewStore, `certStore, `seqNo, `viewChangeSeqNo, `now, `log
      ensures Valid() && Pending() == old(Pending()) && Goes() && ViewsLeft() < old(ViewsLeft())
      ensures CanActivate(cfg, old(now), nv, cp, seqNo) && now == DoActivate(old(now), nv, cp, seqNo)
      ensures Mem() == old(Mem()).Then(now).(newViews := old(newViewStore) - {old(view) - 1}, end := cfg.ViewEnd(seqNo))
      ensures certStore == ActivatedCerts(old(now), nv)
      ensures log == old(log) + [now] && now.view == view == old(view) && activeView && now.active
      ensures view in now.acts && now.acts[view].nv == nv
      ensures forall p :: PrepareMsg(p) in now.made ==> p.v != view
      ensures forall n :: n in nv.xset ==> viewChangeSeqNo != Some(n)
    {
      hide Next, Recorded, Links, Matches, Evolves, InStep, Settled, Unsent, Inv, CanEnter, CanActivate, DoActivate,
           ActivatedCerts, Config.L, Config.Primary, Config.ViewEnd, ViewsLeft, NullsLeft, WaitingViews, WaitingNulls,
           Mem;
      ghost var a := Snap();
      Fields();
      MemFields();
      NowInv();
      EnterFacts(cfg, now, nv, cp);
      NoVotesWhileInactive(cfg, now);
      EnterView(nv, cp);
      SteppedWithViews();
      ActivateFacts(cfg, a.now, nv, cp, seqNo);
      Fields();
    }

    /** A backup prepares all that the new view assigned, also what is below its watermark. */
    method PrepareAssignments(nv: NewView)
      requires Valid() && activeView && cfg.Primary(view) != id
      requires view in now.acts && now.acts[view].nv == nv && nv.v == view
      requires forall p :: PrepareMsg(p) in now.made ==> p.v != view
      requires forall n :: n in nv.xset ==> viewChangeSeqNo != Some(n)
      modifies this
      ensures Valid() && Pending() == old(Pending()) && Goes()
      ensures activeView && view == old(view)
      ensures forall n :: n in nv.xset ==> AssignmentPrepared(cfg, |old(log)|, Mem(), nv, n)
      ensures forall n :: n in nv.xset ==> PrepareMsg(Prepare(view, n, nv.xset[n], id)) in outbox
      ensures outstandingReqBatches.Keys <= old(outstandingReqBatches.Keys)
      decreases ViewsLeft(), NullsLeft(), Free(), 11
    {
      hide Next, Recorded, Links, Matches, Evolves, InStep, Settled, Unsent, AssignmentPrepared, ViewsLeft, NullsLeft,
           WaitingViews, WaitingNulls, Mem;
      ghost var a := Snap();
      EvolvesSelf(cfg, a);
      Fields();
      var keys := nv.xset.Keys;
      while keys != {}
        invariant keys <= nv.xset.Keys
        invariant Valid() && Pending() == old(Pending())
        invariant Evolves(a, Snap()) && InStep(a, Snap())
        invariant view == old(view) && viewChangeSeqNo == old(viewChangeSeqNo)
        invariant outstandingReqBatches.Keys <= old(outstandingReqBatches.Keys)
        invariant Preparing(cfg, id, now, nv, old(view), keys)
        invariant forall n :: n in nv.xset && n !in keys ==> AssignmentPrepared(cfg, |a.log|, Mem(), nv, n)
        decreases |keys|
      {
        var n :| n in keys;
        Measured(a, Snap());
        MemFields();
        ghost var b, mid := Snap(), Mem();
        PrepareAssignment(nv, n, keys);
        Then(cfg, a, b, Snap());
        Measured(b, Snap());
        OutboxGoesOn(b, Snap());
        MemFields();
        AssignmentsStay(cfg, |a.log|, |b.log|, mid, Mem(), nv, n, keys);
        keys := keys - {n};
      }
      Fields();
      MemFields();
      AssignmentsSent(cfg, |a.log|, Mem(), nv);
    }

    /** One assignment is prepared, counted if it is above the watermark, and broadcast. */
    method PrepareAssignment(nv: NewView, n: nat, ghost keys: set<nat>)
      requires Valid() && n in keys && keys <= nv.xset.Keys && nv.v == view
      requires Preparing(cfg, id, now, nv, view, keys) && viewChangeSeqNo != Some(n)
      modifies this
      ensures Valid() && Pending() == old(Pending()) && Goes()
      ensures view == old(view) && viewChangeSeqNo == old(viewChangeSeqNo)
      ensures Preparing(cfg, id, now, nv, view, keys - {n})
      ensures AssignmentPrepared(cfg, |old(log)|, Mem(), nv, n)
      ensures outstandingReqBatches.Keys <= old(outstandingReqBatches.Keys)
      decreases ViewsLeft(), NullsLeft(), Free(), 10
    {
      hide Next, Recorded, Links, Matches, Evolves, InStep, Settled, Unsent, Preparing, CanCastNewViewPrepare,
           DoCastNewViewPrepare, CanCountPrepare, DoCountPrepare, CommitOwed, PrepareHandled, AssignmentPrepared,
           Config.L, Config.Primary, ViewsLeft, NullsLeft, WaitingViews, WaitingNulls, Mem;
      ghost var b := Snap();
      Fields();
      PresentInLog();
      PreparingAllows(cfg, id, now, nv, view, keys, n);
      var prep := Prepare(view, n, nv.xset[n], id);
      UnmadeIsNotUnsent(now.made, outbox, PrepareMsg(prep));
      var above := n > h;
      MarkNewViewPrepared(n, nv.xset[n]);
      ghost var c := Snap();
      Measured(b, c);
      PreparingMarked(cfg, id, b.now, nv, view, keys, n);
      if above {
        RecvPrepare(prep);
      } else {
        BelowWindow(cfg, c.now, prep);
        EvolvesSelf(cfg, c);
      }
      ghost var e := Snap();
      Then(cfg, b, c, e);
      Measured(c, e);
      PreparingStays(cfg, id, c, e, nv, prep.v, keys - {n});
      Fields();
      Broadcast(PrepareMsg(prep));
      assert outbox[|outbox| - 1] == PrepareMsg(prep);
      Then(cfg, b, e, Snap());
      MemFields();
      AssignmentDone(cfg, b.log, b.now, c.now, Mem(), nv, prep);
    }

    // ----- Events -----

    /** Between events nothing is left unsent, an execution in flight is the next one, and a watermark
        beyond execution means that the replica is catching up. */
    ghost predicate Ready()
      reads this
    {
      Valid() && Pending() == {} && Calm(now)
    }

    /** A pre-prepare is accepted unless its slot holds another digest, which ends the view. A backup
        that holds the batch prepares it, once. */
    method RecvPrePrepare(p: PrePrepare)
      requires Ready() && PrePrepareMsg(p) in now.got
      modifies this
      ensures Ready() && old(log) <= log && old(outbox) <= outbox
      ensures PrePrepareHandled(cfg, old(Mem()), Mem(), p)
      ensures var fits := && old(activeView) && cfg.Primary(old(view)) == p.sender
                          && p.v == old(view) && old(h) < p.n <= old(h) + cfg.L();
              var clashes := || (old(viewChangeSeqNo).Some? && old(viewChangeSeqNo).value < p.n)
                             || old(GetCert(p.v, p.n)).digest !in {Null, p.d};
              if !fits then unchanged(this)
              else if clashes then old(view) < view && SentViewChange(old(view) + 1)
              else
                && old(log) + [DoAcceptPrePrepare(old(now), p)] <= log
                && ((p.d == Null || p.d in old(reqBatchStore) || p.d == Hash(p.batch))
                    && cfg.Primary(old(view)) != id && !old(GetCert(p.v, p.n)).sentPrepare ==>
                      PrepareMsg(Prepare(p.v, p.n, p.d, id)) in outbox)
    {
      hide Next, Recorded, Links, Matches, LogShows, Evolves, InStep, Settled, Stepwise, Unsent, Inv, Calm,
           DoAcceptPrePrepare, MayLeave, PrePrepareFiled, ViewLeft, ViewLeftWith, CanChangeView, LeftFor,
           SentViewChange, Limit, ViewsLeft, NullsLeft, WaitingViews, WaitingNulls, PrePrepareHandled, Mem;
      ghost var a, was := Snap(), Mem();
      Fields();
      MemFields();
      PresentLimit(now.execs);
      PrePrepareIgnored(cfg, was, p);
      if !activeView {
        return;
      }
      if cfg.Primary(view) != p.sender {
        return;
      }
      if !(view == p.v && h < p.n <= h + cfg.L()) {
        return;
      }
      if viewChangeSeqNo.Some? && p.n > viewChangeSeqNo.value {
        OffenceIsReason(p);
        var quorum := SendViewChange();
        StaysCalm(a, Snap());
        PrePrepareRejected(cfg, was, Mem(), p);
        return;
      }
      var cert := GetCert(p.v, p.n);
      if cert.digest != Null && cert.digest != p.d {
        OffenceIsReason(p);
        var quorum := SendViewChange();
        StaysCalm(a, Snap());
        PrePrepareRejected(cfg, was, Mem(), p);
        return;
      }
      AcceptPrePrepare(p);
      PrePrepareTaken(cfg, was, Mem(), p);
    }

    twostate lemma StoredView()
      requires unchanged(`log) && unchanged(`now)
      requires unchanged(`outbox) && unchanged(`outstandingReqBatches) && unchanged(`missingReqBatches)
      requires unchanged(`hChkpts) && unchanged(`viewChangeStore) && unchanged(`viewChangeSeqNo)
      requires unchanged(`highStateTarget) && unchanged(`stateTransferring) && unchanged(`panicked)
      ensures Mem() == old(Mem()).(newViews := newViewStore)
    {
    }

    lemma OffenceIsReason(p: PrePrepare)
      requires Valid() && PrePrepareMsg(p) in now.got && Considers(cfg, now, p) && Rejects(cfg, now, p)
      ensures MayLeave(view + 1)
    {
      hide Recorded, Links, Limit, Joins, Ends, TurnsDown, ForesawIn;
      assert Offends(cfg, now, p);
    }

    method AcceptPrePrepare(p: PrePrepare)
      requires Ready() && CanAcceptPrePrepare(cfg, now, p)
      modifies this
      ensures Ready() && old(outbox) <= outbox
      ensures PrePrepareFiled(cfg, old(Mem()).Then(DoAcceptPrePrepare(old(now), p)), Mem(), p)
      ensures old(log) + [DoAcceptPrePrepare(old(now), p)] <= log
      ensures (p.d == Null || p.d in old(reqBatchStore) || p.d == Hash(p.batch))
              && cfg.Primary(old(view)) != id && !old(GetCert(p.v, p.n)).sentPrepare ==>
                PrepareMsg(Prepare(p.v, p.n, p.d, id)) in outbox
    {
      hide Next, Recorded, Links, Matches, LogShows, Evolves, InStep, Settled, Unsent, Inv, DoAcceptPrePrepare, Calm,
           PrepareTried, ViewsLeft, NullsLeft, WaitingViews, WaitingNulls;
      ghost var a := Snap();
      Fields();
      SetPrePrepare(p);
      ghost var b := Snap();
      AcceptedFields(a.now, p);
      AcceptedCalm(a.now, p);
      var ok := StoreBatch(p);
      ghost var c := Snap();
      Measured(b, c);
      StaysCalm(b, c);
      FirstStays(a.log, b.now, b.log, c.log);
      if !ok {
        return;
      }
      PreparePrePrepare(p);
      StaysCalm(c, Snap());
      PrefixTrans(b.log, c.log, log);
    }

    /** The batch of a pre-prepare is kept if it is not at hand and is the one named. */
    method StoreBatch(p: PrePrepare) returns (ok: bool)
      requires Valid()
      modifies `reqBatchStore, `outstandingReqBatches, `now, `log
      ensures Valid() && Pending() == old(Pending()) && Goes()
      ensures ok <==> p.d == Null || p.d in old(reqBatchStore) || p.d == Hash(p.batch)
      ensures p.d == Null || p.d in old(now).batches || p.d != Hash(p.batch) ==> Mem() == old(Mem())
      ensures p.d != Null && p.d !in old(now).batches && p.d == Hash(p.batch) ==>
                Mem() == old(Mem()).Then(Kept(old(now), p.batch)).(
                           outstanding := old(outstandingReqBatches)[p.d := p.batch])
      ensures now == old(now).(batches := now.batches)
      ensures ok ==> p.d == Null || p.d in now.batches
    {
      hide Next, Recorded, Links, Matches, Evolves, InStep, Settled, Unsent, ViewsLeft, NullsLeft, WaitingViews,
           WaitingNulls;
      EvolvesSelf(cfg, Snap());
      Fields();
      if p.d !in reqBatchStore && p.d != Null {
        var digest := Hash(p.batch);
        if digest != p.d {
          return false;
        }
        KeepBatch(p.batch);
      }
      return true;
    }

    method PreparePrePrepare(p: PrePrepare)
      requires Valid() && activeView && view == p.v && InW(cfg, now, p.n)
      requires Slot(p.v, p.n) in now.certs && now.certs[Slot(p.v, p.n)].prePrepare == Some(p)
      requires now.certs[Slot(p.v, p.n)].digest == p.d
      requires p.d == Null || p.d in now.batches
      modifies this
      ensures Valid() && Pending() == old(Pending()) && Goes()
      ensures PrepareTried(cfg, old(Mem()), Mem(), p)
      ensures cfg.Primary(old(view)) != id && !old(now).certs[Slot(p.v, p.n)].sentPrepare ==>
                PrepareMsg(Prepare(p.v, p.n, p.d, id)) in outbox
    {
      hide Next, Recorded, Links, Matches, LogShows, Evolves, InStep, Settled, Unsent, PrepareSent, ViewsLeft,
           NullsLeft, WaitingViews, WaitingNulls;
      EvolvesSelf(cfg, Snap());
      Fields();
      if cfg.Primary(view) != id {
        var pre := IsPrePrepared(p.d, p.v, p.n);
        AcceptedIsPrePrepared(cfg, now, p);
        if pre && !GetCert(p.v, p.n).sentPrepare {
          SendPrepare(p.n);
        }
      }
    }

    method SendPrepare(n: nat)
      requires Valid() && CanCastPrepare(cfg, now, n) && InW(cfg, now, n)
      modifies this
      ensures Valid() && Pending() == old(Pending()) && Goes()
      ensures var p := Prepare(old(view), n, old(now).CertAt(Slot(old(view), n)).digest, id);
              PrepareSent(cfg, old(Mem()), Mem(), p) && PrepareMsg(p) in outbox
    {
      hide Next, Recorded, Links, Matches, Evolves, InStep, Settled, Unsent, Inv, CanCastPrepare, DoCastPrepare,
           PrepareHandled, ViewsLeft, NullsLeft, WaitingViews, WaitingNulls;
      ghost var a := Snap();
      Fields();
      NowInv();
      CastNeedsNone(cfg, now, n);
      UnsentPrepare(cfg, now, n);
      var prep := Prepare(view, n, GetCert(view, n).digest, id);
      UnmadeIsNotUnsent(now.made, outbox, PrepareMsg(prep));
      MarkPrepared(n);
      ghost var b := Snap();
      PrepareIsMade(a.now, n);
      RecvPrepare(prep);
      ghost var c, counted := Snap(), Mem();
      Then(cfg, a, b, c);
      Measured(b, c);
      Broadcast(PrepareMsg(prep));
      assert Mem() == counted.Sent(PrepareMsg(prep));
      assert outbox[|outbox| - 1] == PrepareMsg(prep);
      Then(cfg, a, c, Snap());
    }

    /** A new-view is stored, one per view and only from its primary; then the stored new-view for the
        present view, this one or an earlier one, is processed. */
    method RecvNewView(nv: NewView)
      requires Ready() && NewViewMsg(nv) in now.got
      modifies this
      ensures Ready() && old(log) <= log && old(outbox) <= outbox
      ensures NewViewHandled(cfg, old(Mem()), Mem(), nv)
      ensures !Stores(cfg, old(Mem()), nv) ==> unchanged(this)
      ensures Stores(cfg, old(Mem()), nv)
              && (old(activeView) || (old(view) < nv.v && old(view) !in old(newViewStore))) ==>
                now == old(now) && outbox == old(outbox) && newViewStore == old(newViewStore)[nv.v := nv]
      ensures Stores(cfg, old(Mem()), nv) && !old(activeView)
              && (nv.v == old(view) || old(view) in old(newViewStore)) ==>
                var present := if nv.v == old(view) then nv else old(newViewStore)[old(view)];
                Answers(old(Mem()), old(now), present) && (Delays(cfg, old(now), present) ==> now == old(now))
    {
      hide Next, Recorded, Matches, Evolves, InStep, Settled, Unsent, Inv, Calm, BatchesHashed, ReportsTracked,
           OutboxMade, CallsMade, ViewChangesStored, PeriodKept, Refuses, Delays, Approves, Answers,
           NewViewProcessed, ViewsLeft, NullsLeft, WaitingViews, WaitingNulls, Mem;
      ghost var was := Mem();
      Fields();
      MemFields();
      if !(nv.v > 0 && nv.v >= view && cfg.Primary(nv.v) == nv.sender && nv.v !in newViewStore) {
        return;
      }
      newViewStore := newViewStore[nv.v := nv];
      StoredView();
      MemFields();
      ghost var b := Snap();
      EvolvesSelf(cfg, b);
      ghost var stored := Mem();
      ProcessNewView();
      AnsweredEarlier(was, stored, was.now);
      Measured(b, Snap());
      StaysCalm(b, Snap());
    }

    /** What can be seen of the replica after message m, when it remembered f before. */
    ghost predicate Responds(f: Memory, m: Msg)
      requires cfg.Valid()
      reads this
    {
      match m
      case BatchMsg(b) =>
        && f.log + [Kept(f.now, b)] <= log
        && (MayIssue(cfg, f.now, b) ==> PrePrepareMsg(IssuedPrePrepare(f.now, b)) in outbox)
      case PrePrepareMsg(p) =>
        var clashes := || (f.end.Some? && f.end.value < p.n)
                       || f.now.CertAt(Slot(p.v, p.n)).digest !in {Null, p.d};
        f.now.active && cfg.Primary(f.now.view) == p.sender && InWV(cfg, f.now, p.v, p.n) ==>
          if clashes then f.now.view < view && SentViewChange(f.now.view + 1)
          else
            && f.log + [DoAcceptPrePrepare(f.now, p)] <= log
            && ((p.d == Null || p.d in f.now.batches || p.d == Hash(p.batch))
                && cfg.Primary(f.now.view) != id && !f.now.CertAt(Slot(p.v, p.n)).sentPrepare ==>
                  PrepareMsg(Prepare(p.v, p.n, p.d, id)) in outbox)
      case PrepareMsg(p) =>
        CanCountPrepare(cfg, f.now, p) ==>
          var counted := DoCountPrepare(f.now, p);
          && f.log + [counted] <= log
          && (Prepared(cfg, counted, p.d, p.v, p.n) && !counted.CertAt(Slot(p.v, p.n)).sentCommit ==>
                CommitMsg(Commit(p.v, p.n, p.d, id)) in outbox)
      case CommitMsg(c) =>
        CanCountCommit(cfg, f.now, c) ==>
          && f.log + [DoCountCommit(f.now, c)] <= log
          && (Committed(cfg, DoCountCommit(f.now, c), c.d, c.v, c.n) ==>
                && Exhausted() && c.d !in outstandingReqBatches
                && (f.end == Some(c.n) ==> f.now.view < view && SentViewChange(f.now.view + 1)))
      case CheckpointMsg(k) =>
        if FarBehind(cfg, f, k) then f.now.h + cfg.L() <= h && skipInProgress
        else
          InW(cfg, f.now, k.n) ==>
            var stored := f.now.(ckpts := f.now.ckpts + {k});
            && f.log + [stored] <= log
            && (if && |CheckpointVoters(stored.ckpts, k.n, k.id)| >= cfg.IntersectionQuorum()
                   && (k.n in f.now.chkpts || (f.now.skip && f.now.h + cfg.L() / 2 <= k.n)) then
                  && cfg.Floor(k.n) <= h
                  && (k.n in f.now.chkpts && !f.now.active && f.now.view in f.newViews ==>
                        Answers(f, Moved(cfg, stored, OnQuorum(k), k.n), f.newViews[f.now.view]))
                else now == stored && outbox == f.outbox)
      case ViewChangeMsg(vc) =>
        f.now.view <= vc.v && CorrectViewChange(cfg, vc) && VcKey(vc.v, vc.sender) !in f.viewChanges ==>
          var store := f.viewChanges[VcKey(vc.v, vc.sender) := vc];
          if |Ahead(store, f.now.view)| >= cfg.f + 1 then f.now.view < view && !activeView && ViewChangeSent()
          else viewChangeStore == store
      case NewViewMsg(nv) =>
        0 < nv.v && f.now.view <= nv.v && nv.sender == cfg.Primary(nv.v) && nv.v !in f.newViews ==>
          var store := f.newViews[nv.v := nv];
          if f.now.active || f.now.view !in store then newViewStore == store
          else Answers(f, f.now, store[f.now.view])
      case FetchMsg(_, _) => true
    }

    /** The switch of `ProcessEvent`: each kind of message goes to its handler. */
    method Dispatch(m: Msg)
      requires Ready() && m in now.got
      modifies this
      ensures Ready() && old(log) <= log && old(outbox) <= outbox
      ensures Handled(cfg, old(Mem()), Mem(), m) && Responds(old(Mem()), m)
    {
      hide Next, Recorded, Matches, Links, Evolves, InStep, Settled, Unsent, Inv, Calm, BatchHandled,
           PrePrepareHandled, PrepareHandled, CommitHandled, CheckpointHandled, ViewChangeHandled, NewViewHandled,
           MayIssue, CanCountPrepare, DoCountPrepare, Prepared, CanCountCommit, Committed, FarBehind, CheckpointVoters,
           Moved, CorrectViewChange, Ahead, Answers, SentViewChange, Exhausted, Mem, ViewsLeft, NullsLeft,
           WaitingViews, WaitingNulls;
      ghost var b := Snap();
      EvolvesSelf(cfg, b);
      Fields();
      MemFields();
      match m {
        case BatchMsg(batch) => RecvRequestBatch(batch);
        case PrePrepareMsg(pp) =>
          RecvPrePrepare(pp);
          return;
        case PrepareMsg(prepare) =>
          CountedOwes(cfg, now, prepare);
          RecvPrepare(prepare);
        case CommitMsg(commit) => RecvCommit(commit);
        case CheckpointMsg(chkpt) => RecvCheckpoint(chkpt);
        case ViewChangeMsg(vc) => var quorum := RecvViewChange(vc);
        case NewViewMsg(nv) =>
          RecvNewView(nv);
          return;
        case FetchMsg(_, _) =>
      }
      Measured(b, Snap());
      StaysCalm(b, Snap());
    }

    /** `ProcessEvent`: a message reaches the replica and is handed to its handler. */
    method ProcessEvent(m: Msg)
      requires Ready() && CanHear(cfg, now, m)
      modifies this
      ensures Ready() && old(outbox) <= outbox
      ensures old(log) + [old(now).(got := old(now).got + {m})] <= log
      ensures var heard := old(Mem()).Then(old(now).(got := old(now).got + {m}));
              Handled(cfg, heard, Mem(), m) && Responds(heard, m)
    {
      hide Next, Recorded, Matches, Links, Unsent, Inv, Calm, CanHear, Handled, Responds, Mem;
      ghost var a := Snap();
      Hear(m);
      Stepped();
      ghost var b := Snap();
      HeardFields(a.now, m);
      Dispatch(m);
      FirstStays(a.log, b.now, b.log, log);
    }

    /** The consumer reports that the execution in flight is done. */
    method ExecutionDone()
      requires Ready()
      modifies this
      ensures Ready() && old(log) <= log && old(outbox) <= outbox
      ensures Exhausted()
      ensures old(currentExec).Some? ==> ExecutionEnded(cfg, old(Mem()), Mem())
      ensures old(currentExec).Some? ==> old(log) + [old(now).(lastExec := old(now).lastExec + 1)] <= log
      ensures old(currentExec).Some? && cfg.IsMultiple(old(lastExec) + 1) ==> OwnCheckpointSent(old(lastExec) + 1)
      ensures old(currentExec).None? ==> Mem() == old(Mem()).Then(old(now).(skip := true)) && skipInProgress
    {
      hide Next, Recorded, Matches, Links, Evolves, InStep, Settled, Unsent, Inv, Calm, Exhausted, ExecutionEnded,
           ViewsLeft, NullsLeft, WaitingViews, WaitingNulls;
      ghost var a := Snap();
      Fields();
      CalmExec(now);
      ExecDoneSync();
      StaysCalmIdle(a, Snap());
    }
  }
}
