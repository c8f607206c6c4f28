/** What a replica reads back from its store when it starts again. */
module PbftRestore {
  import opened PbftTypes
  import opened Quorums
  import opened ReplicaSteps
  import opened ReplicaLoops

  /** A persisted checkpoint; no number if its key cannot be parsed. */
  datatype StoredCheckpoint = StoredCheckpoint(n: Option<nat>, id: StateId)

  /** The answers of the consumer's store; None where reading or decoding fails. The lists of batches
      and checkpoints come in the order in which the map that holds them is walked. */
  datatype Store = Store(pset: Option<seq<PQ>>, qset: Option<seq<PQ>>, batches: Option<seq<Option<RequestBatch>>>,
                         lastSeqNo: Option<nat>, chkpts: Option<seq<StoredCheckpoint>>)
  {
    function P(): seq<PQ> {
      if pset.Some? then pset.value else []
    }

    function Q(): seq<PQ> {
      if qset.Some? then qset.value else []
    }

    function LastExec(): nat {
      if lastSeqNo.Some? then lastSeqNo.value else 0
    }

    function Chkpts(): seq<StoredCheckpoint> {
      if chkpts.Some? then chkpts.value else []
    }

    /** The batches that can be read. */
    ghost function Batches(): set<Digest> {
      set b | b in (if batches.Some? then batches.value else []) && b.Some? :: Hash(b.value)
    }
  }

  /** m is the greatest of the values, or 0 if there are none. */
  ghost predicate Greatest(m: nat, values: set<nat>) {
    (forall v :: v in values ==> v <= m) && (m == 0 || m in values)
  }

  ghost function EntryViews(es: seq<PQ>): set<nat> {
    set e | e in es :: e.v
  }

  ghost function EntryNumbers(es: seq<PQ>): set<nat> {
    set e | e in es :: e.n
  }

  ghost predicate StoredAt(cs: seq<StoredCheckpoint>, n: nat, id: StateId) {
    StoredCheckpoint(Some(n), id) in cs
  }

  /** n is not above the last execution nor above any stored checkpoint. */
  ghost predicate BelowAll(store: Store, n: nat) {
    n <= store.LastExec() && forall c :: c in store.Chkpts() && c.n.Some? ==> n <= c.n.value
  }

  /** The greatest multiple of K that is not above all that. */
  ghost predicate LowWatermark(cfg: Config, store: Store, h: nat)
    requires cfg.Valid()
  {
    && cfg.IsMultiple(h)
    && BelowAll(store, h)
    && forall m: nat :: cfg.IsMultiple(m) && BelowAll(store, m) ==> m <= h
  }

  /** e is the last of the entries for number n ... */
  ghost predicate LastFor(es: seq<PQ>, n: nat, e: PQ) {
    exists i :: 0 <= i < |es| && es[i] == e && e.n == n && forall j :: i < j < |es| ==> es[j].n != n
  }

  /** ... or for digest and number k. */
  ghost predicate LastOf(es: seq<PQ>, k: QKey, e: PQ) {
    exists i :: 0 <= i < |es| && es[i] == e && QKey(e.d, e.n) == k
                && forall j :: i < j < |es| ==> QKey(es[j].d, es[j].n) != k
  }

  lemma LastGoesOn(es: seq<PQ>, e: PQ)
    ensures LastFor(es + [e], e.n, e) && LastOf(es + [e], QKey(e.d, e.n), e)
    ensures forall n, x :: LastFor(es, n, x) && n != e.n ==> LastFor(es + [e], n, x)
    ensures forall k, x :: LastOf(es, k, x) && k != QKey(e.d, e.n) ==> LastOf(es + [e], k, x)
  {
    var more := es + [e];
    assert more[|es|] == e;
    forall n, x | LastFor(es, n, x) && n != e.n ensures LastFor(more, n, x) {
      var i :| 0 <= i < |es| && es[i] == x && x.n == n && forall j :: i < j < |es| ==> es[j].n != n;
      assert more[i] == x;
    }
    forall k, x | LastOf(es, k, x) && k != QKey(e.d, e.n) ensures LastOf(more, k, x) {
      var i :| 0 <= i < |es| && es[i] == x && QKey(x.d, x.n) == k
               && forall j :: i < j < |es| ==> QKey(es[j].d, es[j].n) != k;
      assert more[i] == x;
    }
  }

  lemma GreatestOfMore(m: nat, values: set<nat>, v: nat)
    requires Greatest(m, values)
    ensures Greatest(if m < v then v else m, values + {v})
  {
  }

  lemma FloorOfLowest(cfg: Config, store: Store, low: nat)
    requires cfg.Valid() && BelowAll(store, low) && forall m: nat :: BelowAll(store, m) ==> m <= low
    ensures LowWatermark(cfg, store, cfg.Floor(low))
  {
    FloorIsMultiple(cfg, low);
    forall m: nat | cfg.IsMultiple(m) && BelowAll(store, m) ensures m <= cfg.Floor(low) {
      FloorMonotone(cfg, m, low);
    }
  }

  class RestoredReplica {
    const cfg: Config

    var view: nat
    var seqNo: nat
    var lastExec: nat
    var h: nat
    var pset: map<nat, PQ>
    var qset: map<QKey, PQ>
    var reqBatchStore: map<Digest, RequestBatch>
    var chkpts: map<nat, StateId>

    /** The view and the last number given out bound every entry read back; with readable checkpoints
        the watermark is as high as it may be, none of them is dropped, and no entry is at or below
        the watermark. */
    constructor (cfg: Config, store: Store)
      requires cfg.Valid()
      ensures this.cfg == cfg && lastExec == store.LastExec()
      ensures Greatest(view, EntryViews(store.P() + store.Q())) && Greatest(seqNo, EntryNumbers(store.P() + store.Q()))
      ensures if store.chkpts.Some? then LowWatermark(cfg, store, h) else h == 0
      ensures store.chkpts.Some? ==>
                && (forall n :: n in pset ==> h < n) && (forall k :: k in qset ==> h < k.n)
                && (forall e :: e in store.P() && h < e.n ==> e.n in pset)
                && (forall e :: e in store.Q() && h < e.n ==> QKey(e.d, e.n) in qset)
      ensures forall n :: n in pset ==> LastFor(store.P(), n, pset[n])
      ensures forall k :: k in qset ==> LastOf(store.Q(), k, qset[k])
      ensures forall c :: c in store.Chkpts() && c.n.Some? ==> c.n.value in chkpts
      ensures forall n :: n in chkpts ==>
                StoredAt(store.Chkpts(), n, chkpts[n]) || (n == 0 == h && chkpts[n] == "XXX GENESIS")
      ensures Hashed(reqBatchStore) && reqBatchStore.Keys == store.Batches()
    {
      this.cfg := cfg;
      view, seqNo, lastExec, h := 0, 0, 0, 0;
      pset, qset, reqBatchStore := map[], map[], map[];
      chkpts := map[0 := "XXX GENESIS"];
      new;
      RestoreState(store);
    }

    /** The protocol state in which replica id starts again: in the restored view, with an empty log, and
        with no memory of what it sent. */
    ghost function Protocol(id: nat): State
      reads this
    {
      Initial(id).(view := view, seqNo := seqNo, lastExec := lastExec, h := h, pset := pset, qset := qset,
                   batches := reqBatchStore.Keys, chkpts := chkpts)
    }

    method UpdateSeqView(es: seq<PQ>, ghost before: seq<PQ>)
      requires Greatest(view, EntryViews(before)) && Greatest(seqNo, EntryNumbers(before))
      modifies `view, `seqNo
      ensures Greatest(view, EntryViews(before + es)) && Greatest(seqNo, EntryNumbers(before + es))
    {
      assert before + es[..0] == before;
      for i := 0 to |es|
        invariant Greatest(view, EntryViews(before + es[..i])) && Greatest(seqNo, EntryNumbers(before + es[..i]))
      {
        hide Greatest, EntryViews, EntryNumbers;
        var e := es[i];
        assert before + es[..i + 1] == before + es[..i] + [e];
        OneMore(before + es[..i], e);
        GreatestOfMore(view, EntryViews(before + es[..i]), e.v);
        GreatestOfMore(seqNo, EntryNumbers(before + es[..i]), e.n);
        if view < e.v {
          view := e.v;
        }
        if seqNo < e.n {
          seqNo := e.n;
        }
      }
      assert es[..|es|] == es;
    }

    static lemma OneMore(es: seq<PQ>, e: PQ)
      ensures EntryViews(es + [e]) == EntryViews(es) + {e.v}
      ensures EntryNumbers(es + [e]) == EntryNumbers(es) + {e.n}
    {
    }

    /** Later entries for a number replace earlier ones. */
    method RestoreP(es: seq<PQ>)
      requires pset == map[]
      modifies `pset
      ensures forall e :: e in es ==> e.n in pset
      ensures forall n :: n in pset ==> LastFor(es, n, pset[n])
    {
      for i := 0 to |es|
        invariant forall j :: 0 <= j < i ==> es[j].n in pset
        invariant forall n :: n in pset ==> LastFor(es[..i], n, pset[n])
      {
        LastGoesOn(es[..i], es[i]);
        assert es[..i + 1] == es[..i] + [es[i]];
        pset := pset[es[i].n := es[i]];
      }
      assert es[..|es|] == es;
    }

    method RestoreQ(es: seq<PQ>)
      requires qset == map[]
      modifies `qset
      ensures forall e :: e in es ==> QKey(e.d, e.n) in qset
      ensures forall k :: k in qset ==> LastOf(es, k, qset[k])
    {
      for i := 0 to |es|
        invariant forall j :: 0 <= j < i ==> QKey(es[j].d, es[j].n) in qset
        invariant forall k :: k in qset ==> LastOf(es[..i], k, qset[k])
      {
        LastGoesOn(es[..i], es[i]);
        assert es[..i + 1] == es[..i] + [es[i]];
        qset := qset[QKey(es[i].d, es[i].n) := es[i]];
      }
      assert es[..|es|] == es;
    }

    /** Batches that cannot be decoded are left out. */
    method RestoreBatches(bs: seq<Option<RequestBatch>>)
      requires reqBatchStore == map[]
      modifies `reqBatchStore
      ensures Hashed(reqBatchStore) && reqBatchStore.Keys == set b | b in bs && b.Some? :: Hash(b.value)
    {
      for i := 0 to |bs|
        invariant Hashed(reqBatchStore) && reqBatchStore.Keys == set b | b in bs[..i] && b.Some? :: Hash(b.value)
      {
        assert bs[..i + 1] == bs[..i] + [bs[i]];
        if bs[i].Some? {
          reqBatchStore := reqBatchStore[Hash(bs[i].value) := bs[i].value];
        }
      }
      assert bs[..|bs|] == bs;
    }

    /** The checkpoints are taken over; the result is the least of their numbers and the last execution. */
    method RestoreCheckpoints(store: Store) returns (lowWatermark: nat)
      requires lastExec == store.LastExec() && chkpts == map[0 := "XXX GENESIS"]
      modifies `chkpts
      ensures BelowAll(store, lowWatermark) && forall m: nat :: BelowAll(store, m) ==> m <= lowWatermark
      ensures forall c :: c in store.Chkpts() && c.n.Some? ==> c.n.value in chkpts
      ensures forall n :: n in chkpts ==>
                StoredAt(store.Chkpts(), n, chkpts[n]) || (n == 0 && chkpts[n] == "XXX GENESIS")
    {
      lowWatermark := lastExec;
      var cs := store.Chkpts();
      for i := 0 to |cs|
        invariant lowWatermark <= lastExec && forall j :: 0 <= j < i && cs[j].n.Some? ==> lowWatermark <= cs[j].n.value
        invariant forall m: nat :: BelowAll(store, m) ==> m <= lowWatermark
        invariant forall j :: 0 <= j < i && cs[j].n.Some? ==> cs[j].n.value in chkpts
        invariant forall n :: n in chkpts ==> StoredAt(cs, n, chkpts[n]) || (n == 0 && chkpts[n] == "XXX GENESIS")
      {
        if cs[i].n.Some? {
          var seqNo := cs[i].n.value;
          assert cs[i] == StoredCheckpoint(Some(seqNo), cs[i].id);
          chkpts := chkpts[seqNo := cs[i].id];
          if seqNo < lowWatermark {
            lowWatermark := seqNo;
          }
        }
      }
    }

    /** `moveWatermarks` on a replica without certificates and checkpoint messages. */
    method MoveWatermarks(n: nat)
      requires cfg.Valid()
      modifies `pset, `qset, `chkpts, `h
      ensures h == cfg.Floor(n)
      ensures pset == EntriesOver(old(pset), h) && qset == KeysOver(old(qset), h)
      ensures chkpts == CheckpointsFrom(old(chkpts), h)
    {
      FloorIsRounding(cfg, n);
      var low := n / cfg.K * cfg.K;
      pset := EntriesAbove(pset, low);
      qset := KeysAbove(qset, low);
      chkpts := OwnCheckpointsFrom(chkpts, low);
      h := low;
    }

    method RestoreState(store: Store)
      requires cfg.Valid() && view == seqNo == lastExec == h == 0
      requires pset == map[] && qset == map[] && reqBatchStore == map[] && chkpts == map[0 := "XXX GENESIS"]
      modifies this
      ensures lastExec == store.LastExec()
      ensures Greatest(view, EntryViews(store.P() + store.Q())) && Greatest(seqNo, EntryNumbers(store.P() + store.Q()))
      ensures if store.chkpts.Some? then LowWatermark(cfg, store, h) else h == 0
      ensures store.chkpts.Some? ==>
                && (forall n :: n in pset ==> h < n) && (forall k :: k in qset ==> h < k.n)
                && (forall e :: e in store.P() && h < e.n ==> e.n in pset)
                && (forall e :: e in store.Q() && h < e.n ==> QKey(e.d, e.n) in qset)
      ensures forall n :: n in pset ==> LastFor(store.P(), n, pset[n])
      ensures forall k :: k in qset ==> LastOf(store.Q(), k, qset[k])
      ensures forall c :: c in store.Chkpts() && c.n.Some? ==> c.n.value in chkpts
      ensures forall n :: n in chkpts ==>
                StoredAt(store.Chkpts(), n, chkpts[n]) || (n == 0 == h && chkpts[n] == "XXX GENESIS")
      ensures Hashed(reqBatchStore) && reqBatchStore.Keys == store.Batches()
    {
      hide Greatest, LowWatermark, StoredAt, EntryViews, EntryNumbers;
      NothingYet();
      RestoreP(store.P());
      UpdateSeqView(store.P(), []);
      assert [] + store.P() == store.P();
      RestoreQ(store.Q());
      UpdateSeqView(store.Q(), store.P());
      if store.batches.Some? {
        RestoreBatches(store.batches.value);
      }
      lastExec := store.LastExec();
      if store.chkpts.Some? {
        var lowWatermark := RestoreCheckpoints(store);
        FloorOfLowest(cfg, store, lowWatermark);
        MoveWatermarks(lowWatermark);
        KeptCheckpoints(cfg, store, h);
      }
    }

    static lemma NothingYet()
      ensures Greatest(0, EntryViews([])) && Greatest(0, EntryNumbers([]))
    {
    }

    static lemma KeptCheckpoints(cfg: Config, store: Store, h: nat)
      requires cfg.Valid() && LowWatermark(cfg, store, h)
      ensures forall c :: c in store.Chkpts() && c.n.Some? ==> h <= c.n.value
    {
    }
  }
}
