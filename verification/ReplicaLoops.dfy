/** The loops of the replica's handlers that only read or filter one of its stores, each proved
    against the set or count it computes. Map iteration picks any remaining key. */
module ReplicaLoops {
  import opened PbftTypes
  import opened Quorums
  import opened ReplicaSteps

  /** A call of the consumer's `execute`. */
  datatype ExecCall = ExecCall(n: nat, batch: RequestBatch)

  /** Null requests are not handed to the consumer. */
  function Calls(execs: seq<Exec>): seq<ExecCall> {
    if execs == [] then []
    else
      var e := execs[|execs| - 1];
      Calls(execs[..|execs| - 1]) + if e.d == Null then [] else [ExecCall(e.n, BatchOf(e.d))]
  }

  lemma CallsExtend(execs: seq<Exec>, e: Exec)
    ensures Calls(execs + [e]) == Calls(execs) + if e.d == Null then [] else [ExecCall(e.n, BatchOf(e.d))]
  {
    assert (execs + [e])[..|execs|] == execs;
  }

  /** Every batch is stored under its own digest. */
  ghost predicate Hashed(batches: map<Digest, RequestBatch>) {
    forall d :: d in batches ==> d == Hash(batches[d])
  }

  lemma HashedWith(batches: map<Digest, RequestBatch>, b: RequestBatch)
    requires Hashed(batches)
    ensures Hashed(batches[Hash(b) := b])
    ensures batches[Hash(b) := b].Keys == batches.Keys + {Hash(b)}
  {
  }

  /** A stored batch is the one its digest stands for. */
  lemma HashedBatch(batches: map<Digest, RequestBatch>, d: Digest)
    requires Hashed(batches) && d in batches
    ensures d != Null && batches[d] == BatchOf(d)
  {
  }

  // ----- Votes -----

  method CountMatchingPrepares(ps: seq<Prepare>, v: nat, n: nat, d: Digest) returns (quorum: nat)
    ensures quorum == CountPrepares(ps, v, n, d)
  {
    quorum := 0;
    for i := 0 to |ps|
      invariant quorum == CountPrepares(ps[..i], v, n, d)
    {
      assert ps[..i + 1][..i] == ps[..i];
      if ps[i].v == v && ps[i].n == n && ps[i].d == d {
        quorum := quorum + 1;
      }
    }
    assert ps[..|ps|] == ps;
  }

  method CountMatchingCommits(cs: seq<Commit>, v: nat, n: nat) returns (quorum: nat)
    ensures quorum == CountCommits(cs, v, n)
  {
    quorum := 0;
    for i := 0 to |cs|
      invariant quorum == CountCommits(cs[..i], v, n)
    {
      assert cs[..i + 1][..i] == cs[..i];
      if cs[i].v == v && cs[i].n == n {
        quorum := quorum + 1;
      }
    }
    assert cs[..|cs|] == cs;
  }

  // ----- What falls below the watermark -----

  /** The digests of the certificates among done that are at or below low. */
  ghost function DigestsBelow(certs: map<Slot, Cert>, done: set<Slot>, low: nat): set<Digest>
    requires done <= certs.Keys
  {
    set slot | slot in done && slot.n <= low :: certs[slot].digest
  }

  lemma DigestsWith(certs: map<Slot, Cert>, done: set<Slot>, slot: Slot, low: nat)
    requires done <= certs.Keys && slot in certs
    ensures DigestsBelow(certs, done + {slot}, low) ==
            if slot.n <= low then DigestsBelow(certs, done, low) + {certs[slot].digest}
            else DigestsBelow(certs, done, low)
  {
  }

  ghost function CertsOver(certs: map<Slot, Cert>, low: nat): map<Slot, Cert> {
    map slot | slot in certs && low < slot.n :: certs[slot]
  }

  ghost function EntriesOver(m: map<nat, PQ>, low: nat): map<nat, PQ> {
    map n | n in m && low < n :: m[n]
  }

  ghost function CheckpointsFrom(m: map<nat, StateId>, low: nat): map<nat, StateId> {
    map n | n in m && low <= n :: m[n]
  }

  ghost function KeysOver(m: map<QKey, PQ>, low: nat): map<QKey, PQ> {
    map k | k in m && low < k.n :: m[k]
  }

  ghost function CheckpointsOver(s: set<Checkpoint>, low: nat): set<Checkpoint> {
    set k | k in s && low < k.n
  }

  /** The certificates at or below low go, each with the batch of its digest. */
  method DropCerts(certs: map<Slot, Cert>, batches: map<Digest, RequestBatch>, low: nat)
    returns (certs': map<Slot, Cert>, batches': map<Digest, RequestBatch>)
    ensures certs' == CertsOver(certs, low)
    ensures batches'.Keys == batches.Keys - DigestsBelow(certs, certs.Keys, low)
    ensures Hashed(batches) ==> Hashed(batches')
  {
    certs', batches' := certs, batches;
    var keys := certs.Keys;
    ghost var done: set<Slot> := {};
    while keys != {}
      invariant keys <= certs.Keys && done <= certs.Keys
      invariant forall slot :: slot in certs ==> (slot in done <==> slot !in keys)
      invariant forall slot :: slot in certs' <==> slot in certs && (slot in keys || low < slot.n)
      invariant forall slot :: slot in certs' ==> certs'[slot] == certs[slot]
      invariant batches' == batches - DigestsBelow(certs, done, low)
      decreases |keys|
    {
      hide DigestsBelow;
      var idx :| idx in keys;
      DigestsWith(certs, done, idx, low);
      if idx.n <= low {
        MinusMinus(batches, DigestsBelow(certs, done, low), certs[idx].digest);
        batches' := batches' - {certs[idx].digest};
        certs' := certs' - {idx};
      }
      keys := keys - {idx};
      done := done + {idx};
    }
    assert done == certs.Keys;
    MinusKeys(batches, DigestsBelow(certs, done, low));
  }

  lemma MinusKeys<T, U>(m: map<T, U>, s: set<T>)
    ensures (m - s).Keys == m.Keys - s
  {
  }

  lemma MinusMinus<T, U>(m: map<T, U>, s: set<T>, x: T)
    ensures m - s - {x} == m - (s + {x})
  {
  }

  method EntriesAbove(m: map<nat, PQ>, low: nat) returns (r: map<nat, PQ>)
    ensures r == EntriesOver(m, low)
  {
    r := m;
    var keys := m.Keys;
    while keys != {}
      invariant keys <= m.Keys
      invariant forall n :: n in r <==> n in m && (n in keys || low < n)
      invariant forall n :: n in r ==> r[n] == m[n]
      decreases |keys|
    {
      var n :| n in keys;
      keys := keys - {n};
      if n <= low {
        r := r - {n};
      }
    }
  }

  /** An own checkpoint at the watermark itself is kept. */
  method OwnCheckpointsFrom(m: map<nat, StateId>, low: nat) returns (r: map<nat, StateId>)
    ensures r == CheckpointsFrom(m, low)
  {
    r := m;
    var keys := m.Keys;
    while keys != {}
      invariant keys <= m.Keys
      invariant forall n :: n in r <==> n in m && (n in keys || low <= n)
      invariant forall n :: n in r ==> r[n] == m[n]
      decreases |keys|
    {
      var n :| n in keys;
      keys := keys - {n};
      if n < low {
        r := r - {n};
      }
    }
  }

  method KeysAbove(m: map<QKey, PQ>, low: nat) returns (r: map<QKey, PQ>)
    ensures r == KeysOver(m, low)
  {
    r := m;
    var keys := m.Keys;
    while keys != {}
      invariant keys <= m.Keys
      invariant forall k :: k in r <==> k in m && (k in keys || low < k.n)
      invariant forall k :: k in r ==> r[k] == m[k]
      decreases |keys|
    {
      var k :| k in keys;
      keys := keys - {k};
      if k.n <= low {
        r := r - {k};
      }
    }
  }

  method CheckpointsAbove(s: set<Checkpoint>, low: nat) returns (r: set<Checkpoint>)
    ensures r == CheckpointsOver(s, low)
  {
    r := s;
    var keys := s;
    while keys != {}
      invariant keys <= s
      invariant forall k :: k in r <==> k in s && (k in keys || low < k.n)
      decreases |keys|
    {
      var k :| k in keys;
      keys := keys - {k};
      if k.n <= low {
        r := r - {k};
      }
    }
  }

  // ----- Checkpoints -----

  ghost function Matching(store: set<Checkpoint>, k: Checkpoint): set<Checkpoint> {
    set c | c in store && c.n == k.n && c.id == k.id
  }

  /** Matching checkpoints differ in their senders only. */
  lemma {:induction false} MatchingCard(store: set<Checkpoint>, k: Checkpoint)
    ensures |Matching(store, k)| == |CheckpointVoters(store, k.n, k.id)|
    decreases |store|
  {
    if c :| c in Matching(store, k) {
      MatchingCard(store - {c}, k);
      assert Matching(store, k) == Matching(store - {c}, k) + {c};
      assert CheckpointVoters(store, k.n, k.id) == CheckpointVoters(store - {c}, k.n, k.id) + {c.sender};
    } else {
      assert CheckpointVoters(store, k.n, k.id) == set c | c in Matching(store, k) :: c.sender;
    }
  }

  /** The different states reported at the number of k, its own included. */
  ghost function ValuesAt(store: set<Checkpoint>, k: Checkpoint): set<StateId> {
    {k.id} + set c | c in store && c.n == k.n :: c.id
  }

  /** How many replicas reported the checkpoint k, and which values were reported at its number. */
  method CountMatching(store: set<Checkpoint>, k: Checkpoint) returns (matching: nat, values: set<StateId>)
    ensures matching == |CheckpointVoters(store, k.n, k.id)|
    ensures values == ValuesAt(store, k)
  {
    matching, values := 0, {k.id};
    var rest := store;
    while rest != {}
      invariant rest <= store
      invariant matching == |Matching(store - rest, k)|
      invariant values == {k.id} + set c | c in store - rest && c.n == k.n :: c.id
      decreases |rest|
    {
      var c :| c in rest;
      assert store - (rest - {c}) == (store - rest) + {c};
      if c.n == k.n {
        if c.id == k.id {
          assert Matching(store - (rest - {c}), k) == Matching(store - rest, k) + {c};
          matching := matching + 1;
        } else {
          assert Matching(store - (rest - {c}), k) == Matching(store - rest, k);
          values := values + {c.id};
        }
      } else {
        assert Matching(store - (rest - {c}), k) == Matching(store - rest, k);
      }
      rest := rest - {c};
    }
    assert store - {} == store;
    MatchingCard(store, k);
  }

  ghost function Elements(s: seq<nat>): set<nat> {
    set x | x in s
  }

  /** The members of the first weak certificate fill an array of f + 1 places exactly. */
  method WeakCertMembers(store: set<Checkpoint>, k: Checkpoint, f: nat) returns (members: array<nat>)
    requires |CheckpointVoters(store, k.n, k.id)| == f + 1
    ensures fresh(members) && members.Length == f + 1
    ensures Elements(members[..]) == CheckpointVoters(store, k.n, k.id)
  {
    members := new nat[f + 1];
    MatchingCard(store, k);
    var i := 0;
    var rest := store;
    while rest != {}
      invariant rest <= store
      invariant i == |Matching(store - rest, k)| && i <= f + 1
      invariant Elements(members[..i]) == CheckpointVoters(store - rest, k.n, k.id)
      decreases |rest|
    {
      hide Matching, CheckpointVoters;
      var c :| c in rest;
      assert store - (rest - {c}) == (store - rest) + {c};
      MatchingWith(store, store - rest, c, k);
      if c.n == k.n && c.id == k.id {
        ghost var before := members[..i];
        members[i] := c.sender;
        i := i + 1;
        MembersWith(before, c.sender);
        assert members[..i] == before + [c.sender];
      }
      rest := rest - {c};
    }
    assert store - {} == store;
    assert members[..i] == members[..];
  }

  lemma MembersWith(s: seq<nat>, y: nat)
    ensures Elements(s + [y]) == Elements(s) + {y}
  {
  }

  lemma MatchingWith(store: set<Checkpoint>, done: set<Checkpoint>, c: Checkpoint, k: Checkpoint)
    requires done < store && c in store && c !in done
    ensures if c.n == k.n && c.id == k.id then
              && |Matching(done + {c}, k)| == |Matching(done, k)| + 1 <= |Matching(store, k)|
              && CheckpointVoters(done + {c}, k.n, k.id) == CheckpointVoters(done, k.n, k.id) + {c.sender}
            else
              && Matching(done + {c}, k) == Matching(done, k)
              && CheckpointVoters(done + {c}, k.n, k.id) == CheckpointVoters(done, k.n, k.id)
  {
    if c.n == k.n && c.id == k.id {
      assert Matching(done + {c}, k) == Matching(done, k) + {c};
      SubsetCard(Matching(done, k) + {c}, Matching(store, k));
    }
  }

  // ----- Reports beyond the high watermark -----

  ghost function ReportsFrom(reports: map<nat, nat>, m: nat): set<nat> {
    set x | x in reports && m <= reports[x]
  }

  /** The reported numbers in ascending order; ids says who reported each. */
  ghost predicate Sorted(reports: map<nat, nat>, done: set<nat>, values: seq<nat>, ids: seq<nat>) {
    && |ids| == |values|
    && (forall x :: x in ids <==> x in done)
    && (forall i :: 0 <= i < |ids| ==> ids[i] in reports && values[i] == reports[ids[i]])
    && (forall i, j :: 0 <= i < j < |ids| ==> ids[i] != ids[j] && values[i] <= values[j])
  }

  method SortReports(reports: map<nat, nat>) returns (values: seq<nat>, ghost ids: seq<nat>)
    ensures Sorted(reports, reports.Keys, values, ids)
  {
    values, ids := [], [];
    var keys := reports.Keys;
    while keys != {}
      invariant keys <= reports.Keys
      invariant Sorted(reports, reports.Keys - keys, values, ids)
      decreases |keys|
    {
      var x :| x in keys;
      values, ids := Insert(reports, reports.Keys - keys, values, ids, x);
      assert reports.Keys - (keys - {x}) == reports.Keys - keys + {x};
      keys := keys - {x};
    }
  }

  method Insert(reports: map<nat, nat>, ghost done: set<nat>, values: seq<nat>, ghost ids: seq<nat>, x: nat)
    returns (values': seq<nat>, ghost ids': seq<nat>)
    requires Sorted(reports, done, values, ids) && x in reports && x !in done
    ensures Sorted(reports, done + {x}, values', ids')
  {
    var i := 0;
    while i < |values| && values[i] <= reports[x]
      invariant i <= |values|
      invariant forall j :: 0 <= j < i ==> values[j] <= reports[x]
    {
      i := i + 1;
    }
    values' := values[..i] + [reports[x]] + values[i..];
    ids' := ids[..i] + [x] + ids[i..];
    assert forall y :: y in ids <==> y in ids[..i] || y in ids[i..] by {
      assert ids == ids[..i] + ids[i..];
    }
  }

  lemma {:induction false} DistinctCard(s: seq<nat>)
    requires forall i, j :: 0 <= i < j < |s| ==> s[i] != s[j]
    ensures |Elements(s)| == |s|
  {
    if s != [] {
      var t := s[..|s| - 1];
      DistinctCard(t);
      assert s == t + [s[|s| - 1]];
      MembersWith(t, s[|s| - 1]);
      assert s[|s| - 1] !in Elements(t);
    }
  }

  /** Counting c places from the top of the sorted reports gives a number that at least c replicas
      reported or exceeded ... */
  lemma PlaceFromTop(reports: map<nat, nat>, values: seq<nat>, ids: seq<nat>, c: nat)
    requires Sorted(reports, reports.Keys, values, ids)
    requires 0 < c <= |values|
    ensures |ReportsFrom(reports, values[|values| - c])| >= c
  {
    var k := |values| - c;
    var top := ids[k..];
    DistinctCard(top);
    forall x | x in top ensures x in ReportsFrom(reports, values[k]) {
      var i :| 0 <= i < |top| && top[i] == x;
      assert ids[k + i] == x && values[k] <= values[k + i];
    }
    SubsetCard(Elements(top), ReportsFrom(reports, values[k]));
  }

  /** ... and fewer than c exceeded. */
  lemma PlaceFromTopIsGreatest(reports: map<nat, nat>, values: seq<nat>, ids: seq<nat>, c: nat)
    requires Sorted(reports, reports.Keys, values, ids)
    requires 0 < c <= |values|
    ensures |ReportsFrom(reports, values[|values| - c] + 1)| < c
  {
    var k := |values| - c;
    var above := ids[k + 1..];
    DistinctCard(above);
    forall x | x in ReportsFrom(reports, values[k] + 1) ensures x in above {
      var i :| 0 <= i < |ids| && ids[i] == x;
      assert k < i;
      assert above[i - k - 1] == x;
    }
    SubsetCard(ReportsFrom(reports, values[k] + 1), Elements(above));
  }

  lemma ReportCount(reports: map<nat, nat>, values: seq<nat>, ids: seq<nat>)
    requires Sorted(reports, reports.Keys, values, ids)
    ensures |values| == |reports|
  {
    DistinctCard(ids);
    assert Elements(ids) == reports.Keys;
  }

  ghost function ReportsNotBelow(reports: map<nat, nat>, low: nat): map<nat, nat> {
    map x | x in reports && low <= reports[x] :: reports[x]
  }

  method KeepReports(reports: map<nat, nat>, low: nat) returns (r: map<nat, nat>)
    ensures r == ReportsNotBelow(reports, low)
  {
    r := reports;
    var keys := reports.Keys;
    while keys != {}
      invariant keys <= reports.Keys
      invariant forall x :: x in r <==> x in reports && (x in keys || low <= reports[x])
      invariant forall x :: x in r ==> r[x] == reports[x]
      decreases |keys|
    {
      var x :| x in keys;
      keys := keys - {x};
      if reports[x] < low {
        r := r - {x};
      }
    }
  }

  lemma FewReports(reports: map<nat, nat>, m: nat)
    ensures |ReportsFrom(reports, m)| <= |reports|
  {
    SubsetCard(ReportsFrom(reports, m), reports.Keys);
  }

  /** A higher number is reported by fewer. */
  lemma ReportsOrdered(reports: map<nat, nat>, m: nat, high: nat)
    ensures m <= high ==> |ReportsFrom(reports, high + 1)| <= |ReportsFrom(reports, m + 1)|
    ensures high < m ==> |ReportsFrom(reports, m)| <= |ReportsFrom(reports, high + 1)|
  {
    if m <= high {
      SubsetCard(ReportsFrom(reports, high + 1), ReportsFrom(reports, m + 1));
    } else {
      SubsetCard(ReportsFrom(reports, m), ReportsFrom(reports, high + 1));
    }
  }

  // ----- Lists of the sets in a view-change -----

  method ListCheckpoints(chkpts: map<nat, StateId>) returns (cset: seq<CEntry>)
    ensures ListsCheckpoints(cset, chkpts)
  {
    cset := [];
    var keys := chkpts.Keys;
    while keys != {}
      invariant keys <= chkpts.Keys
      invariant ListsCheckpoints(cset, chkpts - keys)
      decreases |keys|
    {
      var n :| n in keys;
      keys := keys - {n};
      cset := cset + [CEntry(n, chkpts[n])];
    }
    assert chkpts - {} == chkpts;
  }

  method ListP(pset: map<nat, PQ>) returns (entries: seq<PQ>)
    requires forall n :: n in pset ==> pset[n].n == n
    ensures ListsP(entries, pset)
  {
    entries := [];
    var keys := pset.Keys;
    while keys != {}
      invariant keys <= pset.Keys
      invariant ListsP(entries, pset - keys)
      decreases |keys|
    {
      var n :| n in keys;
      keys := keys - {n};
      entries := entries + [pset[n]];
    }
    assert pset - {} == pset;
  }

  method ListQ(qset: map<QKey, PQ>) returns (entries: seq<PQ>)
    requires forall k :: k in qset ==> QKey(qset[k].d, qset[k].n) == k
    ensures ListsQ(entries, qset)
  {
    entries := [];
    var keys := qset.Keys;
    while keys != {}
      invariant keys <= qset.Keys
      invariant ListsQ(entries, qset - keys)
      decreases |keys|
    {
      var k :| k in keys;
      keys := keys - {k};
      entries := entries + [qset[k]];
    }
    assert qset - {} == qset;
  }

  // ----- View changes -----

  ghost predicate CommittedHere(cfg: Config, certs: map<Slot, Cert>, n: nat) {
    exists slot :: slot in certs && slot.n == n
                   && CountCommits(certs[slot].commit, slot.v, n) >= cfg.IntersectionQuorum()
  }

  /** Whether every number above spec and up to target has a commit quorum in the log. */
  method CanExecuteTo(cfg: Config, certs: map<Slot, Cert>, spec: nat, target: nat) returns (r: bool)
    ensures r <==> forall n :: spec < n <= target ==> CommittedHere(cfg, certs, n)
  {
    var seqNo := spec + 1;
    while seqNo <= target
      invariant spec < seqNo && (spec < target ==> seqNo <= target + 1)
      invariant forall n :: spec < n < seqNo ==> CommittedHere(cfg, certs, n)
    {
      var found := false;
      var keys := certs.Keys;
      while keys != {}
        invariant keys <= certs.Keys
        invariant !found
        invariant forall slot :: slot in certs && slot !in keys ==>
                    !(slot.n == seqNo && CountCommits(certs[slot].commit, slot.v, seqNo) >= cfg.IntersectionQuorum())
        decreases |keys|
      {
        var idx :| idx in keys;
        keys := keys - {idx};
        if idx.n != seqNo {
          continue;
        }
        var quorum := CountMatchingCommits(certs[idx].commit, idx.v, seqNo);
        if quorum < cfg.IntersectionQuorum() {
          continue;
        }
        found := true;
        break;
      }
      if !found {
        assert !CommittedHere(cfg, certs, seqNo);
        return false;
      }
      seqNo := seqNo + 1;
    }
    return true;
  }

  ghost function Above(store: map<VcKey, ViewChange>, view: nat): set<VcKey> {
    set k | k in store && view < k.v
  }

  /** The replicas that are ahead of this view. */
  ghost function Ahead(store: map<VcKey, ViewChange>, view: nat): set<nat> {
    set k | k in Above(store, view) :: k.id
  }

  ghost predicate LeastAbove(store: map<VcKey, ViewChange>, view: nat, v: nat) {
    (exists k :: k in Above(store, view) && k.v == v) && forall k :: k in Above(store, view) ==> v <= k.v
  }

  /** Any replicas that each have a view-change for a later view in store are among those ahead, and none
      of these is for a view before the least. */
  lemma StoredAreAhead(store: map<VcKey, ViewChange>, view: nat, senders: set<nat>)
    requires forall x :: x in senders ==> exists k :: k in store && k.id == x && view < k.v
    ensures |senders| <= |Ahead(store, view)|
    ensures forall v: nat :: LeastAbove(store, view, v) ==> view < v && forall k :: k in store && view < k.v ==>
              v <= k.v
  {
    forall x | x in senders ensures x in Ahead(store, view) {
      var k :| k in store && k.id == x && view < k.v;
      assert k in Above(store, view);
    }
    SubsetCard(senders, Ahead(store, view));
    forall v: nat, k | LeastAbove(store, view, v) && k in store && view < k.v ensures v <= k.v {
      assert k in Above(store, view);
    }
  }

  /** ... and the replicas whose view-change for view v is in store are counted for it, once each. */
  lemma StoredAreCounted(store: map<VcKey, ViewChange>, v: nat, senders: set<nat>)
    requires forall x :: x in senders <==> VcKey(v, x) in store
    ensures |InView(store, v)| == |senders|
  {
    if senders == {} {
      assert InView(store, v) == {};
    } else {
      var x :| x in senders;
      StoredAreCounted(store - {VcKey(v, x)}, v, senders - {x});
      assert InView(store, v) == InView(store - {VcKey(v, x)}, v) + {VcKey(v, x)};
    }
  }

  /** Leaving a view for the smallest one above it leaves fewer stored view-changes above. */
  lemma JoiningShrinks(store: map<VcKey, ViewChange>, vc: ViewChange, view: nat, k: VcKey)
    requires var store' := store[VcKey(vc.v, vc.sender) := vc];
      k in Above(store', view) && forall j :: j in Above(store', view) ==> k.v <= j.v
    ensures |Above(store[VcKey(vc.v, vc.sender) := vc], k.v)| < |Above(store, view)| + if vc.v > view then 1 else 0
  {
    var store' := store[VcKey(vc.v, vc.sender) := vc];
    ProperSubsetCard(Above(store', k.v), Above(store', view), k);
    if vc.v > view {
      assert Above(store', view) == Above(store, view) + {VcKey(vc.v, vc.sender)};
      UnionCard(Above(store, view), {VcKey(vc.v, vc.sender)});
    } else {
      assert Above(store', view) == Above(store, view);
    }
  }

  lemma StoredAbove(store: map<VcKey, ViewChange>, view: nat)
    ensures Above(StoredFrom(store, view), view) == Above(store, view)
  {
  }

  /** v is the smallest view of these keys, or 0 if there are none. */
  ghost predicate LeastOf(keys: set<VcKey>, v: nat) {
    if keys == {} then v == 0 else (exists k :: k in keys && k.v == v) && forall k :: k in keys ==> v <= k.v
  }

  lemma LeastWithOneMore(keys: set<VcKey>, v: nat, k: VcKey)
    requires LeastOf(keys, v) && 0 < k.v && forall j :: j in keys ==> 0 < j.v
    ensures LeastOf(keys + {k}, if v == 0 || k.v < v then k.v else v)
  {
  }

  lemma LeastAboveIsLeast(store: map<VcKey, ViewChange>, view: nat, v: nat)
    requires LeastOf(Above(store, view), v)
    ensures if Above(store, view) == {} then v == 0 else LeastAbove(store, view, v)
  {
  }

  /** Who sent stored view-changes for views above this one, and the smallest such view. */
  method ViewChangesAbove(store: map<VcKey, ViewChange>, view: nat) returns (replicas: set<nat>, minView: nat)
    ensures replicas == Ahead(store, view)
    ensures replicas != {} ==> Above(store, view) != {}
    ensures if Above(store, view) == {} then minView == 0 else LeastAbove(store, view, minView)
  {
    hide LeastOf, LeastAbove;
    replicas, minView := {}, 0;
    var keys := store.Keys;
    ghost var seen: set<VcKey> := {};
    LeastOfNone();
    while keys != {}
      invariant keys <= store.Keys
      invariant forall k :: k in seen <==> k in Above(store, view) && k !in keys
      invariant forall x :: x in replicas <==> exists k :: k in seen && k.id == x
      invariant LeastOf(seen, minView)
      decreases |keys|
    {
      var idx :| idx in keys;
      keys := keys - {idx};
      if idx.v <= view {
        continue;
      }
      LeastWithOneMore(seen, minView, idx);
      seen := seen + {idx};
      replicas := replicas + {idx.id};
      if minView == 0 || idx.v < minView {
        minView := idx.v;
      }
    }
    assert seen == Above(store, view);
    LeastAboveIsLeast(store, view, minView);
  }

  lemma LeastOfNone()
    ensures LeastOf({}, 0)
  {
  }

  ghost function InView(store: map<VcKey, ViewChange>, view: nat): set<VcKey> {
    set k | k in store && k.v == view
  }

  method CountView(store: map<VcKey, ViewChange>, view: nat) returns (quorum: nat)
    ensures quorum == |InView(store, view)|
  {
    quorum := 0;
    var keys := store.Keys;
    ghost var seen: set<VcKey> := {};
    while keys != {}
      invariant keys <= store.Keys
      invariant seen == set k | k in store && k.v == view && k !in keys
      invariant quorum == |seen|
      decreases |keys|
    {
      var idx :| idx in keys;
      keys := keys - {idx};
      if idx.v == view {
        seen := seen + {idx};
        quorum := quorum + 1;
      }
    }
    assert seen == InView(store, view);
  }

  ghost function StoredFrom(store: map<VcKey, ViewChange>, view: nat): map<VcKey, ViewChange> {
    map k | k in store && view <= k.v :: store[k]
  }

  method ViewChangesFrom(store: map<VcKey, ViewChange>, view: nat) returns (r: map<VcKey, ViewChange>)
    ensures r == StoredFrom(store, view)
  {
    r := store;
    var keys := store.Keys;
    while keys != {}
      invariant keys <= store.Keys
      invariant forall k :: k in r <==> k in store && (k in keys || view <= k.v)
      invariant forall k :: k in r ==> r[k] == store[k]
      decreases |keys|
    {
      var k :| k in keys;
      keys := keys - {k};
      if k.v < view {
        r := r - {k};
      }
    }
  }

  ghost function CertsOfView(certs: map<Slot, Cert>, view: nat): map<Slot, Cert> {
    map slot | slot in certs && view <= slot.v :: certs[slot]
  }

  method CertsFrom(certs: map<Slot, Cert>, view: nat) returns (r: map<Slot, Cert>)
    ensures r == CertsOfView(certs, view)
  {
    r := certs;
    var keys := certs.Keys;
    while keys != {}
      invariant keys <= certs.Keys
      invariant forall slot :: slot in r <==> slot in certs && (slot in keys || view <= slot.v)
      invariant forall slot :: slot in r ==> r[slot] == certs[slot]
      decreases |keys|
    {
      var slot :| slot in keys;
      keys := keys - {slot};
      if slot.v < view {
        r := r - {slot};
      }
    }
  }

  // ----- Resubmission -----

  ghost predicate HasCertificate(certs: map<Slot, Cert>, d: Digest) {
    exists slot :: slot in certs && certs[slot].digest == d
  }

  /** A batch that was given a number, here or by another primary, is not handed in again. */
  lemma NumberedHasCertificate(s: State, b: RequestBatch, p: PrePrepare)
    ensures HasCertificate(DoIssuePrePrepare(s, b).certs, Hash(b))
    ensures HasCertificate(DoAcceptPrePrepare(s, p).certs, p.d)
  {
    var own := IssuedPrePrepare(s, b);
    assert DoIssuePrePrepare(s, b).certs[Slot(own.v, own.n)].digest == Hash(b);
    assert DoAcceptPrePrepare(s, p).certs[Slot(p.v, p.n)].digest == p.d;
  }

  method FindCertificate(certs: map<Slot, Cert>, d: Digest) returns (found: bool)
    ensures found <==> HasCertificate(certs, d)
  {
    var keys := certs.Keys;
    while keys != {}
      invariant keys <= certs.Keys
      invariant forall slot :: slot in certs && slot !in keys ==> certs[slot].digest != d
      decreases |keys|
    {
      var slot :| slot in keys;
      if certs[slot].digest == d {
        return true;
      }
      keys := keys - {slot};
    }
    return false;
  }

  /** The outstanding batches that no certificate carries, each once, in some order. */
  method SubmissionOrder(certs: map<Slot, Cert>, outstanding: map<Digest, RequestBatch>)
    returns (order: seq<RequestBatch>)
    requires Hashed(outstanding)
    ensures forall b :: b in order <==> Hash(b) in outstanding && !HasCertificate(certs, Hash(b))
    ensures forall i, j :: 0 <= i < j < |order| ==> order[i] != order[j]
  {
    order := [];
    var keys := outstanding.Keys;
    while keys != {}
      invariant keys <= outstanding.Keys
      invariant forall b :: b in order <==>
                  Hash(b) in outstanding && Hash(b) !in keys && !HasCertificate(certs, Hash(b))
      invariant forall i, j :: 0 <= i < j < |order| ==> order[i] != order[j]
      decreases |keys|
    {
      var d :| d in keys;
      keys := keys - {d};
      var found := FindCertificate(certs, d);
      if found {
        continue;
      }
      assert outstanding[d] !in order;
      order := order + [outstanding[d]];
    }
  }
}
