/** What a set of view-changes decides: the initial checkpoint and the digest of every sequence
    number of a new view. The loops that compute these are in `NewViewLoops`. */
module NewViewRule {
  import opened PbftTypes
  import opened Quorums

  // ----- Counting messages and entries -----

  function CountIf(s: seq<ViewChange>, p: ViewChange -> bool): nat {
    if s == [] then 0 else CountIf(s[..|s| - 1], p) + if p(s[|s| - 1]) then 1 else 0
  }

  ghost function SendersIf(s: seq<ViewChange>, p: ViewChange -> bool): set<nat> {
    set m | m in s && p(m) :: m.sender
  }

  ghost predicate DistinctSenders(s: seq<ViewChange>) {
    forall i, j :: 0 <= i < j < |s| ==> s[i].sender != s[j].sender
  }

  ghost predicate SendersBelow(s: seq<ViewChange>, n: nat) {
    forall m :: m in s ==> m.sender < n
  }

  /** The counting loops count replicas, provided no replica appears twice. */
  lemma {:induction false} CountIsCard(s: seq<ViewChange>, p: ViewChange -> bool)
    requires DistinctSenders(s)
    ensures CountIf(s, p) == |SendersIf(s, p)|
  {
    if s != [] {
      var init, last := s[..|s| - 1], s[|s| - 1];
      CountIsCard(init, p);
      assert forall m :: m in s <==> m in init || m == last;
      assert last.sender !in SendersIf(init, p);
      assert SendersIf(s, p) == if p(last) then SendersIf(init, p) + {last.sender} else SendersIf(init, p);
    } else {
      assert SendersIf(s, p) == {};
    }
  }

  lemma SendersAreIds(s: seq<ViewChange>, p: ViewChange -> bool, n: nat)
    requires SendersBelow(s, n)
    ensures SendersIf(s, p) <= Ids(n)
  {
  }

  function CountEntries(s: seq<PQ>, p: PQ -> bool): nat {
    if s == [] then 0 else CountEntries(s[..|s| - 1], p) + if p(s[|s| - 1]) then 1 else 0
  }

  lemma {:induction false} CountEntriesPositive(s: seq<PQ>, p: PQ -> bool)
    ensures CountEntries(s, p) > 0 <==> exists e :: e in s && p(e)
  {
    if s != [] {
      CountEntriesPositive(s[..|s| - 1], p);
      assert forall e :: e in s <==> e in s[..|s| - 1] || e == s[|s| - 1];
    }
  }

  /** At most one entry passes if no two entries that pass share a place in the list. */
  lemma {:induction false} CountEntriesAtMostOne(s: seq<PQ>, p: PQ -> bool)
    requires forall i, j :: 0 <= i < j < |s| ==> !(p(s[i]) && p(s[j]))
    ensures CountEntries(s, p) <= 1
  {
    if s != [] {
      var init := s[..|s| - 1];
      CountEntriesAtMostOne(init, p);
      if p(s[|s| - 1]) {
        CountEntriesPositive(init, p);
      }
    }
  }

  function CountOccurrences(s: seq<CEntry>, c: CEntry): nat {
    if s == [] then 0 else CountOccurrences(s[..|s| - 1], c) + if s[|s| - 1] == c then 1 else 0
  }

  lemma {:induction false} OccurrencesAtMostOne(s: seq<CEntry>, c: CEntry)
    requires forall i, j :: 0 <= i < j < |s| ==> s[i] != s[j]
    ensures CountOccurrences(s, c) == if c in s then 1 else 0
  {
    if s != [] {
      OccurrencesAtMostOne(s[..|s| - 1], c);
      assert forall e :: e in s <==> e in s[..|s| - 1] || e == s[|s| - 1];
    }
  }

  // ----- The rule -----

  /** A view-change that fits its own watermark. */
  predicate CorrectViewChange(cfg: Config, vc: ViewChange) {
    && (forall p :: p in vc.pset ==> p.v < vc.v && vc.h < p.n <= vc.h + cfg.L())
    && (forall q :: q in vc.qset ==> q.v < vc.v && vc.h < q.n <= vc.h + cfg.L())
    && (forall c :: c in vc.cset ==> vc.h <= c.n <= vc.h + cfg.L())
  }

  predicate Yields(e: PQ, n: nat, em: PQ) {
    e.n == n ==> e.v < em.v || (e.v == em.v && e.d == em.d)
  }

  /** The test of condition A1: the message is from below n, and holds nothing at n against em. */
  function A1Test(n: nat, em: PQ): ViewChange -> bool {
    (m: ViewChange) => m.h < n && forall e :: e in m.pset ==> Yields(e, n, em)
  }

  /** The test of condition A2 on one Q entry. */
  function A2Test(n: nat, em: PQ): PQ -> bool {
    (e: PQ) => e.n == n && em.v <= e.v && e.d == em.d
  }

  predicate HasEntryAt(m: ViewChange, n: nat) {
    exists e :: e in m.pset && e.n == n
  }

  /** The test of the null branch; it does not look at the low watermark. */
  function NullTest(n: nat): ViewChange -> bool {
    (m: ViewChange) => !HasEntryAt(m, n)
  }

  function A2Count(s: seq<ViewChange>, n: nat, em: PQ): nat {
    if s == [] then 0 else A2Count(s[..|s| - 1], n, em) + CountEntries(s[|s| - 1].qset, A2Test(n, em))
  }

  predicate Candidate(cfg: Config, vset: seq<ViewChange>, n: nat, em: PQ) {
    && CountIf(vset, A1Test(n, em)) >= cfg.IntersectionQuorum()
    && A2Count(vset, n, em) >= cfg.f + 1
  }

  function PickIn(cfg: Config, vset: seq<ViewChange>, n: nat, entries: seq<PQ>): Option<Digest> {
    if entries == [] then None
    else if Candidate(cfg, vset, n, entries[0]) then Some(entries[0].d)
    else PickIn(cfg, vset, n, entries[1..])
  }

  function PickFrom(cfg: Config, vset: seq<ViewChange>, n: nat, ms: seq<ViewChange>): Option<Digest> {
    if ms == [] then None
    else
      var r := PickIn(cfg, vset, n, ms[0].pset);
      if r.Some? then r else PickFrom(cfg, vset, n, ms[1..])
  }

  function Pick(cfg: Config, vset: seq<ViewChange>, n: nat): Option<Digest> {
    PickFrom(cfg, vset, n, vset)
  }

  predicate NullQuorum(cfg: Config, vset: seq<ViewChange>, n: nat) {
    CountIf(vset, NullTest(n)) >= cfg.IntersectionQuorum()
  }

  /** The digest for n: the first candidate, else the null request if enough messages know nothing
      about n, else nothing. */
  function Choose(cfg: Config, vset: seq<ViewChange>, n: nat): Option<Digest> {
    var r := Pick(cfg, vset, n);
    if r.Some? then r
    else if NullQuorum(cfg, vset, n) then Some(Null)
    else None
  }

  /** The last sequence number in (h, hi] taken from a P entry, or h + 1. */
  function Top(cfg: Config, vset: seq<ViewChange>, h: nat, hi: nat): (r: nat)
    ensures h + 1 <= r
    ensures r <= hi || r == h + 1
    ensures forall n :: r < n <= hi ==> Pick(cfg, vset, n).None?
    decreases hi
  {
    if hi <= h then h + 1
    else if Pick(cfg, vset, hi).Some? then hi
    else Top(cfg, vset, h, hi - 1)
  }

  predicate AllChosen(cfg: Config, vset: seq<ViewChange>, h: nat, hi: nat) {
    forall n :: h < n <= hi ==> Choose(cfg, vset, n).Some?
  }

  /** The assignment of a new view that starts from checkpoint h. */
  function Assign(cfg: Config, vset: seq<ViewChange>, h: nat): Option<map<nat, Digest>>
    requires cfg.Valid()
  {
    LogSize(cfg);
    if AllChosen(cfg, vset, h, h + cfg.L()) then
      Some(map n | h < n <= Top(cfg, vset, h, h + cfg.L()) :: Choose(cfg, vset, n).value)
    else None
  }

  function Vouchers(s: seq<ViewChange>, c: CEntry): nat {
    if s == [] then 0 else Vouchers(s[..|s| - 1], c) + CountOccurrences(s[|s| - 1].cset, c)
  }

  function LowTest(n: nat): ViewChange -> bool {
    (m: ViewChange) => m.h <= n
  }

  /** c has a weak certificate and a quorum of low watermarks not above it. */
  predicate Qualifies(cfg: Config, vset: seq<ViewChange>, c: CEntry) {
    && Vouchers(vset, c) > cfg.f
    && CountIf(vset, LowTest(c.n)) >= cfg.IntersectionQuorum()
  }

  /** n is the sequence number of the initial checkpoint: the greatest that qualifies. */
  ghost predicate Selected(cfg: Config, vset: seq<ViewChange>, n: nat) {
    && (exists c :: Qualifies(cfg, vset, c) && c.n == n)
    && (forall c :: Qualifies(cfg, vset, c) ==> c.n <= n)
  }

  lemma SelectedIsUnique(cfg: Config, vset: seq<ViewChange>, m: nat, n: nat)
    requires Selected(cfg, vset, m) && Selected(cfg, vset, n)
    ensures m == n
  {
    var c :| Qualifies(cfg, vset, c) && c.n == m;
    var c' :| Qualifies(cfg, vset, c') && c'.n == n;
  }

  // ----- The initial checkpoint, by the replicas that speak for it -----

  /** The replicas that list checkpoint c. */
  ghost function Listing(vset: seq<ViewChange>, c: CEntry): set<nat> {
    set m | m in vset && c in m.cset :: m.sender
  }

  /** The replicas whose low watermark is not above n. */
  ghost function LowSenders(vset: seq<ViewChange>, n: nat): set<nat> {
    set m | m in vset && m.h <= n :: m.sender
  }

  lemma {:induction false} OccursIfListed(s: seq<CEntry>, c: CEntry)
    ensures CountOccurrences(s, c) > 0 <==> c in s
  {
    if s != [] {
      OccursIfListed(s[..|s| - 1], c);
      assert forall e :: e in s <==> e in s[..|s| - 1] || e == s[|s| - 1];
    }
  }

  /** Repeated messages and repeated entries only add to the counts. */
  lemma {:induction false} CountCoversReplicas(s: seq<ViewChange>, p: ViewChange -> bool)
    ensures |SendersIf(s, p)| <= CountIf(s, p)
  {
    if s == [] {
      assert SendersIf(s, p) == {};
    } else {
      var init, last := s[..|s| - 1], s[|s| - 1];
      CountCoversReplicas(init, p);
      assert forall m :: m in s <==> m in init || m == last;
      assert SendersIf(s, p) == SendersIf(init, p) + if p(last) then {last.sender} else {};
    }
  }

  lemma {:induction false} VouchersCoverListing(s: seq<ViewChange>, c: CEntry)
    ensures |Listing(s, c)| <= Vouchers(s, c)
  {
    if s == [] {
      assert Listing(s, c) == {};
    } else {
      var init, last := s[..|s| - 1], s[|s| - 1];
      VouchersCoverListing(init, c);
      OccursIfListed(last.cset, c);
      assert forall m :: m in s <==> m in init || m == last;
      assert Listing(s, c) == Listing(init, c) + if c in last.cset then {last.sender} else {};
    }
  }

  lemma ListedQualifies(cfg: Config, vset: seq<ViewChange>, c: CEntry)
    requires |Listing(vset, c)| >= cfg.f + 1 && |LowSenders(vset, c.n)| >= cfg.IntersectionQuorum()
    ensures Qualifies(cfg, vset, c)
  {
    VouchersCoverListing(vset, c);
    CountCoversReplicas(vset, LowTest(c.n));
    assert SendersIf(vset, LowTest(c.n)) == LowSenders(vset, c.n);
  }

  /** No checkpoint that f + 1 replicas list, and that a quorum of low watermarks is not above, is greater
      than the selected one. */
  lemma SelectedIsGreatest(cfg: Config, vset: seq<ViewChange>, n: nat, c: CEntry)
    requires Selected(cfg, vset, n)
    requires |Listing(vset, c)| >= cfg.f + 1 && |LowSenders(vset, c.n)| >= cfg.IntersectionQuorum()
    ensures c.n <= n
  {
    ListedQualifies(cfg, vset, c);
  }

  // ----- Soundness and completeness of the search -----

  lemma {:induction false} PickInFinds(cfg: Config, vset: seq<ViewChange>, n: nat, entries: seq<PQ>)
    ensures PickIn(cfg, vset, n, entries).Some? ==>
              exists e :: e in entries && Candidate(cfg, vset, n, e) && e.d == PickIn(cfg, vset, n, entries).value
    ensures PickIn(cfg, vset, n, entries).None? ==>
              forall e :: e in entries ==> !Candidate(cfg, vset, n, e)
  {
    if entries != [] {
      PickInFinds(cfg, vset, n, entries[1..]);
      assert forall e :: e in entries <==> e == entries[0] || e in entries[1..];
    }
  }

  /** What is picked is the digest of a candidate, and nothing is picked only if there is none. */
  lemma {:induction false} PickFinds(cfg: Config, vset: seq<ViewChange>, n: nat, ms: seq<ViewChange>)
    ensures PickFrom(cfg, vset, n, ms).Some? ==>
              exists m, e :: m in ms && e in m.pset && Candidate(cfg, vset, n, e)
                             && e.d == PickFrom(cfg, vset, n, ms).value
    ensures PickFrom(cfg, vset, n, ms).None? ==>
              forall m, e :: m in ms && e in m.pset ==> !Candidate(cfg, vset, n, e)
  {
    if ms != [] {
      PickInFinds(cfg, vset, n, ms[0].pset);
      PickFinds(cfg, vset, n, ms[1..]);
      assert forall m :: m in ms <==> m == ms[0] || m in ms[1..];
      if PickIn(cfg, vset, n, ms[0].pset).Some? {
        var e :| e in ms[0].pset && Candidate(cfg, vset, n, e) && e.d == PickIn(cfg, vset, n, ms[0].pset).value;
        assert ms[0] in ms;
      } else if PickFrom(cfg, vset, n, ms[1..]).Some? {
        var m, e :| m in ms[1..] && e in m.pset && Candidate(cfg, vset, n, e)
                    && e.d == PickFrom(cfg, vset, n, ms[1..]).value;
        assert m in ms;
      }
    }
  }

  function HasQTest(n: nat, em: PQ): ViewChange -> bool {
    (m: ViewChange) => CountEntries(m.qset, A2Test(n, em)) > 0
  }

  /** No two Q entries of one message have the same sequence number and digest. */
  ghost predicate OneQPerKey(m: ViewChange) {
    forall i, j :: 0 <= i < j < |m.qset| ==> !(m.qset[i].n == m.qset[j].n && m.qset[i].d == m.qset[j].d)
  }

  /** Condition A2 counts entries; it counts messages when each holds one entry per key. */
  lemma {:induction false} A2CountsMessages(s: seq<ViewChange>, n: nat, em: PQ)
    ensures CountIf(s, HasQTest(n, em)) <= A2Count(s, n, em)
    ensures (forall m :: m in s ==> OneQPerKey(m)) ==> A2Count(s, n, em) == CountIf(s, HasQTest(n, em))
  {
    if s != [] {
      var last := s[|s| - 1];
      A2CountsMessages(s[..|s| - 1], n, em);
      if OneQPerKey(last) {
        CountEntriesAtMostOne(last.qset, A2Test(n, em));
      }
      assert last in s;
      assert forall m :: m in s[..|s| - 1] ==> m in s;
    }
  }
}
