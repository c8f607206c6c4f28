/** What the new-view rule guarantees: it keeps decided digests, it is not stuck on consistent messages
    of all correct replicas, and its checkpoint is vouched for by a correct replica. */
module NewViewSafety {
  import opened PbftTypes
  import opened Quorums
  import opened NewViewRule

  // ----- Decided digests are kept -----

  /** The replicas in `committers` prepared d at (v, n), and their view-changes say so, unless their
      low watermark has reached n. */
  ghost predicate CommittersReport(vset: seq<ViewChange>, n: nat, d: Digest, v: nat, committers: set<nat>) {
    forall m :: m in vset && m.sender in committers && m.h < n ==>
      exists e :: e in m.pset && e.n == n && v <= e.v && e.d == d
  }

  /** No correct replica pre-prepared another digest than d at n in a view above v. */
  ghost predicate LaterEntriesAgree(vset: seq<ViewChange>, n: nat, d: Digest, v: nat, faulty: set<nat>) {
    forall m, e :: m in vset && m.sender !in faulty && e in m.qset && e.n == n && v < e.v ==> e.d == d
  }

  ghost predicate ProperVset(cfg: Config, vset: seq<ViewChange>) {
    && DistinctSenders(vset)
    && SendersBelow(vset, cfg.N)
    && forall m :: m in vset ==> OneQPerKey(m)
  }

  /** Enough correct replicas prepared to be met by every quorum. */
  ghost predicate DecidingSet(cfg: Config, committers: set<nat>) {
    && committers <= Ids(cfg.N)
    && |committers| >= cfg.IntersectionQuorum() - cfg.f
  }

  lemma QuorumMeetsDecidingSet(cfg: Config, vset: seq<ViewChange>, p: ViewChange -> bool, committers: set<nat>)
    returns (m: ViewChange)
    requires cfg.Valid() && ProperVset(cfg, vset) && DecidingSet(cfg, committers)
    requires CountIf(vset, p) > cfg.N - cfg.IntersectionQuorum() + cfg.f
    ensures m in vset && p(m) && m.sender in committers
  {
    CountIsCard(vset, p);
    SendersAreIds(vset, p, cfg.N);
    IntersectionCard(cfg.N, SendersIf(vset, p), committers);
    assert SendersIf(vset, p) * committers != {};
    var x :| x in SendersIf(vset, p) * committers;
    m :| m in vset && p(m) && m.sender == x;
  }

  /** A candidate at n carries the decided digest: A1 puts it at or above the committers' view, and
      above that view A2 gives it a correct witness. */
  lemma CandidateKeepsDecision(cfg: Config, vset: seq<ViewChange>, n: nat, em: PQ, d: Digest, v: nat,
                               committers: set<nat>, faulty: set<nat>)
    requires cfg.Valid() && ProperVset(cfg, vset) && DecidingSet(cfg, committers)
    requires |faulty| <= cfg.f
    requires CommittersReport(vset, n, d, v, committers)
    requires LaterEntriesAgree(vset, n, d, v, faulty)
    requires Candidate(cfg, vset, n, em)
    ensures em.d == d
  {
    QuorumFacts(cfg);
    var m := QuorumMeetsDecidingSet(cfg, vset, A1Test(n, em), committers);
    var e :| e in m.pset && e.n == n && v <= e.v && e.d == d;
    assert Yields(e, n, em);
    if e.v < em.v {
      A2CountsMessages(vset, n, em);
      CountIsCard(vset, HasQTest(n, em));
      var x := CorrectMember(SendersIf(vset, HasQTest(n, em)), faulty);
      var m' :| m' in vset && HasQTest(n, em)(m') && m'.sender == x;
      CountEntriesPositive(m'.qset, A2Test(n, em));
    }
  }

  /** A message that speaks against d at n: it is from below n and has no P entry for d at n. */
  function AgainstTest(n: nat, d: Digest): ViewChange -> bool {
    (m: ViewChange) => m.h < n && forall e :: e in m.pset ==> !(e.n == n && e.d == d)
  }

  /** A null request at n is safe against d when more messages speak against d than a deciding set
      leaves room for. */
  predicate NullGuard(cfg: Config, vset: seq<ViewChange>, n: nat, d: Digest) {
    CountIf(vset, AgainstTest(n, d)) > cfg.N - cfg.IntersectionQuorum() + cfg.f
  }

  lemma GuardRefutesDecision(cfg: Config, vset: seq<ViewChange>, n: nat, d: Digest, v: nat, committers: set<nat>)
    requires cfg.Valid() && ProperVset(cfg, vset) && DecidingSet(cfg, committers)
    requires NullGuard(cfg, vset, n, d)
    ensures !CommittersReport(vset, n, d, v, committers)
  {
    var m := QuorumMeetsDecidingSet(cfg, vset, AgainstTest(n, d), committers);
  }

  /** A null request at n is compatible with no deciding set for d exactly when the guard holds. The
      null branch of the code counts messages without the test of the low watermark, so it can hold
      where the guard does not (see `NullBranchLosesDecision`). */
  lemma NullIsSafeIff(cfg: Config, vset: seq<ViewChange>, n: nat, d: Digest)
    requires cfg.Valid() && ProperVset(cfg, vset)
    ensures NullGuard(cfg, vset, n, d) <==>
              forall committers, v :: DecidingSet(cfg, committers) ==> !CommittersReport(vset, n, d, v, committers)
  {
    if NullGuard(cfg, vset, n, d) {
      forall committers, v: nat | DecidingSet(cfg, committers)
        ensures !CommittersReport(vset, n, d, v, committers)
      {
        GuardRefutesDecision(cfg, vset, n, d, v, committers);
      }
    } else {
      var against := SendersIf(vset, AgainstTest(n, d));
      CountIsCard(vset, AgainstTest(n, d));
      SendersAreIds(vset, AgainstTest(n, d), cfg.N);
      IdsCard(cfg.N);
      RemoveCard(Ids(cfg.N), against);
      var committers := Ids(cfg.N) - against;
      assert DecidingSet(cfg, committers);
      forall m | m in vset && m.sender in committers && m.h < n
        ensures exists e :: e in m.pset && e.n == n && 0 <= e.v && e.d == d
      {
        assert !AgainstTest(n, d)(m);
      }
      assert CommittersReport(vset, n, d, 0, committers);
    }
  }

  /** The test that the original protocol puts in the null branch is sufficient. */
  lemma PaperGuardSuffices(cfg: Config, vset: seq<ViewChange>, n: nat, d: Digest)
    requires cfg.Valid()
    requires CountIf(vset, PaperNullTest(n)) >= cfg.IntersectionQuorum()
    ensures NullGuard(cfg, vset, n, d)
  {
    QuorumFacts(cfg);
    forall m | PaperNullTest(n)(m) ensures AgainstTest(n, d)(m) {
    }
    CountMonotone(vset, PaperNullTest(n), AgainstTest(n, d));
  }

  function PaperNullTest(n: nat): ViewChange -> bool {
    (m: ViewChange) => m.h < n && !HasEntryAt(m, n)
  }

  lemma {:induction false} CountAlike(s: seq<ViewChange>, p: ViewChange -> bool, q: ViewChange -> bool)
    requires forall m :: m in s ==> p(m) == q(m)
    ensures CountIf(s, p) == CountIf(s, q)
  {
    if s != [] {
      assert forall m :: m in s[..|s| - 1] ==> m in s;
      CountAlike(s[..|s| - 1], p, q);
    }
  }

  lemma {:induction false} CountMonotone(s: seq<ViewChange>, p: ViewChange -> bool, q: ViewChange -> bool)
    requires forall m :: p(m) ==> q(m)
    ensures CountIf(s, p) <= CountIf(s, q)
  {
    if s != [] {
      CountMonotone(s[..|s| - 1], p, q);
    }
  }

  /** Where the rule takes the null branch, the guard holds against d. */
  ghost predicate NullBranchGuarded(cfg: Config, vset: seq<ViewChange>, n: nat, d: Digest) {
    Pick(cfg, vset, n).None? && NullQuorum(cfg, vset, n) ==> NullGuard(cfg, vset, n, d)
  }

  /** Preservation: a new view assigns to n the batch that was decided there in an earlier view, exactly
      if the guard holds where the null branch is taken for n. */
  lemma AssignmentKeepsDecision(cfg: Config, vset: seq<ViewChange>, h: nat, n: nat, d: Digest, v: nat,
                                committers: set<nat>, faulty: set<nat>)
    requires cfg.Valid() && ProperVset(cfg, vset) && DecidingSet(cfg, committers)
    requires |faulty| <= cfg.f
    requires CommittersReport(vset, n, d, v, committers)
    requires LaterEntriesAgree(vset, n, d, v, faulty)
    requires d != Null
    requires h < n <= h + cfg.L()
    requires Assign(cfg, vset, h).Some?
    ensures NullBranchGuarded(cfg, vset, n, d) <==>
              n in Assign(cfg, vset, h).value && Assign(cfg, vset, h).value[n] == d
  {
    PickFinds(cfg, vset, n, vset);
    assert Choose(cfg, vset, n).Some?;
    if Pick(cfg, vset, n).None? {
      if NullGuard(cfg, vset, n, d) {
        GuardRefutesDecision(cfg, vset, n, d, v, committers);
      }
    } else {
      var m, e :| m in vset && e in m.pset && Candidate(cfg, vset, n, e) && e.d == Pick(cfg, vset, n).value;
      CandidateKeepsDecision(cfg, vset, n, e, d, v, committers, faulty);
    }
  }

  /** A decided sequence number is within reach of the initial checkpoint: some committer is among
      the low watermarks that the checkpoint was chosen by, and its P entry fits its own window. */
  lemma DecisionIsInRange(cfg: Config, vset: seq<ViewChange>, h: nat, n: nat, d: Digest, v: nat, committers: set<nat>)
    requires cfg.Valid() && ProperVset(cfg, vset) && DecidingSet(cfg, committers)
    requires Selected(cfg, vset, h)
    requires forall m :: m in vset ==> CorrectViewChange(cfg, m)
    requires CommittersReport(vset, n, d, v, committers)
    requires h < n
    ensures n <= h + cfg.L()
  {
    QuorumFacts(cfg);
    var c :| Qualifies(cfg, vset, c) && c.n == h;
    var m := QuorumMeetsDecidingSet(cfg, vset, LowTest(h), committers);
  }

  // ----- The rule cannot get stuck -----

  /** What the correct view-changes of a running system have in common at n (see `ViewChangeProgress`):
      P entries of one view agree, each is supported by f + 1 messages, and none is later than `view`. */
  ghost predicate ConsistentAt(cfg: Config, vset: seq<ViewChange>, n: nat, faulty: set<nat>, view: nat) {
    && (forall e, e' :: CorrectEntryAt(vset, n, faulty, e) && CorrectEntryAt(vset, n, faulty, e') && e.v == e'.v ==>
          e.d == e'.d)
    && (forall e :: CorrectEntryAt(vset, n, faulty, e) ==> e.v <= view && CountIf(vset, HasQTest(n, e)) >= cfg.f + 1)
  }

  ghost predicate HoldsAllCorrect(cfg: Config, vset: seq<ViewChange>, faulty: set<nat>) {
    forall i :: i in Ids(cfg.N) && i !in faulty ==> exists m :: m in vset && m.sender == i
  }

  lemma AllCorrectIsQuorum(cfg: Config, vset: seq<ViewChange>, p: ViewChange -> bool, faulty: set<nat>)
    requires cfg.Valid() && ProperVset(cfg, vset)
    requires |faulty| <= cfg.f && HoldsAllCorrect(cfg, vset, faulty)
    requires forall m :: m in vset && m.sender !in faulty ==> p(m)
    ensures CountIf(vset, p) >= cfg.IntersectionQuorum()
  {
    QuorumFacts(cfg);
    IdsCard(cfg.N);
    RemoveCard(Ids(cfg.N), faulty);
    CountIsCard(vset, p);
    assert Ids(cfg.N) - faulty <= SendersIf(vset, p) by {
      forall i | i in Ids(cfg.N) - faulty ensures i in SendersIf(vset, p) {
        var m :| m in vset && m.sender == i;
      }
    }
    SubsetCard(Ids(cfg.N) - faulty, SendersIf(vset, p));
  }

  ghost predicate CorrectEntryAt(vset: seq<ViewChange>, n: nat, faulty: set<nat>, e: PQ) {
    e.n == n && exists m :: m in vset && m.sender !in faulty && e in m.pset
  }

  /** Among the correct entries at n there is one of greatest view. */
  lemma {:induction false} GreatestEntry(vset: seq<ViewChange>, n: nat, faulty: set<nat>, e: PQ, bound: nat)
    returns (g: PQ)
    requires CorrectEntryAt(vset, n, faulty, e)
    requires forall e' :: CorrectEntryAt(vset, n, faulty, e') ==> e'.v <= bound
    ensures CorrectEntryAt(vset, n, faulty, g)
    ensures forall e' :: CorrectEntryAt(vset, n, faulty, e') ==> e'.v <= g.v
    decreases bound - e.v
  {
    if e' :| CorrectEntryAt(vset, n, faulty, e') && e.v < e'.v {
      g := GreatestEntry(vset, n, faulty, e', bound);
    } else {
      g := e;
    }
  }

  /** The correct entry of greatest view is a candidate. */
  lemma GreatestIsCandidate(cfg: Config, vset: seq<ViewChange>, n: nat, faulty: set<nat>, g: PQ, view: nat)
    requires cfg.Valid() && ProperVset(cfg, vset)
    requires |faulty| <= cfg.f && HoldsAllCorrect(cfg, vset, faulty)
    requires forall m :: m in vset && m.sender !in faulty ==> m.h < n
    requires ConsistentAt(cfg, vset, n, faulty, view)
    requires CorrectEntryAt(vset, n, faulty, g)
    requires forall e :: CorrectEntryAt(vset, n, faulty, e) ==> e.v <= g.v
    ensures Candidate(cfg, vset, n, g)
  {
    forall m | m in vset && m.sender !in faulty ensures A1Test(n, g)(m) {
      forall e | e in m.pset ensures Yields(e, n, g) {
        if e.n == n {
          assert CorrectEntryAt(vset, n, faulty, e);
        }
      }
    }
    AllCorrectIsQuorum(cfg, vset, A1Test(n, g), faulty);
    A2CountsMessages(vset, n, g);
  }

  lemma NoEntryIsNullQuorum(cfg: Config, vset: seq<ViewChange>, n: nat, faulty: set<nat>)
    requires cfg.Valid() && ProperVset(cfg, vset)
    requires |faulty| <= cfg.f && HoldsAllCorrect(cfg, vset, faulty)
    requires forall e :: !CorrectEntryAt(vset, n, faulty, e)
    ensures NullQuorum(cfg, vset, n)
  {
    forall m | m in vset && m.sender !in faulty ensures NullTest(n)(m) {
      forall e | e in m.pset ensures e.n != n {
        assert !CorrectEntryAt(vset, n, faulty, e);
      }
    }
    AllCorrectIsQuorum(cfg, vset, NullTest(n), faulty);
  }

  /** With consistent view-changes of all correct replicas, every sequence number gets a digest: the
      correct entry of greatest view passes A1 and A2, or else the null quorum exists. */
  lemma ChooseNeverStuck(cfg: Config, vset: seq<ViewChange>, n: nat, faulty: set<nat>, view: nat)
    requires cfg.Valid() && ProperVset(cfg, vset)
    requires |faulty| <= cfg.f && HoldsAllCorrect(cfg, vset, faulty)
    requires forall m :: m in vset && m.sender !in faulty ==> m.h < n
    requires ConsistentAt(cfg, vset, n, faulty, view)
    ensures Choose(cfg, vset, n).Some?
  {
    if e :| CorrectEntryAt(vset, n, faulty, e) {
      var g := GreatestEntry(vset, n, faulty, e, view);
      GreatestIsCandidate(cfg, vset, n, faulty, g, view);
      PickFinds(cfg, vset, n, vset);
    } else {
      NoEntryIsNullQuorum(cfg, vset, n, faulty);
    }
  }

  /** The keys of an assignment are h + 1 up to the last number taken from a P entry; pruning takes
      away nothing but null requests above it. */
  lemma AssignmentShape(cfg: Config, vset: seq<ViewChange>, h: nat) returns (top: nat)
    requires cfg.Valid()
    requires Assign(cfg, vset, h).Some?
    ensures h < top <= h + cfg.L()
    ensures forall n :: n in Assign(cfg, vset, h).value <==> h < n <= top
    ensures forall n :: h < n <= top ==> Choose(cfg, vset, n) == Some(Assign(cfg, vset, h).value[n])
    ensures forall n :: top < n <= h + cfg.L() ==> Choose(cfg, vset, n) == Some(Null)
    ensures top == h + 1 || Pick(cfg, vset, top).Some?
  {
    LogSize(cfg);
    TopIsPicked(cfg, vset, h, h + cfg.L());
    top := Top(cfg, vset, h, h + cfg.L());
    forall n: nat | top < n <= h + cfg.L() ensures Choose(cfg, vset, n) == Some(Null) {
      assert Choose(cfg, vset, n).Some?;
    }
  }

  lemma {:induction false} TopIsPicked(cfg: Config, vset: seq<ViewChange>, h: nat, hi: nat)
    ensures Top(cfg, vset, h, hi) == h + 1 || Pick(cfg, vset, Top(cfg, vset, h, hi)).Some?
    decreases hi
  {
    if h < hi && Pick(cfg, vset, hi).None? {
      TopIsPicked(cfg, vset, h, hi - 1);
    }
  }

  // ----- The initial checkpoint -----

  function VouchTest(c: CEntry): ViewChange -> bool {
    (m: ViewChange) => c in m.cset
  }

  ghost predicate NoDuplicateCheckpoints(vset: seq<ViewChange>) {
    forall m, i, j :: m in vset && 0 <= i < j < |m.cset| ==> m.cset[i] != m.cset[j]
  }

  lemma {:induction false} VouchersAreMessages(s: seq<ViewChange>, c: CEntry)
    requires NoDuplicateCheckpoints(s)
    ensures Vouchers(s, c) == CountIf(s, VouchTest(c))
  {
    if s != [] {
      var init, last := s[..|s| - 1], s[|s| - 1];
      assert last in s;
      assert forall m :: m in init ==> m in s;
      VouchersAreMessages(init, c);
      OccurrencesAtMostOne(last.cset, c);
    }
  }

  /** A correct replica vouches for the initial checkpoint, so it holds whatever is true of every
      checkpoint that correct replicas report. */
  lemma CorrectVoucher(cfg: Config, vset: seq<ViewChange>, n: nat, faulty: set<nat>) returns (m: ViewChange, c: CEntry)
    requires ProperVset(cfg, vset) && NoDuplicateCheckpoints(vset)
    requires |faulty| <= cfg.f
    requires Selected(cfg, vset, n)
    ensures m in vset && m.sender !in faulty && c in m.cset && c.n == n
  {
    c :| Qualifies(cfg, vset, c) && c.n == n;
    VouchersAreMessages(vset, c);
    CountIsCard(vset, VouchTest(c));
    var x := CorrectMember(SendersIf(vset, VouchTest(c)), faulty);
    m :| m in vset && VouchTest(c)(m) && m.sender == x;
  }

  /** Without distinct senders a single faulty message, repeated, satisfies every condition:
      the loops count list elements. */
  lemma RepeatedMessageIsAQuorum(cfg: Config, m: ViewChange, e: PQ, k: nat)
    requires cfg.Valid()
    requires k >= cfg.N
    requires m.pset == [e] && m.qset == [e] && m.h < e.n
    ensures Candidate(cfg, Repeat(m, k), e.n, e)
    ensures k > 0 && Choose(cfg, Repeat(m, k), e.n) == Some(e.d)
  {
    CountRepeat(m, k, A1Test(e.n, e));
    assert CountEntries([e], A2Test(e.n, e)) == 1;
    A2Repeat(m, k, e.n, e);
    assert Candidate(cfg, Repeat(m, k), e.n, e);
    assert PickIn(cfg, Repeat(m, k), e.n, Repeat(m, k)[0].pset) == Some(e.d);
  }

  function Repeat(m: ViewChange, k: nat): (s: seq<ViewChange>)
    ensures |s| == k && forall i :: 0 <= i < k ==> s[i] == m
  {
    seq(k, _ => m)
  }

  lemma {:induction false} CountRepeat(m: ViewChange, k: nat, p: ViewChange -> bool)
    requires p(m)
    ensures CountIf(Repeat(m, k), p) == k
  {
    if k > 0 {
      CountRepeat(m, k - 1, p);
      assert Repeat(m, k)[..k - 1] == Repeat(m, k - 1);
    }
  }

  lemma {:induction false} A2Repeat(m: ViewChange, k: nat, n: nat, em: PQ)
    requires CountEntries(m.qset, A2Test(n, em)) == 1
    ensures A2Count(Repeat(m, k), n, em) == k
  {
    if k > 0 {
      A2Repeat(m, k - 1, n, em);
      assert Repeat(m, k)[..k - 1] == Repeat(m, k - 1);
    }
  }
}
