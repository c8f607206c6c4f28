/** Arithmetic of quorums, and finite-set counting behind every quorum argument. */
module Quorums {
  import opened PbftTypes

  /** The three facts that every agreement argument rests on. */
  lemma QuorumFacts(cfg: Config)
    requires cfg.Valid()
    ensures cfg.f + 1 <= 2 * cfg.IntersectionQuorum() - cfg.N
    ensures cfg.IntersectionQuorum() <= cfg.AllCorrectReplicasQuorum()
    ensures cfg.f + 1 <= cfg.IntersectionQuorum() - cfg.f
  {
  }

  /** Whichever f replicas are faulty, so many are correct. */
  lemma AllCorrectAre(cfg: Config, faulty: set<nat>)
    requires cfg.Valid() && faulty <= Ids(cfg.N) && |faulty| == cfg.f
    ensures |Ids(cfg.N) - faulty| == cfg.AllCorrectReplicasQuorum()
  {
    IdsCard(cfg.N);
    DifferenceCard(Ids(cfg.N), faulty);
  }

  lemma DifferenceCard<T>(a: set<T>, b: set<T>)
    requires b <= a
    ensures |a - b| == |a| - |b|
  {
    assert a == (a - b) + b;
    UnionCard(a - b, b);
  }

  lemma MulMonotone(a: nat, b: nat, k: nat)
    requires a <= b
    ensures a * k <= b * k
  {
  }

  lemma MulStrict(a: nat, b: nat, k: nat)
    requires a < b
    ensures a * k + k <= b * k
  {
    MulMonotone(a + 1, b, k);
    assert (a + 1) * k == a * k + k;
  }

  /** The quotient of a division with remainder is unique. */
  lemma QuotientUnique(p: nat, r: nat, q: nat, t: nat, k: nat)
    requires r < k && t < k
    requires p * k + r == q * k + t
    ensures p == q && r == t
  {
    if p < q {
      MulStrict(p, q, k);
    } else if q < p {
      MulStrict(q, p, k);
    }
  }

  lemma DivMod(n: nat, k: nat)
    requires 0 < k
    ensures n == n / k * k + n % k
    ensures 0 <= n % k < k
  {
  }

  lemma DivStep(n: nat, k: nat)
    requires 0 < k <= n
    ensures n / k == (n - k) / k + 1
    ensures n % k == (n - k) % k
  {
    var q := (n - k) / k;
    DivMod(n, k);
    DivMod(n - k, k);
    assert (q + 1) * k == q * k + k;
    QuotientUnique(n / k, n % k, q + 1, (n - k) % k, k);
  }

  /** `Floor` is the division and multiplication that moves a watermark, and `IsMultiple` the test
      that triggers a checkpoint. */
  lemma {:induction false} FloorIsRounding(cfg: Config, n: nat)
    requires cfg.Valid()
    ensures cfg.Floor(n) == n / cfg.K * cfg.K
    ensures cfg.IsMultiple(n) <==> n % cfg.K == 0
  {
    if cfg.K <= n {
      FloorIsRounding(cfg, n - cfg.K);
      DivStep(n, cfg.K);
      assert ((n - cfg.K) / cfg.K + 1) * cfg.K == (n - cfg.K) / cfg.K * cfg.K + cfg.K;
    }
  }

  lemma {:induction false} FloorIsMultiple(cfg: Config, n: nat)
    requires cfg.Valid()
    ensures cfg.IsMultiple(cfg.Floor(n))
  {
    if cfg.K <= n {
      FloorIsMultiple(cfg, n - cfg.K);
    }
  }

  /** Rounding down is monotone; a multiple that is not above n is not above n rounded down. */
  lemma {:induction false} FloorMonotone(cfg: Config, m: nat, n: nat)
    requires cfg.Valid()
    requires m <= n
    ensures cfg.Floor(m) <= cfg.Floor(n)
    ensures cfg.IsMultiple(m) ==> m <= cfg.Floor(n)
  {
    if cfg.K <= m {
      FloorMonotone(cfg, m - cfg.K, n - cfg.K);
    }
  }

  lemma {:induction false} SumOfMultiples(cfg: Config, a: nat, b: nat)
    requires cfg.Valid()
    requires cfg.IsMultiple(a) && cfg.IsMultiple(b)
    ensures cfg.IsMultiple(a + b)
  {
    if cfg.K <= a {
      SumOfMultiples(cfg, a - cfg.K, b);
    }
  }

  lemma {:induction false} ProductIsMultiple(cfg: Config, m: nat)
    requires cfg.Valid()
    ensures cfg.IsMultiple(m * cfg.K)
    decreases m
  {
    if m > 0 {
      ProductIsMultiple(cfg, m - 1);
      assert m * cfg.K == (m - 1) * cfg.K + cfg.K;
    }
  }

  /** The log size is a multiple of the checkpoint period, and at least two of them. */
  lemma LogSize(cfg: Config)
    requires cfg.Valid()
    ensures cfg.IsMultiple(cfg.L())
    ensures 2 * cfg.K <= cfg.L()
  {
    ProductIsMultiple(cfg, cfg.logMultiplier);
    assert (cfg.logMultiplier - 2) * cfg.K >= 0;
  }

  /** The replica identifiers: all naturals below n. */
  function Ids(n: nat): (s: set<nat>)
    ensures forall i: nat :: i in s <==> i < n
  {
    if n == 0 then {} else Ids(n - 1) + {n - 1}
  }

  lemma {:induction false} IdsCard(n: nat)
    ensures |Ids(n)| == n
  {
    if n > 0 {
      IdsCard(n - 1);
    }
  }

  lemma SubsetCard<T>(a: set<T>, b: set<T>)
    requires a <= b
    ensures |a| <= |b|
  {
    assert b == a + (b - a);
  }

  lemma ProperSubsetCard<T>(a: set<T>, b: set<T>, x: T)
    requires a <= b
    requires x in b && x !in a
    ensures |a| < |b|
  {
    SubsetCard(a + {x}, b);
  }

  lemma UnionCard<T>(a: set<T>, b: set<T>)
    ensures |a| + |b| == |a + b| + |a * b|
  {
  }

  /** Two sets of members of a universe of n, larger together than n by k, share at least k members. */
  lemma IntersectionCard(n: nat, a: set<nat>, b: set<nat>)
    requires a <= Ids(n) && b <= Ids(n)
    ensures |a * b| >= |a| + |b| - n
  {
    IdsCard(n);
    SubsetCard(a + b, Ids(n));
    UnionCard(a, b);
  }

  /** Removing at most k members leaves at least |a| - k. */
  lemma RemoveCard(a: set<nat>, faulty: set<nat>)
    ensures |a - faulty| >= |a| - |faulty|
  {
    assert a == (a - faulty) + (a * faulty);
    SubsetCard(a * faulty, faulty);
  }

  /** A set larger than the set of faulty replicas has a correct member. */
  lemma CorrectMember(a: set<nat>, faulty: set<nat>) returns (x: nat)
    requires |a| > |faulty|
    ensures x in a && x !in faulty
  {
    RemoveCard(a, faulty);
    assert |a - faulty| > 0;
    assert a - faulty != {};
    x :| x in a - faulty;
  }
}
