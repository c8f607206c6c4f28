/** The view-change rule in terms of replicas. The rule is stated with counts of messages and entries, as
    the code has them; here every test is said once more by the set of replicas that pass it, for
    view-changes of distinct replicas that repeat no entry. */
module NewViewMeaning {
  import opened PbftTypes
  import opened NewViewRule
  import opened NewViewSafety

  /** n is the greatest number of a checkpoint that f + 1 replicas list and that is not below the low
      watermarks of a quorum. */
  lemma SelectedIff(cfg: Config, vset: seq<ViewChange>, n: nat)
    requires DistinctSenders(vset) && NoDuplicateCheckpoints(vset)
    ensures Selected(cfg, vset, n) <==>
              && (exists c: CEntry ::
                    && c.n == n && |Listing(vset, c)| >= cfg.f + 1
                    && |LowSenders(vset, c.n)| >= cfg.IntersectionQuorum())
              && (forall c: CEntry ::
                    |Listing(vset, c)| >= cfg.f + 1 && |LowSenders(vset, c.n)| >= cfg.IntersectionQuorum() ==> c.n <= n)
  {
    forall c ensures Vouchers(vset, c) == |Listing(vset, c)| && CountIf(vset, LowTest(c.n)) == |LowSenders(vset, c.n)| {
      VouchersAreMessages(vset, c);
      CountIsCard(vset, VouchTest(c));
      CountIsCard(vset, LowTest(c.n));
      assert SendersIf(vset, VouchTest(c)) == Listing(vset, c);
      assert SendersIf(vset, LowTest(c.n)) == LowSenders(vset, c.n);
    }
  }

  /** The replicas from below n that have prepared nothing at n after em, and nothing else beside it. */
  ghost function Compatible(vset: seq<ViewChange>, n: nat, em: PQ): set<nat> {
    set m | m in vset && m.h < n && forall e :: e in m.pset && e.n == n && e.v >= em.v ==> e.v == em.v && e.d == em.d
      :: m.sender
  }

  /** The replicas that pre-prepared the digest of em at n, in its view or later. */
  ghost function Supporters(vset: seq<ViewChange>, n: nat, em: PQ): set<nat> {
    set m | m in vset && exists e :: e in m.qset && e.n == n && e.d == em.d && e.v >= em.v :: m.sender
  }

  /** An entry may be selected for n just when a quorum has nothing against it and f + 1 replicas
      support it. */
  lemma CandidateIff(cfg: Config, vset: seq<ViewChange>, n: nat, em: PQ)
    requires DistinctSenders(vset) && forall m :: m in vset ==> OneQPerKey(m)
    ensures Candidate(cfg, vset, n, em) <==>
              |Compatible(vset, n, em)| >= cfg.IntersectionQuorum() && |Supporters(vset, n, em)| >= cfg.f + 1
  {
    CountIsCard(vset, A1Test(n, em));
    assert SendersIf(vset, A1Test(n, em)) == Compatible(vset, n, em) by {
      forall m | m in vset ensures A1Test(n, em)(m) <==>
          m.h < n && forall e :: e in m.pset && e.n == n && e.v >= em.v ==> e.v == em.v && e.d == em.d
      {
        assert forall e :: e in m.pset ==>
                 (Yields(e, n, em) <==> (e.n == n && e.v >= em.v ==> e.v == em.v && e.d == em.d));
      }
    }
    A2CountsMessages(vset, n, em);
    CountIsCard(vset, HasQTest(n, em));
    assert SendersIf(vset, HasQTest(n, em)) == Supporters(vset, n, em) by {
      forall m | m in vset
        ensures HasQTest(n, em)(m) <==> exists e :: e in m.qset && e.n == n && e.d == em.d && e.v >= em.v
      {
        CountEntriesPositive(m.qset, A2Test(n, em));
        assert forall e :: A2Test(n, em)(e) <==> e.n == n && e.d == em.d && e.v >= em.v;
      }
    }
  }

  /** The replicas that prepared nothing at n. */
  ghost function Unaware(vset: seq<ViewChange>, n: nat): set<nat> {
    set m | m in vset && forall e :: e in m.pset ==> e.n != n :: m.sender
  }

  lemma NullQuorumIff(cfg: Config, vset: seq<ViewChange>, n: nat)
    requires DistinctSenders(vset)
    ensures NullQuorum(cfg, vset, n) <==> |Unaware(vset, n)| >= cfg.IntersectionQuorum()
  {
    CountIsCard(vset, NullTest(n));
    assert SendersIf(vset, NullTest(n)) == Unaware(vset, n);
  }

  /** Every number of an assignment has the digest of an entry that may be selected for it, or the null
      request where no entry may be and a quorum prepared nothing; its last number is h + 1, or the last
      within reach that has such an entry. */
  lemma AssignmentMeans(cfg: Config, vset: seq<ViewChange>, h: nat, x: map<nat, Digest>, n: nat)
    requires cfg.Valid() && Assign(cfg, vset, h) == Some(x) && n in x
    requires DistinctSenders(vset) && forall m :: m in vset ==> OneQPerKey(m)
    ensures || (exists m, e :: m in vset && e in m.pset && e.d == x[n] && Selectable(cfg, vset, n, e))
            || (&& x[n] == Null && |Unaware(vset, n)| >= cfg.IntersectionQuorum()
                && forall m, e :: m in vset && e in m.pset ==> !Selectable(cfg, vset, n, e))
  {
    PickFinds(cfg, vset, n, vset);
    NullQuorumIff(cfg, vset, n);
    forall e ensures Candidate(cfg, vset, n, e) <==> Selectable(cfg, vset, n, e) {
      CandidateIff(cfg, vset, n, e);
    }
    assert Choose(cfg, vset, n).Some? && x[n] == Choose(cfg, vset, n).value;
  }

  ghost predicate Selectable(cfg: Config, vset: seq<ViewChange>, n: nat, em: PQ) {
    |Compatible(vset, n, em)| >= cfg.IntersectionQuorum() && |Supporters(vset, n, em)| >= cfg.f + 1
  }

  /** An assignment fails just when some number within reach has neither. */
  lemma AssignmentFailsIff(cfg: Config, vset: seq<ViewChange>, h: nat)
    requires cfg.Valid()
    requires DistinctSenders(vset) && forall m :: m in vset ==> OneQPerKey(m)
    ensures Assign(cfg, vset, h).None? <==>
              exists n :: && h < n <= h + cfg.L() && |Unaware(vset, n)| < cfg.IntersectionQuorum()
                          && forall m, e :: m in vset && e in m.pset ==> !Selectable(cfg, vset, n, e)
  {
    forall n | h < n <= h + cfg.L()
      ensures Choose(cfg, vset, n).None? <==>
                && |Unaware(vset, n)| < cfg.IntersectionQuorum()
                && forall m, e :: m in vset && e in m.pset ==> !Selectable(cfg, vset, n, e)
    {
      PickFinds(cfg, vset, n, vset);
      NullQuorumIff(cfg, vset, n);
      forall e ensures Candidate(cfg, vset, n, e) <==> Selectable(cfg, vset, n, e) {
        CandidateIff(cfg, vset, n, e);
      }
    }
  }
}
