/** Small sets of view-changes, and what the new-view rule makes of them. */
module NewViewExamples {
  import opened PbftTypes
  import opened NewViewRule
  import opened NewViewSafety

  /** Four replicas, one of them faulty, a checkpoint at every number and a log of two; views do not
      end by themselves. */
  const ExampleConfig: Config := Config(4, 1, 1, 2, 0)

  const Genesis: CEntry := CEntry(0, "XXX GENESIS")

  // ----- Counting message by message -----

  lemma CountThree(m0: ViewChange, m1: ViewChange, m2: ViewChange, p: ViewChange -> bool)
    ensures CountIf([m0, m1, m2], p) == (if p(m0) then 1 else 0) + (if p(m1) then 1 else 0) + (if p(m2) then 1 else 0)
  {
    assert [m0, m1, m2][..2] == [m0, m1] && [m0, m1][..1] == [m0] && [m0][..0] == [];
    assert CountIf([m0], p) == if p(m0) then 1 else 0;
    assert CountIf([m0, m1], p) == CountIf([m0], p) + if p(m1) then 1 else 0;
  }

  lemma CountFour(m0: ViewChange, m1: ViewChange, m2: ViewChange, m3: ViewChange, p: ViewChange -> bool)
    ensures CountIf([m0, m1, m2, m3], p) == CountIf([m0, m1, m2], p) + if p(m3) then 1 else 0
  {
    assert [m0, m1, m2, m3][..3] == [m0, m1, m2];
  }

  lemma A2CountThree(m0: ViewChange, m1: ViewChange, m2: ViewChange, n: nat, em: PQ)
    ensures A2Count([m0, m1, m2], n, em) ==
            CountEntries(m0.qset, A2Test(n, em)) + CountEntries(m1.qset, A2Test(n, em))
            + CountEntries(m2.qset, A2Test(n, em))
  {
    assert [m0, m1, m2][..2] == [m0, m1] && [m0, m1][..1] == [m0] && [m0][..0] == [];
    assert A2Count([m0], n, em) == CountEntries(m0.qset, A2Test(n, em));
    assert A2Count([m0, m1], n, em) == A2Count([m0], n, em) + CountEntries(m1.qset, A2Test(n, em));
  }

  lemma A2CountFour(m0: ViewChange, m1: ViewChange, m2: ViewChange, m3: ViewChange, n: nat, em: PQ)
    ensures A2Count([m0, m1, m2, m3], n, em) == A2Count([m0, m1, m2], n, em) + CountEntries(m3.qset, A2Test(n, em))
  {
    assert [m0, m1, m2, m3][..3] == [m0, m1, m2];
  }

  lemma VouchersThree(m0: ViewChange, m1: ViewChange, m2: ViewChange, c: CEntry)
    ensures Vouchers([m0, m1, m2], c) ==
            CountOccurrences(m0.cset, c) + CountOccurrences(m1.cset, c) + CountOccurrences(m2.cset, c)
  {
    assert [m0, m1, m2][..2] == [m0, m1] && [m0, m1][..1] == [m0] && [m0][..0] == [];
    assert Vouchers([m0], c) == CountOccurrences(m0.cset, c);
    assert Vouchers([m0, m1], c) == Vouchers([m0], c) + CountOccurrences(m1.cset, c);
  }

  lemma VouchersFour(m0: ViewChange, m1: ViewChange, m2: ViewChange, m3: ViewChange, c: CEntry)
    ensures Vouchers([m0, m1, m2, m3], c) == Vouchers([m0, m1, m2], c) + CountOccurrences(m3.cset, c)
  {
    assert [m0, m1, m2, m3][..3] == [m0, m1, m2];
  }

  lemma CountSingle(e: PQ, p: PQ -> bool)
    ensures CountEntries([e], p) == if p(e) then 1 else 0
    ensures CountEntries([], p) == 0
  {
    assert [e][..0] == [];
  }

  // ----- One entry at number 1 -----

  /** A message from the start with at most one P entry, e, and at most one Q entry, e or one for
      another digest. */
  predicate Plain(m: ViewChange, e: PQ) {
    && m.h == 0 && m.cset == [Genesis]
    && (m.pset == [] || m.pset == [e])
    && (m.qset == [] || m.qset == [e] || (|m.qset| == 1 && m.qset[0].d != e.d))
  }

  predicate PlainVset(vset: seq<ViewChange>, e: PQ) {
    |vset| == 3 && Plain(vset[0], e) && Plain(vset[1], e) && Plain(vset[2], e)
  }

  function Holders(vset: seq<ViewChange>): nat
    requires |vset| == 3
  {
    (if vset[0].pset == [] then 0 else 1) + (if vset[1].pset == [] then 0 else 1)
    + (if vset[2].pset == [] then 0 else 1)
  }

  function Witnesses(vset: seq<ViewChange>, e: PQ): nat
    requires |vset| == 3
  {
    (if vset[0].qset == [e] then 1 else 0) + (if vset[1].qset == [e] then 1 else 0)
    + (if vset[2].qset == [e] then 1 else 0)
  }

  lemma PlainStart(vset: seq<ViewChange>, e: PQ)
    requires PlainVset(vset, e)
    ensures Selected(ExampleConfig, vset, 0)
  {
    assert vset == [vset[0], vset[1], vset[2]];
    CountThree(vset[0], vset[1], vset[2], LowTest(0));
    forall c: CEntry ensures Vouchers(vset, c) == if c == Genesis then 3 else 0 {
      VouchersThree(vset[0], vset[1], vset[2], c);
      OccurrencesAtMostOne([Genesis], c);
    }
    assert Qualifies(ExampleConfig, vset, Genesis);
  }

  lemma PlainCounts(vset: seq<ViewChange>, e: PQ, n: nat)
    requires PlainVset(vset, e) && e.n == 1 && 0 < n
    ensures Candidate(ExampleConfig, vset, n, e) <==> n == 1 && Witnesses(vset, e) >= 2
    ensures NullQuorum(ExampleConfig, vset, n) <==> n != 1 || Holders(vset) == 0
  {
    assert vset == [vset[0], vset[1], vset[2]];
    CountThree(vset[0], vset[1], vset[2], A1Test(n, e));
    CountThree(vset[0], vset[1], vset[2], NullTest(n));
    A2CountThree(vset[0], vset[1], vset[2], n, e);
    forall m | Plain(m, e) ensures CountEntries(m.qset, A2Test(n, e)) == if m.qset == [e] && n == 1 then 1 else 0 {
      if m.qset != [] {
        assert m.qset == [m.qset[0]];
        CountSingle(m.qset[0], A2Test(n, e));
      } else {
        CountSingle(e, A2Test(n, e));
      }
    }
    assert forall m :: Plain(m, e) ==> (HasEntryAt(m, n) <==> n == 1 && m.pset != []);
  }

  /** The entry is picked for its number if it is witnessed by f + 1 messages. */
  lemma PlainPick(vset: seq<ViewChange>, e: PQ, n: nat)
    requires PlainVset(vset, e) && e.n == 1 && 0 < n && Holders(vset) > 0
    ensures Pick(ExampleConfig, vset, n) == if n == 1 && Witnesses(vset, e) >= 2 then Some(e.d) else None
  {
    PlainCounts(vset, e, n);
    PickFinds(ExampleConfig, vset, n, vset);
    assert forall m :: m in vset ==> m.pset == [] || m.pset == [e];
    assert e in vset[0].pset || e in vset[1].pset || e in vset[2].pset;
  }

  /** The assignment when nothing above 1 is picked. */
  lemma OnlyOneAssigned(vset: seq<ViewChange>, d: Digest)
    requires Choose(ExampleConfig, vset, 1) == Some(d)
    requires Pick(ExampleConfig, vset, 2).None? && NullQuorum(ExampleConfig, vset, 2)
    ensures Assign(ExampleConfig, vset, 0) == Some(map[1 := d])
  {
    hide Pick, NullQuorum;
    assert ExampleConfig.L() == 2;
    assert Choose(ExampleConfig, vset, 2) == Some(Null);
    assert AllChosen(ExampleConfig, vset, 0, 2);
    assert Top(ExampleConfig, vset, 0, 1) == 1;
    assert Top(ExampleConfig, vset, 0, 2) == 1;
    var xset := Assign(ExampleConfig, vset, 0).value;
    assert forall n :: n in xset <==> n == 1;
    assert xset == map[1 := d];
  }

  /** With f + 1 witnesses the entry is carried into the new view ... */
  lemma EntryIsCarried(vset: seq<ViewChange>, e: PQ)
    requires PlainVset(vset, e) && e.n == 1 && Holders(vset) > 0 && Witnesses(vset, e) >= 2
    ensures Assign(ExampleConfig, vset, 0) == Some(map[1 := e.d])
  {
    PlainPick(vset, e, 1);
    PlainPick(vset, e, 2);
    PlainCounts(vset, e, 2);
    OnlyOneAssigned(vset, e.d);
  }

  /** ... with fewer the procedure is stuck at its number. */
  lemma EntryIsStuck(vset: seq<ViewChange>, e: PQ)
    requires PlainVset(vset, e) && e.n == 1 && Holders(vset) > 0 && Witnesses(vset, e) < 2
    ensures Choose(ExampleConfig, vset, 1) == None && Assign(ExampleConfig, vset, 0) == None
  {
    PlainPick(vset, e, 1);
    PlainCounts(vset, e, 1);
  }

  // ----- The null branch without the watermark test -----

  function ExampleMessage(d: Digest, sender: nat): ViewChange {
    if sender == 2 then ViewChange(1, 1, [CEntry(1, "one")], [], [], 2)
    else if sender == 1 then ViewChange(1, 0, [Genesis], [PQ(1, d, 0)], [PQ(1, d, 0)], 1)
    else ViewChange(1, 0, [Genesis], [], [], sender)
  }

  function ExampleVset(d: Digest): seq<ViewChange> {
    [ExampleMessage(d, 0), ExampleMessage(d, 1), ExampleMessage(d, 2), ExampleMessage(d, 3)]
  }

  lemma ExampleHasNoCandidate(d: Digest, n: nat)
    ensures Pick(ExampleConfig, ExampleVset(d), n).None?
  {
    var vset, e := ExampleVset(d), PQ(1, d, 0);
    CountSingle(e, A2Test(n, e));
    A2CountThree(vset[0], vset[1], vset[2], n, e);
    A2CountFour(vset[0], vset[1], vset[2], vset[3], n, e);
    PickFinds(ExampleConfig, vset, n, vset);
  }

  lemma ExampleCheckpoint(d: Digest)
    ensures Selected(ExampleConfig, ExampleVset(d), 0)
  {
    var vset := ExampleVset(d);
    CountThree(vset[0], vset[1], vset[2], LowTest(0));
    CountFour(vset[0], vset[1], vset[2], vset[3], LowTest(0));
    forall c: CEntry ensures Vouchers(vset, c) == if c == Genesis then 3 else if c == CEntry(1, "one") then 1 else 0 {
      VouchersThree(vset[0], vset[1], vset[2], c);
      VouchersFour(vset[0], vset[1], vset[2], vset[3], c);
      OccurrencesAtMostOne([Genesis], c);
      OccurrencesAtMostOne([CEntry(1, "one")], c);
    }
    assert Qualifies(ExampleConfig, vset, Genesis);
  }

  lemma ExampleCounts(d: Digest, n: nat)
    ensures CountIf(ExampleVset(d), NullTest(n)) == if n == 1 then 3 else 4
    ensures CountIf(ExampleVset(d), AgainstTest(1, d)) == 2
  {
    var vset := ExampleVset(d);
    assert HasEntryAt(vset[1], n) <==> n == 1;
    CountThree(vset[0], vset[1], vset[2], NullTest(n));
    CountFour(vset[0], vset[1], vset[2], vset[3], NullTest(n));
    assert PQ(1, d, 0) in vset[1].pset;
    CountThree(vset[0], vset[1], vset[2], AgainstTest(1, d));
    CountFour(vset[0], vset[1], vset[2], vset[3], AgainstTest(1, d));
  }

  lemma ExampleAssigns(d: Digest)
    ensures Assign(ExampleConfig, ExampleVset(d), 0) == Some(map[1 := Null])
  {
    ExampleHasNoCandidate(d, 1);
    ExampleHasNoCandidate(d, 2);
    ExampleCounts(d, 1);
    ExampleCounts(d, 2);
    OnlyOneAssigned(ExampleVset(d), Null);
  }

  lemma ExampleIsProper(d: Digest)
    ensures ProperVset(ExampleConfig, ExampleVset(d))
    ensures forall m :: m in ExampleVset(d) ==> CorrectViewChange(ExampleConfig, m)
  {
  }

  lemma ExampleIsDecided(d: Digest)
    ensures DecidingSet(ExampleConfig, {1, 2})
    ensures CommittersReport(ExampleVset(d), 1, d, 0, {1, 2})
    ensures LaterEntriesAgree(ExampleVset(d), 1, d, 0, {0})
  {
    assert PQ(1, d, 0) in ExampleVset(d)[1].pset;
  }

  /** Four replicas, replica 0 faulty. Replicas 1 and 2 committed d at sequence number 1. Replica 1 sent
      its view-change while it was still executing d: it holds its P entry and lists no checkpoint
      there. Then it finished and reported the checkpoint, which made it stable at replica 2, whose
      view-change is from above d. The code assigns the null request to 1, from checkpoint 0.
      (`LostDecision` has a run that ends in these view-changes.) */
  lemma NullBranchLosesDecision(d: Digest)
    requires d != Null
    ensures ExampleConfig.Valid() && ProperVset(ExampleConfig, ExampleVset(d))
    ensures forall m :: m in ExampleVset(d) ==> CorrectViewChange(ExampleConfig, m)
    ensures DecidingSet(ExampleConfig, {1, 2})
    ensures CommittersReport(ExampleVset(d), 1, d, 0, {1, 2})
    ensures LaterEntriesAgree(ExampleVset(d), 1, d, 0, {0})
    ensures Selected(ExampleConfig, ExampleVset(d), 0)
    ensures Assign(ExampleConfig, ExampleVset(d), 0) == Some(map[1 := Null])
    ensures !NullGuard(ExampleConfig, ExampleVset(d), 1, d)
  {
    hide ProperVset, CorrectViewChange, Assign, Selected, CommittersReport, LaterEntriesAgree, DecidingSet;
    ExampleIsProper(d);
    ExampleIsDecided(d);
    ExampleAssigns(d);
    ExampleCheckpoint(d);
    ExampleCounts(d, 1);
  }
}
