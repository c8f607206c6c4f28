/** The loops of the view-change decision procedure, each proved against the rule. */
module NewViewLoops {
  import opened PbftTypes
  import opened Quorums
  import opened NewViewRule

  /** P and Q entries are from earlier views and lie between the watermarks of the message, checkpoints
      also at the lower one. */
  method CheckViewChange(cfg: Config, vc: ViewChange) returns (ok: bool)
    ensures ok <==> CorrectViewChange(cfg, vc)
    ensures ok <==>
              && (forall p :: p in vc.pset || p in vc.qset ==> p.v < vc.v && vc.h < p.n <= vc.h + cfg.L())
              && (forall c :: c in vc.cset ==> vc.h <= c.n <= vc.h + cfg.L())
  {
    var entries := vc.pset + vc.qset;
    for i := 0 to |entries|
      invariant forall j :: 0 <= j < i ==> entries[j].v < vc.v && vc.h < entries[j].n <= vc.h + cfg.L()
    {
      var p := entries[i];
      if !(p.v < vc.v && p.n > vc.h && p.n <= vc.h + cfg.L()) {
        assert p in vc.pset || p in vc.qset;
        return false;
      }
    }
    assert forall j :: 0 <= j < |vc.pset| ==> vc.pset[j] == entries[j];
    assert forall j :: 0 <= j < |vc.qset| ==> vc.qset[j] == entries[|vc.pset| + j];
    for i := 0 to |vc.cset|
      invariant forall j :: 0 <= j < i ==> vc.h <= vc.cset[j].n <= vc.h + cfg.L()
    {
      var c := vc.cset[i];
      if !(c.n >= vc.h && c.n <= vc.h + cfg.L()) {
        return false;
      }
    }
    return true;
  }

  /** Condition A1, with the inner loop that leaves a message at the first entry against em. */
  method CountA1(vset: seq<ViewChange>, n: nat, em: PQ) returns (quorum: nat)
    ensures quorum == CountIf(vset, A1Test(n, em))
  {
    quorum := 0;
    var i := 0;
    label mpLoop:
    while i < |vset|
      invariant 0 <= i <= |vset|
      invariant quorum == CountIf(vset[..i], A1Test(n, em))
    {
      var mp := vset[i];
      i := i + 1;
      assert vset[..i][..i - 1] == vset[..i - 1];
      if mp.h >= n {
        continue;
      }
      for j := 0 to |mp.pset|
        invariant forall k :: 0 <= k < j ==> Yields(mp.pset[k], n, em)
      {
        var emp := mp.pset[j];
        if n == emp.n && !(emp.v < em.v || (emp.v == em.v && emp.d == em.d)) {
          assert !Yields(emp, n, em) && emp in mp.pset;
          continue mpLoop;
        }
      }
      quorum := quorum + 1;
    }
    assert vset[..i] == vset;
  }

  /** Condition A2, which counts entries. */
  method CountA2(vset: seq<ViewChange>, n: nat, em: PQ) returns (quorum: nat)
    ensures quorum == A2Count(vset, n, em)
  {
    quorum := 0;
    for i := 0 to |vset|
      invariant quorum == A2Count(vset[..i], n, em)
    {
      var qs := vset[i].qset;
      assert vset[..i + 1][..i] == vset[..i];
      for j := 0 to |qs|
        invariant quorum == A2Count(vset[..i], n, em) + CountEntries(qs[..j], A2Test(n, em))
      {
        var emp := qs[j];
        assert qs[..j + 1][..j] == qs[..j];
        if n == emp.n && emp.v >= em.v && emp.d == em.d {
          quorum := quorum + 1;
        }
      }
      assert qs[..|qs|] == qs;
    }
    assert vset[..|vset|] == vset;
  }

  /** The null branch. */
  method CountNull(vset: seq<ViewChange>, n: nat) returns (quorum: nat)
    ensures quorum == CountIf(vset, NullTest(n))
  {
    quorum := 0;
    var i := 0;
    label nullLoop:
    while i < |vset|
      invariant 0 <= i <= |vset|
      invariant quorum == CountIf(vset[..i], NullTest(n))
    {
      var m := vset[i];
      i := i + 1;
      assert vset[..i][..i - 1] == vset[..i - 1];
      for j := 0 to |m.pset|
        invariant forall k :: 0 <= k < j ==> m.pset[k].n != n
      {
        if m.pset[j].n == n {
          assert m.pset[j] in m.pset;
          continue nullLoop;
        }
      }
      quorum := quorum + 1;
    }
    assert vset[..i] == vset;
  }

  /** The search over all P entries of all messages; the first that passes A1 and A2 is selected. */
  method SelectRequest(cfg: Config, vset: seq<ViewChange>, n: nat) returns (r: Option<Digest>)
    ensures r == Pick(cfg, vset, n)
  {
    for i := 0 to |vset|
      invariant Pick(cfg, vset, n) == PickFrom(cfg, vset, n, vset[i..])
    {
      var m := vset[i];
      assert vset[i..][1..] == vset[i + 1..];
      for j := 0 to |m.pset|
        invariant PickIn(cfg, vset, n, m.pset) == PickIn(cfg, vset, n, m.pset[j..])
      {
        var em := m.pset[j];
        assert m.pset[j..][1..] == m.pset[j + 1..];
        var quorum := CountA1(vset, n, em);
        if quorum < cfg.IntersectionQuorum() {
          continue;
        }
        quorum := CountA2(vset, n, em);
        if quorum < cfg.f + 1 {
          continue;
        }
        return Some(em.d);
      }
    }
    return None;
  }

  ghost predicate AssignedSoFar(cfg: Config, vset: seq<ViewChange>, h: nat, n: nat, maxN: nat, 
      msgList: map<nat, Digest>) {
    && h < n
    && (forall k :: k in msgList <==> h < k < n)
    && (forall k :: h < k < n ==> Choose(cfg, vset, k) == Some(msgList[k]))
    && maxN == Top(cfg, vset, h, n - 1)
  }

  lemma AssignedOne(cfg: Config, vset: seq<ViewChange>, h: nat, n: nat, maxN: nat, msgList: map<nat, Digest>)
    requires AssignedSoFar(cfg, vset, h, n, maxN, msgList)
    ensures match Pick(cfg, vset, n)
            case Some(d) => AssignedSoFar(cfg, vset, h, n + 1, n, msgList[n := d])
            case None => NullQuorum(cfg, vset, n) ==> AssignedSoFar(cfg, vset, h, n + 1, maxN, msgList[n := Null])
    ensures Pick(cfg, vset, n).None? && !NullQuorum(cfg, vset, n) ==> Choose(cfg, vset, n).None?
  {
    hide Pick, NullQuorum;
  }

  lemma AssignedAll(cfg: Config, vset: seq<ViewChange>, h: nat, maxN: nat, all: map<nat, Digest>, 
      msgList: map<nat, Digest>)
    requires cfg.Valid() && AssignedSoFar(cfg, vset, h, h + cfg.L() + 1, maxN, all)
    requires forall k :: k in msgList <==> k in all && k <= maxN
    requires forall k :: k in msgList ==> msgList[k] == all[k]
    ensures Assign(cfg, vset, h) == Some(msgList)
  {
    hide Pick, Choose, Config.L;
    assert AllChosen(cfg, vset, h, h + cfg.L());
    assert maxN == Top(cfg, vset, h, h + cfg.L());
    LogSize(cfg);
    assert msgList == map n | h < n <= maxN :: Choose(cfg, vset, n).value;
  }

  /** The assignment of digests to the sequence numbers of a new view. */
  method AssignSequenceNumbers(cfg: Config, vset: seq<ViewChange>, h: nat) returns (r: Option<map<nat, Digest>>)
    requires cfg.Valid()
    ensures r == Assign(cfg, vset, h)
  {
    hide Pick, Choose, NullQuorum, AssignedSoFar, Config.L;
    LogSize(cfg);
    var msgList: map<nat, Digest> := map[];
    var maxN: nat := h + 1;
    var n: nat := h + 1;
    AssignedNone(cfg, vset, h);
    while n <= h + cfg.L()
      invariant h < n <= h + cfg.L() + 1
      invariant AssignedSoFar(cfg, vset, h, n, maxN, msgList)
    {
      AssignedOne(cfg, vset, h, n, maxN, msgList);
      var d := SelectRequest(cfg, vset, n);
      if d.Some? {
        msgList := msgList[n := d.value];
        maxN := n;
        n := n + 1;
        continue;
      }
      var quorum := CountNull(vset, n);
      NullQuorumIs(cfg, vset, n);
      if quorum >= cfg.IntersectionQuorum() {
        msgList := msgList[n := Null];
        n := n + 1;
        continue;
      }
      return None;
    }
    var all := msgList;
    msgList := Prune(cfg, vset, h, maxN, all);
    AssignedAll(cfg, vset, h, maxN, all, msgList);
    r := Some(msgList);
  }

  lemma AssignedNone(cfg: Config, vset: seq<ViewChange>, h: nat)
    ensures AssignedSoFar(cfg, vset, h, h + 1, h + 1, map[])
  {
  }

  lemma NullQuorumIs(cfg: Config, vset: seq<ViewChange>, n: nat)
    ensures NullQuorum(cfg, vset, n) <==> CountIf(vset, NullTest(n)) >= cfg.IntersectionQuorum()
  {
  }

  /** Deletes the null requests above maxN, in whatever order the keys come. */
  method Prune(cfg: Config, vset: seq<ViewChange>, h: nat, maxN: nat, all: map<nat, Digest>)
    returns (msgList: map<nat, Digest>)
    requires AssignedSoFar(cfg, vset, h, h + cfg.L() + 1, maxN, all)
    ensures forall k :: k in msgList <==> k in all && k <= maxN
    ensures forall k :: k in msgList ==> msgList[k] == all[k]
  {
    msgList := all;
    var keys := all.Keys;
    while keys != {}
      invariant keys <= all.Keys
      invariant forall k :: k in msgList <==> k in all && (k in keys || k <= maxN)
      invariant forall k :: k in msgList ==> msgList[k] == all[k]
      decreases |keys|
    {
      var n :| n in keys;
      if n > maxN && all[n] == Null {
        msgList := msgList - {n};
      } else if n > maxN {
        assert Pick(cfg, vset, n).None?;
      }
      keys := keys - {n};
    }
  }

  /** For every checkpoint of some C set, the number of times it is listed. */
  method CountCheckpoints(vset: seq<ViewChange>) returns (checkpoints: map<CEntry, nat>)
    ensures forall c :: c in checkpoints <==> Vouchers(vset, c) > 0
    ensures forall c :: c in checkpoints ==> checkpoints[c] == Vouchers(vset, c)
  {
    checkpoints := map[];
    for i := 0 to |vset|
      invariant forall c :: c in checkpoints <==> Vouchers(vset[..i], c) > 0
      invariant forall c :: c in checkpoints ==> checkpoints[c] == Vouchers(vset[..i], c)
    {
      var cs := vset[i].cset;
      assert vset[..i + 1][..i] == vset[..i];
      for j := 0 to |cs|
        invariant forall c :: c in checkpoints <==> Vouchers(vset[..i], c) + CountOccurrences(cs[..j], c) > 0
        invariant forall c :: c in checkpoints ==>
                    checkpoints[c] == Vouchers(vset[..i], c) + CountOccurrences(cs[..j], c)
      {
        assert cs[..j + 1][..j] == cs[..j];
        var c := cs[j];
        checkpoints := checkpoints[c := (if c in checkpoints then checkpoints[c] else 0) + 1];
      }
      assert cs[..|cs|] == cs;
    }
    assert vset[..|vset|] == vset;
  }

  /** The initial checkpoint, whatever the order in which the candidates are visited. Only its
      sequence number is determined: among equal numbers the last one visited wins. */
  method SelectInitialCheckpoint(cfg: Config, vset: seq<ViewChange>) returns (checkpoint: CEntry, ok: bool)
    ensures ok <==> exists n :: Selected(cfg, vset, n)
    ensures ok ==> Selected(cfg, vset, checkpoint.n) && Qualifies(cfg, vset, checkpoint)
    ensures forall c :: |Listing(vset, c)| >= cfg.f + 1 && |LowSenders(vset, c.n)| >= cfg.IntersectionQuorum() ==>
              ok && c.n <= checkpoint.n
  {
    checkpoint, ok := CEntry(0, ""), false;
    var checkpoints := CountCheckpoints(vset);
    var keys := checkpoints.Keys;
    while keys != {}
      invariant keys <= checkpoints.Keys
      invariant forall c :: Qualifies(cfg, vset, c) ==> c in keys || (ok && c.n <= checkpoint.n)
      invariant ok ==> Qualifies(cfg, vset, checkpoint)
      invariant !ok ==> checkpoint.n == 0
      decreases |keys|
    {
      var idx :| idx in keys;
      keys := keys - {idx};
      if checkpoints[idx] <= cfg.f {
        continue;
      }
      var quorum := CountLow(vset, idx.n);
      if quorum < cfg.IntersectionQuorum() {
        continue;
      }
      if checkpoint.n <= idx.n {
        checkpoint, ok := idx, true;
      }
    }
    if ok {
      assert Selected(cfg, vset, checkpoint.n);
    }
    forall c | |Listing(vset, c)| >= cfg.f + 1 && |LowSenders(vset, c.n)| >= cfg.IntersectionQuorum()
      ensures ok && c.n <= checkpoint.n
    {
      ListedQualifies(cfg, vset, c);
    }
  }

  method CountLow(vset: seq<ViewChange>, n: nat) returns (quorum: nat)
    ensures quorum == CountIf(vset, LowTest(n))
  {
    quorum := 0;
    for i := 0 to |vset|
      invariant quorum == CountIf(vset[..i], LowTest(n))
    {
      assert vset[..i + 1][..i] == vset[..i];
      if vset[i].h <= n {
        quorum := quorum + 1;
      }
    }
    assert vset[..|vset|] == vset;
  }
}
