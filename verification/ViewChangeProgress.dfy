/** The decision procedure cannot get stuck in a running system: given the view-changes of all correct
    replicas, it assigns a digest to every number. */
module ViewChangeProgress {
  import opened PbftTypes
  import opened Quorums
  import opened NewViewRule
  import opened NewViewSafety
  import opened ReplicaSteps
  import opened ReplicaInvariant
  import opened ReplicaLog
  import opened ReplicaBackers
  import opened PbftSystem
  import opened ViewChangeCauses
  import opened Agreement
  import opened PromptRuns

  // ----- Runs of the system are runs of its replicas -----

  ghost predicate EndsARun(cfg: Config, id: nat, s: State)
    requires cfg.Valid()
  {
    exists log :: Legal(cfg, id, log) && log[|log| - 1] == s
  }

  lemma RunGoesOnTo(cfg: Config, id: nat, s: State, s': State)
    requires cfg.Valid() && EndsARun(cfg, id, s) && Next(cfg, s, s')
    ensures EndsARun(cfg, id, s')
  {
    hide Next;
    var log :| Legal(cfg, id, log) && log[|log| - 1] == s;
    LegalExtends(cfg, id, log, s');
    assert (log + [s'])[|log + [s']| - 1] == s';
  }

  /** In every state of a run of the system, each correct replica is at the end of a run of its own. */
  lemma {:induction false} ReplicasRun(cfg: Config, faulty: set<nat>, run: seq<System>, k: nat, i: nat)
    requires FaultBound(cfg, faulty) && IsRun(cfg, faulty, run) && k < |run|
    requires i in run[k].states
    ensures EndsARun(cfg, i, run[k].states[i])
  {
    hide SysInv, ReplicaStep, EnvironmentStep, EndsARun;
    if k == 0 {
      assert EndsARun(cfg, i, Initial(i)) by { FreshRun(cfg, i); }
    } else {
      RunKeepsInv(cfg, faulty, run, k - 1);
      assert SysNext(cfg, faulty, run[k - 1], run[k]);
      ReplicaGoesOn(cfg, faulty, run[k - 1], run[k], i);
      ReplicasRun(cfg, faulty, run, k - 1, i);
      if run[k].states[i] != run[k - 1].states[i] {
        RunGoesOnTo(cfg, i, run[k - 1].states[i], run[k].states[i]);
      }
    }
  }

  lemma FreshRun(cfg: Config, i: nat)
    requires cfg.Valid()
    ensures EndsARun(cfg, i, Initial(i))
  {
    assert Legal(cfg, i, [Initial(i)]);
  }

  lemma ReplicaGoesOn(cfg: Config, faulty: set<nat>, sys: System, sys': System, i: nat)
    requires FaultBound(cfg, faulty) && SysInv(cfg, faulty, sys) && SysNext(cfg, faulty, sys, sys') && i in sys'.states
    ensures i in sys.states && (sys'.states[i] == sys.states[i] || Next(cfg, sys.states[i], sys'.states[i]))
  {
    hide SysInv, Enabled, Inv;
    if j, step :| ReplicaStep(cfg, sys, sys', j, step) {
      if step.Hear? {
        NetIsHearable(cfg, faulty, sys, j, step.m);
        HearIsStep(cfg, sys.states[j], step.m);
      }
      assert Enabled(cfg, sys.states[j], step);
      assert sys'.states[j] == Apply(cfg, sys.states[j], step);
    }
  }

  lemma FreshTells(id: nat)
    ensures BackersTell(Initial(id))
  {
  }

  lemma {:induction false} RunKeepsBackers(cfg: Config, id: nat, log: seq<State>, k: nat)
    requires cfg.Valid() && Legal(cfg, id, log) && k < |log|
    ensures BackersTell(log[k])
  {
    hide Inv, BackersTell, Enabled, Apply;
    if k == 0 {
      assert BackersTell(Initial(id)) by { FreshTells(id); }
    } else {
      RunKeepsBackers(cfg, id, log, k - 1);
      RunInv(cfg, id, log, k - 1);
      assert Linked(cfg, log, k - 1);
      var step :| Enabled(cfg, log[k - 1], step) && log[k] == Apply(cfg, log[k - 1], step);
      StepKeepsBackers(cfg, log[k - 1], step);
    }
  }

  /** In every reachable state, a correct replica that stands behind e says so in every later
      view-change from below e.n. */
  lemma BackerTells(cfg: Config, faulty: set<nat>, sys: System, x: nat, vc: ViewChange, e: PQ)
    requires FaultBound(cfg, faulty) && Reachable(cfg, faulty, sys) && x in sys.states && !sys.states[x].lost
    requires ViewChangeMsg(vc) in sys.states[x].made && e.v < vc.v
    requires Backs(sys.states[x], e) && Firm(sys.states[x], e)
    ensures Tells(vc, e)
  {
    hide Next, SysNext, Init, Backs, Firm, Tells;
    var run :| IsRun(cfg, faulty, run) && run[|run| - 1] == sys;
    ReplicasRun(cfg, faulty, run, |run| - 1, x);
    var log :| Legal(cfg, x, log) && log[|log| - 1] == sys.states[x];
    RunKeepsBackers(cfg, x, log, |log| - 1);
  }

  // ----- How many stand behind a prepared entry -----

  ghost function Backers(sys: System, e: PQ): set<nat> {
    set x | x in sys.states && Backs(sys.states[x], e)
  }

  /** The primary of v, if correct, entered v. */
  ghost predicate PrimaryEntered(cfg: Config, faulty: set<nat>, sys: System, v: nat)
    requires cfg.Valid()
  {
    || cfg.Primary(v) in faulty
    || v == 0
    || (cfg.Primary(v) in sys.states && v in sys.states[cfg.Primary(v)].acts)
  }

  lemma PrimaryBacks(cfg: Config, faulty: set<nat>, sys: System, x: nat, e: PQ)
    requires FaultBound(cfg, faulty) && SysInv(cfg, faulty, sys)
    requires x in sys.states && e in sys.states[x].accepted
    requires cfg.Primary(e.v) !in faulty && PrimaryEntered(cfg, faulty, sys, e.v)
    ensures cfg.Primary(e.v) in sys.states && Backs(sys.states[cfg.Primary(e.v)], e)
  {
    hide Inv, SoundNewView, Selected, Assign;
    var p := cfg.Primary(e.v);
    AcceptedIsOk(cfg, faulty, sys, x, e);
    assert p in sys.states;
    if FromNewView(sys.states[x], e) {
      PositiveView(cfg, faulty, sys, x, e.v);
      SameNewView(cfg, faulty, sys, x, p, e.v);
    } else {
      var q :| PrePrepareMsg(q) in sys.states[x].Msgs() && q.v == e.v && q.n == e.n && q.d == e.d && q.sender == p;
      assert PrePrepareMsg(q) in sys.net;
      assert PrePrepareMsg(q) in sys.states[p].made;
    }
  }

  lemma CorrectPreparersBack(cfg: Config, faulty: set<nat>, sys: System, x: nat, e: PQ)
    requires FaultBound(cfg, faulty) && SysInv(cfg, faulty, sys) && x in sys.states
    ensures Preparers(cfg, sys.states[x].Msgs(), e.v, e.n, e.d) - faulty <= Backers(sys, e)
  {
    hide Inv, SoundNewView, SysInv;
    forall y | y in Preparers(cfg, sys.states[x].Msgs(), e.v, e.n, e.d) - faulty ensures y in Backers(sys, e) {
      PreparerMade(cfg, faulty, sys, x, e.v, e.n, e.d, y);
      StateOfItself(cfg, faulty, sys, y);
    }
  }

  lemma StateOfItself(cfg: Config, faulty: set<nat>, sys: System, y: nat)
    requires FaultBound(cfg, faulty) && SysInv(cfg, faulty, sys) && y in sys.states
    ensures sys.states[y].id == y
  {
    hide Inv;
    assert ReplicaOk(cfg, sys, y);
  }

  /** f + 1 correct replicas stand behind a prepared entry, if its primary is faulty or entered the view,
      or if there are more than 3f + 1 replicas. */
  lemma PreparedIsBacked(cfg: Config, faulty: set<nat>, sys: System, x: nat, e: PQ)
    requires FaultBound(cfg, faulty) && SysInv(cfg, faulty, sys)
    requires PreparedAt(cfg, sys, x, e.v, e.n, e.d)
    requires PrimaryEntered(cfg, faulty, sys, e.v) || 3 * cfg.f + 2 <= cfg.N
    ensures |Backers(sys, e)| >= cfg.f + 1
  {
    hide SysInv, Backs, Preparers;
    QuorumFacts(cfg);
    var p := cfg.Primary(e.v);
    var preparers := Preparers(cfg, sys.states[x].Msgs(), e.v, e.n, e.d);
    CorrectPreparersBack(cfg, faulty, sys, x, e);
    SubsetCard(preparers - faulty, Backers(sys, e));
    RemoveCard(preparers, faulty);
    PreparersAreIds(cfg, faulty, sys, x, e.v, e.n, e.d);
    if p in faulty {
      RemoveCard(preparers, faulty - {p});
      assert preparers - faulty == preparers - (faulty - {p});
      assert |faulty - {p}| == |faulty| - 1;
    } else if PrimaryEntered(cfg, faulty, sys, e.v) {
      assert e in sys.states[x].accepted;
      PrimaryBacks(cfg, faulty, sys, x, e);
      SubsetCard((preparers - faulty) + {p}, Backers(sys, e));
      assert p !in preparers;
      assert |(preparers - faulty) + {p}| == |preparers - faulty| + 1;
    }
  }

  // ----- What that gives the decision procedure -----

  /** No correct replica accepted a batch where e has a null request. */
  ghost predicate Undisputed(sys: System, e: PQ) {
    e.d != Null || forall i :: i in sys.states ==> Firm(sys.states[i], e)
  }

  /** Enough correct replicas stand behind e, and say so, for it to pass A2. */
  ghost predicate Supported(cfg: Config, faulty: set<nat>, sys: System, e: PQ)
    requires cfg.Valid()
  {
    if cfg.Primary(e.v) in faulty then Undisputed(sys, e)
    else PrimaryEntered(cfg, faulty, sys, e.v) || 3 * cfg.f + 2 <= cfg.N
  }

  lemma CorrectPrimaryIsUndisputed(cfg: Config, faulty: set<nat>, sys: System, x: nat, e: PQ)
    requires FaultBound(cfg, faulty) && SysInv(cfg, faulty, sys)
    requires x in sys.states && e in sys.states[x].accepted && cfg.Primary(e.v) !in faulty
    ensures Undisputed(sys, e)
  {
    hide SysInv;
    forall i, a | i in sys.states && a in sys.states[i].accepted && a.v == e.v && a.n == e.n ensures a.d == e.d {
      CorrectPrimaryBinds(cfg, faulty, sys, i, x, a, e);
    }
  }

  /** The view-changes of all correct replicas for view w, from at most h. */
  ghost predicate AllViewChanges(cfg: Config, faulty: set<nat>, sys: System, vset: seq<ViewChange>, w: nat, h: nat) {
    && ProperVset(cfg, vset)
    && HoldsAllCorrect(cfg, vset, faulty)
    && forall m :: m in vset && m.sender !in faulty ==> ViewChangeMsg(m) in sys.net && m.v == w && m.h <= h
  }

  lemma SentByItself(cfg: Config, faulty: set<nat>, sys: System, vset: seq<ViewChange>, w: nat, h: nat, m: ViewChange)
    requires FaultBound(cfg, faulty) && SysInv(cfg, faulty, sys) && AllViewChanges(cfg, faulty, sys, vset, w, h)
    requires m in vset && m.sender !in faulty
    ensures m.sender in sys.states && ViewChangeMsg(m) in sys.states[m.sender].made
  {
    hide Inv, SoundNewView;
    assert ViewChangeMsg(m) in sys.net;
  }

  lemma EntryIsSupported(cfg: Config, faulty: set<nat>, sys: System, vset: seq<ViewChange>, w: nat, h: nat, e: PQ)
    requires FaultBound(cfg, faulty) && Reachable(cfg, faulty, sys) && NoBatchLost(sys)
    requires AllViewChanges(cfg, faulty, sys, vset, w, h) && h < e.n && e.v < w
    requires Undisputed(sys, e)
    requires |Backers(sys, e)| >= cfg.f + 1
    ensures CountIf(vset, HasQTest(e.n, e)) >= cfg.f + 1
  {
    hide Reachable, SysInv, Backs, Firm;
    ReachableInv(cfg, faulty, sys);
    CountIsCard(vset, HasQTest(e.n, e));
    CorrectIds(cfg, faulty, sys);
    forall x | x in Backers(sys, e) ensures x in SendersIf(vset, HasQTest(e.n, e)) {
      assert x in Ids(cfg.N) && x !in faulty;
      var m :| m in vset && m.sender == x;
      SentByItself(cfg, faulty, sys, vset, w, h, m);
      UndisputedIsFirm(sys, x, e);
      BackerTells(cfg, faulty, sys, x, m, e);
      var q :| q in m.qset && q.n == e.n && q.d == e.d && e.v <= q.v;
      CountEntriesPositive(m.qset, A2Test(e.n, e));
    }
    SubsetCard(Backers(sys, e), SendersIf(vset, HasQTest(e.n, e)));
  }

  lemma UndisputedIsFirm(sys: System, x: nat, e: PQ)
    requires Undisputed(sys, e) && x in sys.states
    ensures Firm(sys.states[x], e)
  {
  }

  lemma CorrectIds(cfg: Config, faulty: set<nat>, sys: System)
    requires FaultBound(cfg, faulty) && SysInv(cfg, faulty, sys)
    ensures sys.states.Keys == Ids(cfg.N) - faulty
  {
    hide Inv, SoundNewView;
  }

  lemma EntryFacts(cfg: Config, faulty: set<nat>, sys: System, vset: seq<ViewChange>, w: nat, h: nat, e: PQ)
    returns (x: nat)
    requires FaultBound(cfg, faulty) && SysInv(cfg, faulty, sys)
    requires AllViewChanges(cfg, faulty, sys, vset, w, h) && CorrectEntryAt(vset, e.n, faulty, e)
    ensures x in sys.states && PreparedAt(cfg, sys, x, e.v, e.n, e.d) && e.v < w
  {
    hide SysInv, PreparedAt;
    var m :| m in vset && m.sender !in faulty && e in m.pset;
    SentByItself(cfg, faulty, sys, vset, w, h, m);
    x := m.sender;
    ViewChangeTells(cfg, faulty, sys, x, m);
  }

  lemma NumberIsConsistent(cfg: Config, faulty: set<nat>, sys: System, vset: seq<ViewChange>, w: nat, h: nat, n: nat)
    requires FaultBound(cfg, faulty) && Reachable(cfg, faulty, sys) && NoBatchLost(sys)
    requires AllViewChanges(cfg, faulty, sys, vset, w, h) && h < n
    requires forall e :: CorrectEntryAt(vset, n, faulty, e) ==> Supported(cfg, faulty, sys, e)
    ensures ConsistentAt(cfg, vset, n, faulty, w)
  {
    hide Reachable, SysInv, AllViewChanges, CorrectEntryAt, Undisputed, Backers, PreparedAt, PrimaryEntered;
    ReachableInv(cfg, faulty, sys);
    forall e, e' | CorrectEntryAt(vset, n, faulty, e) && CorrectEntryAt(vset, n, faulty, e') && e.v == e'.v
      ensures e.d == e'.d
    {
      EntryNumber(vset, n, faulty, e);
      EntryNumber(vset, n, faulty, e');
      var x := EntryFacts(cfg, faulty, sys, vset, w, h, e);
      var x' := EntryFacts(cfg, faulty, sys, vset, w, h, e');
      PreparedAgree(cfg, faulty, sys, x, x', e.v, n, e.d, e'.d);
    }
    forall e | CorrectEntryAt(vset, n, faulty, e)
      ensures e.v <= w && CountIf(vset, HasQTest(n, e)) >= cfg.f + 1
    {
      EntryNumber(vset, n, faulty, e);
      var x := EntryFacts(cfg, faulty, sys, vset, w, h, e);
      SupportHolds(cfg, faulty, sys, x, e);
      EntryIsSupported(cfg, faulty, sys, vset, w, h, e);
    }
  }

  lemma EntryNumber(vset: seq<ViewChange>, n: nat, faulty: set<nat>, e: PQ)
    requires CorrectEntryAt(vset, n, faulty, e)
    ensures e.n == n
  {
  }

  lemma SupportHolds(cfg: Config, faulty: set<nat>, sys: System, x: nat, e: PQ)
    requires FaultBound(cfg, faulty) && SysInv(cfg, faulty, sys)
    requires PreparedAt(cfg, sys, x, e.v, e.n, e.d) && Supported(cfg, faulty, sys, e)
    ensures Undisputed(sys, e) && |Backers(sys, e)| >= cfg.f + 1
  {
    hide SysInv, Undisputed, Backers;
    PreparedIsBacked(cfg, faulty, sys, x, e);
    if cfg.Primary(e.v) !in faulty {
      CorrectPrimaryIsUndisputed(cfg, faulty, sys, x, e);
    }
  }

  /** In every reachable state, whatever made replicas change views, the decision procedure gives a digest
      to every number when it has the view-changes of all correct replicas: provided no batch was lost, and
      for each of their P entries the primary of its view entered that view if it is correct (or there are
      more than 3f + 1 replicas), and did not put a batch in the place of a null request if it is faulty. */
  lemma SupportedNeverStuck(cfg: Config, faulty: set<nat>, sys: System, vset: seq<ViewChange>, w: nat, h: nat)
    requires FaultBound(cfg, faulty) && Reachable(cfg, faulty, sys) && NoBatchLost(sys)
    requires AllViewChanges(cfg, faulty, sys, vset, w, h)
    requires forall e: PQ :: CorrectEntryAt(vset, e.n, faulty, e) && h < e.n <= h + cfg.L() ==>
              Supported(cfg, faulty, sys, e)
    ensures Assign(cfg, vset, h).Some?
  {
    hide Reachable, Supported;
    forall n: nat | h < n <= h + cfg.L() ensures Choose(cfg, vset, n).Some? {
      NumberIsConsistent(cfg, faulty, sys, vset, w, h, n);
      ChooseNeverStuck(cfg, vset, n, faulty, w);
    }
  }

  // ----- Where every view change has a reason -----

  lemma AllHaveLeft(cfg: Config, faulty: set<nat>, sys: System, vset: seq<ViewChange>, w: nat, h: nat, v: nat, x: nat)
    requires FaultBound(cfg, faulty) && SysInv(cfg, faulty, sys) && AllViewChanges(cfg, faulty, sys, vset, w, h)
    requires x in sys.states && v < w
    ensures Left(sys, v)
  {
    hide SysInv;
    CorrectIds(cfg, faulty, sys);
    assert x in Ids(cfg.N) && x !in faulty;
    var m :| m in vset && m.sender == x;
    SentByItself(cfg, faulty, sys, vset, w, h, m);
  }

  /** A view in which something was accepted has a new-view that verifies. */
  lemma AcceptedMeansEntered(cfg: Config, faulty: set<nat>, sys: System, x: nat, e: PQ)
    requires FaultBound(cfg, faulty) && SysInv(cfg, faulty, sys) && x in sys.states && e in sys.states[x].accepted
    requires 0 < e.v && cfg.Primary(e.v) !in faulty && Opened(cfg, sys, e.v)
    ensures PrimaryEntered(cfg, faulty, sys, e.v)
  {
    hide Inv, SoundNewView, Selected, Assign;
    AcceptedIsOk(cfg, faulty, sys, x, e);
    forall nv | NewViewMsg(nv) in sys.net && nv.v == e.v && nv.sender == cfg.Primary(e.v)
      ensures !Unacceptable(cfg, e.v, nv)
    {
      assert nv == sys.states[x].acts[e.v].nv;
    }
  }

  lemma EntryIsFirm(cfg: Config, faulty: set<nat>, sys: System, vset: seq<ViewChange>, w: nat, h: nat, e: PQ)
    requires FaultBound(cfg, faulty) && PromptlyReachable(cfg, faulty, sys)
    requires AllViewChanges(cfg, faulty, sys, vset, w, h) && CorrectEntryAt(vset, e.n, faulty, e)
    requires cfg.Primary(e.v) in faulty ==> Undisputed(sys, e)
    ensures Supported(cfg, faulty, sys, e)
  {
    hide PromptlyReachable, SysInv, AllViewChanges, CorrectEntryAt, Undisputed, Opened, Left;
    PromptIsReachable(cfg, faulty, sys);
    ReachableInv(cfg, faulty, sys);
    var x := EntryFacts(cfg, faulty, sys, vset, w, h, e);
    if 0 < e.v && cfg.Primary(e.v) !in faulty {
      AllHaveLeft(cfg, faulty, sys, vset, w, h, e.v, x);
      LeavingNeedsPrimary(cfg, faulty, sys, e.v);
      AcceptedMeansEntered(cfg, faulty, sys, x, e);
    }
  }

  /** Where every replica that left a view had a reason in it, the decision procedure gives a digest to
      every number when it has the view-changes of all correct replicas: provided no batch was lost, and no
      faulty primary put a batch in the place of a null request that one of them reports. */
  lemma NewViewNeverStuck(cfg: Config, faulty: set<nat>, sys: System, vset: seq<ViewChange>, w: nat, h: nat)
    requires FaultBound(cfg, faulty) && PromptlyReachable(cfg, faulty, sys) && NoBatchLost(sys)
    requires AllViewChanges(cfg, faulty, sys, vset, w, h)
    requires forall e: PQ ::
               CorrectEntryAt(vset, e.n, faulty, e) && h < e.n <= h + cfg.L() && cfg.Primary(e.v) in faulty ==>
                 Undisputed(sys, e)
    ensures Assign(cfg, vset, h).Some?
  {
    hide PromptlyReachable, Reachable, Supported, AllViewChanges, CorrectEntryAt, Undisputed;
    PromptIsReachable(cfg, faulty, sys);
    forall e: PQ | CorrectEntryAt(vset, e.n, faulty, e) && h < e.n <= h + cfg.L()
      ensures Supported(cfg, faulty, sys, e)
    {
      EntryIsFirm(cfg, faulty, sys, vset, w, h, e);
    }
    SupportedNeverStuck(cfg, faulty, sys, vset, w, h);
  }
}
