/** N replicas, at most f of them faulty, and the messages sent so far. Correct replicas take the
    steps of `ReplicaSteps`; faulty ones send anything in their own names. */
module PbftSystem {
  import opened PbftTypes
  import opened Quorums
  import opened NewViewRule
  import opened NewViewSafety
  import opened ReplicaSteps
  import opened ReplicaInvariant
  import opened InvariantViews

  /** The states of the correct replicas, and every message ever sent. */
  datatype System = System(states: map<nat, State>, net: set<Msg>)

  ghost predicate FaultBound(cfg: Config, faulty: set<nat>) {
    cfg.Valid() && faulty <= Ids(cfg.N) && |faulty| <= cfg.f
  }

  /** What the replicas do not check about a new-view and the agreement proof needs: one well-formed
      view-change for that view from each sender, without duplicate entries. */
  ghost predicate SoundNewView(cfg: Config, nv: NewView) {
    && nv.sender < cfg.N
    && ProperVset(cfg, nv.vset)
    && NoDuplicateCheckpoints(nv.vset)
    && (forall vc :: vc in nv.vset ==> vc.v == nv.v && CorrectViewChange(cfg, vc))
  }

  /** The view-changes in a new-view are signed. */
  ghost predicate SignedBy(faulty: set<nat>, net: set<Msg>, nv: NewView) {
    forall vc :: vc in nv.vset && vc.sender !in faulty ==> ViewChangeMsg(vc) in net
  }

  ghost predicate OneNewViewPerView(faulty: set<nat>, net: set<Msg>) {
    forall nv, nv' :: NewViewMsg(nv) in net && NewViewMsg(nv') in net && nv.v == nv'.v
                      && nv.sender == nv'.sender && nv.sender !in faulty ==>
      nv == nv'
  }

  ghost predicate Init(cfg: Config, faulty: set<nat>, sys: System)
    requires FaultBound(cfg, faulty)
  {
    && sys.states.Keys == Ids(cfg.N) - faulty
    && (forall i :: i in sys.states ==> sys.states[i] == Initial(i))
    && sys.net == {}
  }

  /** Correct replica i takes a step; it can hear any message that was sent. */
  ghost predicate ReplicaStep(cfg: Config, sys: System, sys': System, i: nat, step: Step)
    requires cfg.Valid()
  {
    && i in sys.states
    && (step.Hear? ==> step.m in sys.net)
    && (if step.Hear? then true else Enabled(cfg, sys.states[i], step))
    && sys'.states == sys.states[i := if step.Hear? then sys.states[i].(got := sys.states[i].got + {step.m})
                                      else Apply(cfg, sys.states[i], step)]
    && sys'.net == sys.net + sys'.states[i].made
  }

  /** A client or a faulty replica sends a message, or the primary of a view its new-view. */
  ghost predicate EnvironmentStep(cfg: Config, faulty: set<nat>, sys: System, sys': System, m: Msg) {
    && sys'.states == sys.states
    && sys'.net == sys.net + {m}
    && (Sender(m).Some? ==> Sender(m).value in faulty)
    && (m.NewViewMsg? ==>
          && SoundNewView(cfg, m.nv)
          && SignedBy(faulty, sys.net, m.nv)
          && OneNewViewPerView(faulty, sys'.net))
  }

  ghost predicate SysNext(cfg: Config, faulty: set<nat>, sys: System, sys': System)
    requires FaultBound(cfg, faulty)
  {
    || (exists i, step :: ReplicaStep(cfg, sys, sys', i, step))
    || (exists m :: EnvironmentStep(cfg, faulty, sys, sys', m))
  }

  ghost predicate IsRun(cfg: Config, faulty: set<nat>, run: seq<System>)
    requires FaultBound(cfg, faulty)
  {
    && run != []
    && Init(cfg, faulty, run[0])
    && forall k :: 0 < k < |run| ==> SysNext(cfg, faulty, run[k - 1], run[k])
  }

  ghost predicate Reachable(cfg: Config, faulty: set<nat>, sys: System)
    requires FaultBound(cfg, faulty)
  {
    exists run :: IsRun(cfg, faulty, run) && run[|run| - 1] == sys
  }

  // ----- The system invariant -----

  ghost predicate ReplicasOk(cfg: Config, faulty: set<nat>, sys: System)
    requires FaultBound(cfg, faulty)
  {
    && sys.states.Keys == Ids(cfg.N) - faulty
    && (forall i :: i in sys.states ==> ReplicaOk(cfg, sys, i))
  }

  ghost predicate ReplicaOk(cfg: Config, sys: System, i: nat)
    requires cfg.Valid() && i in sys.states
  {
    var s := sys.states[i];
    s.id == i && Inv(cfg, s) && s.got <= sys.net && s.made <= sys.net
  }

  /** Whatever was sent in a correct replica's name was made by it. */
  ghost predicate NetAuthentic(cfg: Config, faulty: set<nat>, sys: System) {
    forall m :: m in sys.net && Sender(m).Some? ==>
      var i := Sender(m).value;
      i < cfg.N && (i !in faulty ==> i in sys.states && m in sys.states[i].made)
  }

  ghost predicate NewViewsOk(cfg: Config, faulty: set<nat>, sys: System) {
    && OneNewViewPerView(faulty, sys.net)
    && (forall nv :: NewViewMsg(nv) in sys.net ==> SoundNewView(cfg, nv) && SignedBy(faulty, sys.net, nv))
  }

  ghost predicate SysInv(cfg: Config, faulty: set<nat>, sys: System)
    requires FaultBound(cfg, faulty)
  {
    ReplicasOk(cfg, faulty, sys) && NetAuthentic(cfg, faulty, sys) && NewViewsOk(cfg, faulty, sys)
  }

  /** A correct view-change inside a new-view was made by its sender. */
  lemma MadeBySender(cfg: Config, faulty: set<nat>, sys: System, nv: NewView, vc: ViewChange)
    requires FaultBound(cfg, faulty) && SysInv(cfg, faulty, sys)
    requires NewViewMsg(nv) in sys.net && vc in nv.vset && vc.sender !in faulty
    ensures vc.sender in sys.states && ViewChangeMsg(vc) in sys.states[vc.sender].made
  {
    hide Inv, SoundNewView;
    assert ViewChangeMsg(vc) in sys.net;
  }

  /** The checkpoint of every new-view that is sent is a multiple of K: a correct replica vouches
      for it. */
  lemma NewViewIsAligned(cfg: Config, faulty: set<nat>, sys: System, nv: NewView)
    requires FaultBound(cfg, faulty) && SysInv(cfg, faulty, sys)
    requires NewViewMsg(nv) in sys.net
    ensures Aligned(cfg, nv)
  {
    forall cp | Selected(cfg, nv.vset, cp) ensures cfg.IsMultiple(cp) {
      var m, c := CorrectVoucher(cfg, nv.vset, cp, faulty);
      MadeBySender(cfg, faulty, sys, nv, m);
      assert ReplicaOk(cfg, sys, m.sender);
    }
  }

  /** Every message that was sent can be heard by every correct replica. */
  lemma NetIsHearable(cfg: Config, faulty: set<nat>, sys: System, i: nat, m: Msg)
    requires FaultBound(cfg, faulty) && SysInv(cfg, faulty, sys)
    requires i in sys.states && m in sys.net
    ensures CanHear(cfg, sys.states[i], m)
  {
    assert ReplicaOk(cfg, sys, i);
    hide Inv;
    if m.NewViewMsg? {
      NewViewIsAligned(cfg, faulty, sys, m.nv);
    }
  }

  ghost predicate MadeByStep(s: State, s': State) {
    && s'.id == s.id
    && s.made <= s'.made
    && forall m :: m in s'.made && m !in s.made ==> Sender(m) == Some(s.id)
  }

  lemma StepMakesOwn(cfg: Config, s: State, step: Step)
    requires cfg.Valid() && Enabled(cfg, s, step)
    ensures MadeByStep(s, Apply(cfg, s, step))
    ensures step.Hear? || Apply(cfg, s, step).got == s.got
  {
    hide CanHear, CanAcceptPrePrepare, CanIssuePrePrepare, CanCastPrepare, CanCountPrepare, CanCastCommit,
         CanCountCommit, CanStartExec, CanMoveOnQuorum, CanMoveOnReports, CanMoveOnNewView, CanActivate,
         ListsCheckpoints, ListsP, ListsQ, CalcP, CalcQ, ActivatedCerts;
  }

  lemma ReplicaStepKeeps(cfg: Config, faulty: set<nat>, sys: System, sys': System, i: nat, step: Step)
    requires FaultBound(cfg, faulty) && SysInv(cfg, faulty, sys)
    requires ReplicaStep(cfg, sys, sys', i, step)
    ensures SysInv(cfg, faulty, sys')
  {
    hide SysInv, Inv, Enabled, MadeByStep;
    var s' := StepOfReplica(cfg, faulty, sys, sys', i, step);
    SystemStepKeeps(cfg, faulty, sys, sys', i, s');
  }

  lemma StepOfReplica(cfg: Config, faulty: set<nat>, sys: System, sys': System, i: nat, step: Step) returns (s': State)
    requires FaultBound(cfg, faulty) && SysInv(cfg, faulty, sys)
    requires ReplicaStep(cfg, sys, sys', i, step)
    ensures sys'.states == sys.states[i := s'] && sys'.net == sys.net + s'.made
    ensures Inv(cfg, s') && MadeByStep(sys.states[i], s') && s'.got <= sys.net
  {
    hide Inv, Enabled, SoundNewView;
    var s := sys.states[i];
    assert ReplicaOk(cfg, sys, i);
    if step.Hear? {
      NetIsHearable(cfg, faulty, sys, i, step.m);
      HearIsStep(cfg, s, step.m);
    }
    StepKeepsInv(cfg, s, step);
    StepMakesOwn(cfg, s, step);
    s' := Apply(cfg, s, step);
  }

  lemma SystemStepKeeps(cfg: Config, faulty: set<nat>, sys: System, sys': System, i: nat, s': State)
    requires FaultBound(cfg, faulty) && SysInv(cfg, faulty, sys) && i in sys.states
    requires sys'.states == sys.states[i := s'] && sys'.net == sys.net + s'.made
    requires Inv(cfg, s') && MadeByStep(sys.states[i], s') && s'.got <= sys.net
    ensures SysInv(cfg, faulty, sys')
  {
    hide Inv, SoundNewView;
    assert ReplicaOk(cfg, sys, i);
    forall j | j in sys'.states ensures ReplicaOk(cfg, sys', j) {
      assert ReplicaOk(cfg, sys, j);
    }
    assert forall nv :: NewViewMsg(nv) in sys'.net ==> NewViewMsg(nv) in sys.net;
  }

  lemma HearIsStep(cfg: Config, s: State, m: Msg)
    requires cfg.Valid() && CanHear(cfg, s, m)
    ensures Enabled(cfg, s, Hear(m))
    ensures Apply(cfg, s, Hear(m)) == s.(got := s.got + {m})
  {
  }

  lemma EnvironmentStepKeeps(cfg: Config, faulty: set<nat>, sys: System, sys': System, m: Msg)
    requires FaultBound(cfg, faulty) && SysInv(cfg, faulty, sys)
    requires EnvironmentStep(cfg, faulty, sys, sys', m)
    ensures SysInv(cfg, faulty, sys')
  {
    hide Inv, SoundNewView;
    forall j | j in sys'.states ensures ReplicaOk(cfg, sys', j) {
      assert ReplicaOk(cfg, sys, j);
    }
  }

  lemma {:induction false} RunKeepsInv(cfg: Config, faulty: set<nat>, run: seq<System>, k: nat)
    requires FaultBound(cfg, faulty) && IsRun(cfg, faulty, run)
    requires k < |run|
    ensures SysInv(cfg, faulty, run[k])
  {
    hide SysInv, SysNext;
    if k == 0 {
      InitHolds(cfg, faulty, run[0]);
    } else {
      RunKeepsInv(cfg, faulty, run, k - 1);
      StepHolds(cfg, faulty, run[k - 1], run[k]);
    }
  }

  lemma InitHolds(cfg: Config, faulty: set<nat>, sys: System)
    requires FaultBound(cfg, faulty) && Init(cfg, faulty, sys)
    ensures SysInv(cfg, faulty, sys)
  {
    hide Inv;
    forall i | i in sys.states ensures ReplicaOk(cfg, sys, i) {
      InitialInv(cfg, i);
    }
  }

  lemma StepHolds(cfg: Config, faulty: set<nat>, sys: System, sys': System)
    requires FaultBound(cfg, faulty) && SysInv(cfg, faulty, sys)
    requires SysNext(cfg, faulty, sys, sys')
    ensures SysInv(cfg, faulty, sys')
  {
    hide SysInv, ReplicaStep, EnvironmentStep;
    if i, step :| ReplicaStep(cfg, sys, sys', i, step) {
      ReplicaStepKeeps(cfg, faulty, sys, sys', i, step);
    } else {
      var m :| EnvironmentStep(cfg, faulty, sys, sys', m);
      EnvironmentStepKeeps(cfg, faulty, sys, sys', m);
    }
  }

  /** Every reachable system state satisfies the invariant, and with it each correct replica's. */
  lemma ReachableInv(cfg: Config, faulty: set<nat>, sys: System)
    requires FaultBound(cfg, faulty) && Reachable(cfg, faulty, sys)
    ensures SysInv(cfg, faulty, sys)
  {
    hide SysInv, SysNext;
    var run :| IsRun(cfg, faulty, run) && run[|run| - 1] == sys;
    RunKeepsInv(cfg, faulty, run, |run| - 1);
  }
}
