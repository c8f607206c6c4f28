/** Replica objects as members of the system: what their handlers do is a run of the system, so what
    holds of its reachable states holds of them. */
module Deployment {
  import opened PbftTypes
  import opened NewViewRule
  import opened ReplicaSteps
  import opened ReplicaInvariant
  import opened ViewChangeCauses
  import opened ReplicaLog
  import opened ReplicaLoops
  import opened PbftReplica
  import opened PbftSystem
  import opened Agreement
  import opened PromptRuns

  /** A recorded step of a correct replica is a step of the system, if what it hears was sent. */
  lemma RecordedStepIsSystemStep(cfg: Config, faulty: set<nat>, sys: System, i: nat, s: State) returns (sys': System)
    requires FaultBound(cfg, faulty) && i in sys.states
    requires Next(cfg, sys.states[i], s) && s.got <= sys.net
    ensures SysNext(cfg, faulty, sys, sys')
    ensures sys'.states == sys.states[i := s] && sys'.net == sys.net + s.made
  {
    hide Enabled, Apply;
    var step :| Enabled(cfg, sys.states[i], step) && s == Apply(cfg, sys.states[i], step);
    sys' := System(sys.states[i := s], sys.net + s.made);
    HeardIsSent(cfg, sys.states[i], step);
    assert ReplicaStep(cfg, sys, sys', i, step);
  }

  lemma HeardIsSent(cfg: Config, s: State, step: Step)
    requires cfg.Valid() && Enabled(cfg, s, step)
    ensures step.Hear? ==> step.m in Apply(cfg, s, step).got && Apply(cfg, s, step) == s.(got := s.got + {step.m})
  {
  }

  lemma ReachableGoesOn(cfg: Config, faulty: set<nat>, sys: System, sys': System)
    requires FaultBound(cfg, faulty) && Reachable(cfg, faulty, sys) && SysNext(cfg, faulty, sys, sys')
    ensures Reachable(cfg, faulty, sys')
  {
    hide SysNext, Init;
    var run :| IsRun(cfg, faulty, run) && run[|run| - 1] == sys;
    var run' := run + [sys'];
    forall k | 0 < k < |run'| ensures SysNext(cfg, faulty, run'[k - 1], run'[k]) {
      if k < |run| {
        assert SysNext(cfg, faulty, run[k - 1], run[k]);
      }
    }
    assert IsRun(cfg, faulty, run') && run'[|run'| - 1] == sys';
  }

  lemma MadeIsSent(cfg: Config, faulty: set<nat>, sys: System, i: nat)
    requires FaultBound(cfg, faulty) && Reachable(cfg, faulty, sys) && i in sys.states
    ensures sys.states[i].made <= sys.net
  {
    hide Reachable, Inv;
    ReachableInv(cfg, faulty, sys);
    assert ReplicaOk(cfg, sys, i);
  }

  /** What the handlers of a correct replica record is a run of the system: from any reachable state
      in which the replica is at some point of its log, a state is reachable in which it is at the end
      of it, the others are where they were, and what it made meanwhile is sent. */
  lemma {:induction false} HandlersRunInSystem(cfg: Config, faulty: set<nat>, sys: System, i: nat, log: seq<State>,
      from: nat)
    returns (sys': System)
    requires FaultBound(cfg, faulty) && Reachable(cfg, faulty, sys) && i in sys.states
    requires Legal(cfg, i, log) && from < |log| && log[from] == sys.states[i]
    requires log[|log| - 1].got <= sys.net
    ensures Reachable(cfg, faulty, sys') && sys'.states == sys.states[i := log[|log| - 1]]
    ensures sys'.net == sys.net + log[|log| - 1].made
    decreases |log| - from
  {
    hide Reachable, Next, SysNext, Inv;
    if from == |log| - 1 {
      sys' := sys;
      MadeIsSent(cfg, faulty, sys, i);
    } else {
      assert Linked(cfg, log, from);
      RunGoesOn(cfg, i, log, from + 1, |log| - 1);
      var mid := RecordedStepIsSystemStep(cfg, faulty, sys, i, log[from + 1]);
      ReachableGoesOn(cfg, faulty, sys, mid);
      sys' := HandlersRunInSystem(cfg, faulty, mid, i, log, from + 1);
      assert sys.states[i := log[from + 1]][i := log[|log| - 1]] == sys.states[i := log[|log| - 1]];
    }
  }

  lemma OnlyOneMoves(cfg: Config, sys: System, sys': System, i: nat, s: State)
    requires cfg.Valid() && i in sys.states && sys'.states == sys.states[i := s]
    requires Prompt(cfg, sys.states[i], s)
    ensures PromptStep(cfg, sys, sys')
  {
    hide Due;
  }

  lemma {:induction false} StepsRunPromptly(cfg: Config, faulty: set<nat>, sys: System, i: nat, log: seq<State>,
      from: nat)
    returns (sys': System)
    requires FaultBound(cfg, faulty) && PromptlyReachable(cfg, faulty, sys) && i in sys.states && 1 < cfg.N
    requires Legal(cfg, i, log) && from < |log| && log[from] == sys.states[i]
    requires forall k :: from <= k < |log| - 1 ==> PromptLink(cfg, log, k) || ForesawIn(cfg, log, from, k + 1)
    requires log[|log| - 1].got <= sys.net
    ensures PromptlyReachable(cfg, faulty, sys') && sys'.states == sys.states[i := log[|log| - 1]]
    ensures sys'.net == sys.net + log[|log| - 1].made
    ensures !ForesawIn(cfg, log, from, |log|)
    decreases |log| - from
  {
    hide PromptlyReachable, Reachable, Next, SysNext, SysInv, Prompt, Foresaw;
    PromptIsReachable(cfg, faulty, sys);
    ReachableInv(cfg, faulty, sys);
    NothingIsForeseen(cfg, faulty, sys, i);
    if from == |log| - 1 {
      sys' := sys;
      MadeIsSent(cfg, faulty, sys, i);
    } else {
      assert Linked(cfg, log, from) && PromptLink(cfg, log, from);
      RunGoesOn(cfg, i, log, from + 1, |log| - 1);
      var mid := RecordedStepIsSystemStep(cfg, faulty, sys, i, log[from + 1]);
      OnlyOneMoves(cfg, sys, mid, i, log[from + 1]);
      PromptGoesOn(cfg, faulty, sys, mid);
      ForesawLater(cfg, log, from);
      sys' := StepsRunPromptly(cfg, faulty, mid, i, log, from + 1);
      assert sys.states[i := log[from + 1]][i := log[|log| - 1]] == sys.states[i := log[|log| - 1]];
    }
  }

  lemma ForesawLater(cfg: Config, log: seq<State>, from: nat)
    requires cfg.Valid() && from < |log| && !Foresaw(cfg, log[from])
    ensures forall end :: from <= end <= |log| ==>
              (ForesawIn(cfg, log, from, end) <==> ForesawIn(cfg, log, from + 1, end))
  {
    hide Foresaw;
  }

  /** With more than one replica it is a run in which every view change has a reason, and goes on to be
      one: nothing was foreseen at the start of the log, and nothing is by its end. */
  lemma HandlersRunPromptly(cfg: Config, faulty: set<nat>, sys: System, a: Replica, from: nat) returns (sys': System)
    requires FaultBound(cfg, faulty) && PromptlyReachable(cfg, faulty, sys) && 1 < cfg.N
    requires a.cfg == cfg && a.Valid() && a.id in sys.states && a.now.got <= sys.net
    requires from < |a.log| && a.log[from] == sys.states[a.id] && !ForesawIn(cfg, a.log, 0, from)
    ensures PromptlyReachable(cfg, faulty, sys') && sys'.states == sys.states[a.id := a.now]
    ensures sys'.net == sys.net + a.now.made
    ensures !ForesawIn(cfg, a.log, 0, |a.log|)
  {
    hide PromptlyReachable, Foresaw, Next, PromptLink;
    var log := a.log;
    assert Reasoned(cfg, log) && Legal(cfg, a.id, log);
    forall k | from <= k < |log| - 1 ensures PromptLink(cfg, log, k) || ForesawIn(cfg, log, from, k + 1) {
      assert PromptLink(cfg, log, k) || ForesawIn(cfg, log, 0, k + 1);
    }
    sys' := StepsRunPromptly(cfg, faulty, sys, a.id, log, from);
  }

  // ----- What the consumers see -----

  lemma {:induction false} CallIsExecution(execs: seq<Exec>, x: ExecCall) returns (e: Exec)
    requires x in Calls(execs)
    ensures e in execs && e.n == x.n && e.d != Null && x.batch == BatchOf(e.d)
  {
    var last := execs[|execs| - 1];
    if last.d != Null && x == ExecCall(last.n, BatchOf(last.d)) {
      e := last;
    } else {
      e := CallIsExecution(execs[..|execs| - 1], x);
    }
  }

  /** The consumers of correct replicas are given the same batch at each sequence number, if the guard
      holds for what they executed there. */
  lemma ConsumersAgree(cfg: Config, faulty: set<nat>, sys: System, a: Replica, b: Replica, x: ExecCall, y: ExecCall)
    requires FaultBound(cfg, faulty) && Reachable(cfg, faulty, sys)
    requires NoBatchLost(sys)
    requires forall e :: e in a.now.execs + b.now.execs && e.n == x.n && e.d != Null ==>
              NullsGuarded(cfg, sys, e.v, e.n, e.d)
    requires a.Valid() && a.id in sys.states && sys.states[a.id] == a.now
    requires b.Valid() && b.id in sys.states && sys.states[b.id] == b.now
    requires x in a.executed && y in b.executed && x.n == y.n
    ensures x.batch == y.batch
  {
    hide Reachable, NoBatchLost, NullsGuarded, Legal;
    var e := CallIsExecution(a.now.execs, x);
    var e' := CallIsExecution(b.now.execs, y);
    if e.v <= e'.v {
      ExecutionAgreement(cfg, faulty, sys, a.id, b.id, e, e');
    } else {
      ExecutionAgreement(cfg, faulty, sys, b.id, a.id, e', e);
    }
  }

  lemma {:induction false} CallsAscend(execs: seq<Exec>, i: nat, j: nat)
    requires forall k :: 0 <= k < |execs| ==> execs[k].n == k + 1
    requires i < j < |Calls(execs)|
    ensures Calls(execs)[i].n < Calls(execs)[j].n
  {
    var init := execs[..|execs| - 1];
    if j < |Calls(init)| {
      CallsAscend(init, i, j);
    } else {
      assert Calls(execs)[i] == Calls(init)[i];
      var e := CallIsExecution(init, Calls(init)[i]);
    }
  }

  /** A consumer is given batches in ascending order of sequence number, each number once. */
  lemma ConsumerSeesOrder(a: Replica, i: nat, j: nat)
    requires a.Valid() && i < j < |a.executed|
    ensures a.executed[i].n < a.executed[j].n
  {
    a.NowInv();
    ExecutionNumbers(a.cfg, a.now);
    CallsAscend(a.now.execs, i, j);
  }

  lemma ExecutionNumbers(cfg: Config, s: State)
    requires cfg.Valid() && Inv(cfg, s)
    ensures forall k :: 0 <= k < |s.execs| ==> s.execs[k].n == k + 1
  {
    hide Window, Certificates, PrepareVotes, CommitVotes, PrePrepareVotes, PrimarySlots, Views, Accepted, Watermark,
         CheckpointsTrue, PQTrue, OwnViewChanges, CommitsReported;
  }

  /** Between events, every view-change that a replica ever sent passes the tests of its receivers,
      unless it is catching up. */
  lemma OwnViewChangesPass(a: Replica, vc: ViewChange)
    requires a.Ready() && !a.skipInProgress && ViewChangeMsg(vc) in a.now.made
    ensures CorrectViewChange(a.cfg, vc) && vc.sender == a.id
  {
    a.NowInv();
    OwnViewChangeFacts(a.cfg, a.now, vc);
  }

  lemma OwnViewChangeFacts(cfg: Config, s: State, vc: ViewChange)
    requires cfg.Valid() && Inv(cfg, s) && ViewChangeMsg(vc) in s.made && !s.lagging
    ensures CorrectViewChange(cfg, vc) && vc.sender == s.id
  {
    hide Window, Certificates, PrepareVotes, CommitVotes, PrePrepareVotes, PrimarySlots, Views, Accepted, Watermark,
         CheckpointsTrue, Executions, PQTrue, CommitsReported;
  }
}
