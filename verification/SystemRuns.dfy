/** Building runs of the system from steps of its replicas. */
module SystemRuns {
  import opened PbftTypes
  import opened Quorums
  import opened ReplicaSteps
  import opened ViewChangeCauses
  import opened ReplicaLog
  import opened PbftSystem
  import opened PromptRuns
  import opened ViewChangeProgress
  import opened Deployment

  ghost predicate Path(cfg: Config, log: seq<State>)
    requires cfg.Valid()
  {
    log != [] && forall i :: 0 <= i < |log| - 1 ==> Linked(cfg, log, i)
  }

  ghost predicate PromptPath(cfg: Config, log: seq<State>)
    requires cfg.Valid()
  {
    Path(cfg, log) && forall i :: 0 <= i < |log| - 1 ==> PromptLink(cfg, log, i)
  }

  /** A replica can get from s to s' by steps of its own, with a reason to leave each view that it leaves. */
  ghost predicate Leads(cfg: Config, s: State, s': State)
    requires cfg.Valid()
  {
    exists log :: PromptPath(cfg, log) && log[0] == s && log[|log| - 1] == s'
  }

  lemma Start(cfg: Config, s: State)
    requires cfg.Valid()
    ensures Leads(cfg, s, s)
  {
    assert PromptPath(cfg, [s]);
  }

  lemma TakeStep(cfg: Config, s: State, s': State, step: Step)
    requires cfg.Valid() && Leads(cfg, s, s') && Enabled(cfg, s', step)
    requires step.ChangeView? ==> Due(cfg, s', step.vc.v)
    ensures Leads(cfg, s, Apply(cfg, s', step))
  {
    hide Enabled, Apply, Due, Prompt;
    var log :| PromptPath(cfg, log) && log[0] == s && log[|log| - 1] == s';
    var log' := log + [Apply(cfg, s', step)];
    StepIsPrompt(cfg, s', step);
    forall i | 0 <= i < |log'| - 1 ensures Linked(cfg, log', i) && PromptLink(cfg, log', i) {
      if i < |log| - 1 {
        assert Linked(cfg, log, i) && PromptLink(cfg, log, i);
      }
    }
    assert PromptPath(cfg, log') && log'[0] == s && log'[|log'| - 1] == Apply(cfg, s', step);
  }

  lemma StepIsPrompt(cfg: Config, s: State, step: Step)
    requires cfg.Valid() && Enabled(cfg, s, step) && (step.ChangeView? ==> Due(cfg, s, step.vc.v))
    ensures Prompt(cfg, s, Apply(cfg, s, step))
  {
    hide Due, Enabled;
    StepSetsView(cfg, s, step);
  }

  lemma LeadsOn(cfg: Config, s: State, mid: State, s': State)
    requires cfg.Valid() && Leads(cfg, s, mid) && Leads(cfg, mid, s')
    ensures Leads(cfg, s, s')
  {
    hide Next, Prompt;
    var p :| PromptPath(cfg, p) && p[0] == s && p[|p| - 1] == mid;
    var q :| PromptPath(cfg, q) && q[0] == mid && q[|q| - 1] == s';
    var log := p + q[1..];
    forall i | 0 <= i < |log| - 1 ensures Linked(cfg, log, i) && PromptLink(cfg, log, i) {
      if i < |p| - 1 {
        assert Linked(cfg, p, i) && PromptLink(cfg, p, i);
      } else {
        assert Linked(cfg, q, i - (|p| - 1)) && PromptLink(cfg, q, i - (|p| - 1));
      }
    }
    assert PromptPath(cfg, log) && log[0] == s && log[|log| - 1] == s';
  }

  lemma Hears(cfg: Config, s: State, s': State, m: Msg)
    requires cfg.Valid() && Leads(cfg, s, s') && CanHear(cfg, s', m)
    ensures Leads(cfg, s, s'.(got := s'.got + {m}))
  {
    hide Leads, CanHear;
    TakeStep(cfg, s, s', Hear(m));
  }

  lemma EndOfRun(cfg: Config, id: nat, s: State)
    requires cfg.Valid() && Leads(cfg, Initial(id), s)
    ensures EndsARun(cfg, id, s)
  {
    hide Next, Initial, PromptLink;
    var log :| PromptPath(cfg, log) && log[0] == Initial(id) && log[|log| - 1] == s;
    assert Legal(cfg, id, log);
  }

  lemma ReplicaEndsARun(cfg: Config, faulty: set<nat>, sys: System, i: nat)
    requires FaultBound(cfg, faulty) && Reachable(cfg, faulty, sys) && i in sys.states
    ensures EndsARun(cfg, i, sys.states[i])
  {
    hide SysNext, Init, EndsARun;
    var run :| IsRun(cfg, faulty, run) && run[|run| - 1] == sys;
    ReplicasRun(cfg, faulty, run, |run| - 1, i);
  }

  /** A run of the replica up to s goes on to s'. */
  lemma Joined(cfg: Config, id: nat, s: State, s': State) returns (log: seq<State>, from: nat)
    requires cfg.Valid() && EndsARun(cfg, id, s) && Leads(cfg, s, s')
    ensures Legal(cfg, id, log) && from < |log| && log[from] == s && log[|log| - 1] == s'
    ensures forall k :: from <= k < |log| - 1 ==> PromptLink(cfg, log, k)
  {
    hide Next, Prompt;
    var run :| Legal(cfg, id, run) && run[|run| - 1] == s;
    var path :| PromptPath(cfg, path) && path[0] == s && path[|path| - 1] == s';
    log, from := run + path[1..], |run| - 1;
    forall i | 0 <= i < |log| - 1 ensures Linked(cfg, log, i) && (from <= i ==> PromptLink(cfg, log, i)) {
      if i < from {
        assert Linked(cfg, run, i);
      } else {
        assert Linked(cfg, path, i - from) && PromptLink(cfg, path, i - from);
      }
    }
  }

  /** A correct replica takes the steps that lead to s', having heard only what was sent. */
  lemma Advance(cfg: Config, faulty: set<nat>, sys: System, i: nat, s': State) returns (sys': System)
    requires FaultBound(cfg, faulty) && PromptlyReachable(cfg, faulty, sys) && i in sys.states && 1 < cfg.N
    requires Leads(cfg, sys.states[i], s') && s'.got <= sys.net
    ensures PromptlyReachable(cfg, faulty, sys')
    ensures sys' == System(sys.states[i := s'], sys.net + s'.made)
  {
    hide PromptlyReachable, Reachable, Leads, EndsARun, Legal, PromptLink, ForesawIn;
    PromptIsReachable(cfg, faulty, sys);
    ReplicaEndsARun(cfg, faulty, sys, i);
    var log, from := Joined(cfg, i, sys.states[i], s');
    sys' := StepsRunPromptly(cfg, faulty, sys, i, log, from);
  }

  /** A message is sent from outside. */
  lemma Send(cfg: Config, faulty: set<nat>, sys: System, m: Msg) returns (sys': System)
    requires FaultBound(cfg, faulty) && PromptlyReachable(cfg, faulty, sys)
    requires EnvironmentStep(cfg, faulty, sys, System(sys.states, sys.net + {m}), m)
    ensures PromptlyReachable(cfg, faulty, sys') && sys' == System(sys.states, sys.net + {m})
  {
    hide PromptlyReachable, EnvironmentStep, Due;
    sys' := System(sys.states, sys.net + {m});
    assert SysNext(cfg, faulty, sys, sys');
    PromptGoesOn(cfg, faulty, sys, sys');
  }

  /** The system as it starts. */
  ghost function Fresh(cfg: Config, faulty: set<nat>): System
    requires FaultBound(cfg, faulty)
  {
    System(map i | i in Ids(cfg.N) - faulty :: Initial(i), {})
  }

  lemma FreshIsReachable(cfg: Config, faulty: set<nat>)
    requires FaultBound(cfg, faulty)
    ensures PromptlyReachable(cfg, faulty, Fresh(cfg, faulty))
  {
    assert IsPromptRun(cfg, faulty, [Fresh(cfg, faulty)]);
  }

  // ----- What a replica reports when it leaves -----

  lemma NothingToReport(cfg: Config, s: State)
    requires s.certs == map[]
    ensures CalcP(cfg, s) == s.pset && CalcQ(s) == s.qset
  {
  }

  /** With a single certificate, the P and Q sets hold its digest, if it is prepared and pre-prepared. */
  lemma OneToReport(cfg: Config, s: State, n: nat, cert: Cert)
    requires s.certs == map[Slot(s.view, n) := cert] && cert.prePrepare.Some?
    requires s.pset == map[] && s.qset.Keys <= {QKey(cert.digest, n)} && PrePrepared(s, cert.digest, s.view, n)
    ensures CalcP(cfg, s) ==
            if Prepared(cfg, s, cert.digest, s.view, n) then map[n := PQ(n, cert.digest, s.view)] else map[]
    ensures CalcQ(s) == map[QKey(cert.digest, n) := PQ(n, cert.digest, s.view)]
  {
    hide Prepared, PrePrepared;
    assert Slot(s.view, n) in s.certs;
    assert CertNumbers(s) == {n} && CertKeys(s) == {QKey(cert.digest, n)};
  }

  /** The replica leaves its view with view-change vc. */
  lemma Leaves(cfg: Config, from: State, s: State, vc: ViewChange, pset: map<nat, PQ>, qset: map<QKey, PQ>)
    requires cfg.Valid() && Leads(cfg, from, s)
    requires s.view < vc.v && vc.h == s.h && vc.sender == s.id && (forall slot :: slot in s.certs ==> slot.v == s.view)
    requires pset == CalcP(cfg, s) && qset == CalcQ(s)
    requires ListsCheckpoints(vc.cset, s.chkpts) && ListsP(vc.pset, pset) && ListsQ(vc.qset, qset)
    requires Due(cfg, s, vc.v)
    ensures Leads(cfg, from, s.(view := vc.v, active := false, certs := map[], pset := pset, qset := qset,
                                made := s.made + {ViewChangeMsg(vc)}))
  {
    hide Leads, CalcP, CalcQ, ListsCheckpoints, ListsP, ListsQ, Due;
    TakeStep(cfg, from, s, ChangeView(vc));
    assert DoChangeView(cfg, s, vc).certs == map[];
  }
}
