/** The safety theorems: what correct replicas prepare, commit and execute in every reachable state
    of the system. */
module Agreement {
  import opened PbftTypes
  import opened Quorums
  import opened NewViewRule
  import opened NewViewSafety
  import opened ReplicaSteps
  import opened ReplicaInvariant
  import opened InvariantSteps
  import opened ReplicaFacts
  import opened PbftSystem

  /** Correct replica i accepted d at (v, n) and received prepares for it from a quorum. */
  ghost predicate PreparedAt(cfg: Config, sys: System, i: nat, v: nat, n: nat, d: Digest)
    requires cfg.Valid()
  {
    && i in sys.states
    && PQ(n, d, v) in sys.states[i].accepted
    && PreparedEvidence(cfg, sys.states[i].Msgs(), v, n, d)
  }

  /** ... and commits, whatever their digest, from a quorum. */
  ghost predicate CommittedAt(cfg: Config, sys: System, i: nat, v: nat, n: nat, d: Digest)
    requires cfg.Valid()
  {
    && PreparedAt(cfg, sys, i, v, n, d)
    && |Committers(sys.states[i].Msgs(), v, n)| >= cfg.IntersectionQuorum()
  }

  /** The `prepared` predicate of the code gives this evidence, whether it finds the digest in its log
      or in the P and Q sets of earlier views. */
  lemma PreparedGivesEvidence(cfg: Config, faulty: set<nat>, sys: System, i: nat, d: Digest, v: nat, n: nat)
    requires FaultBound(cfg, faulty) && SysInv(cfg, faulty, sys)
    requires i in sys.states && Prepared(cfg, sys.states[i], d, v, n)
    ensures PreparedAt(cfg, sys, i, v, n, d)
  {
    assert ReplicaOk(cfg, sys, i);
    PreparedInState(cfg, sys.states[i], d, v, n);
  }

  lemma PreparedInState(cfg: Config, s: State, d: Digest, v: nat, n: nat)
    requires cfg.Valid() && Inv(cfg, s) && Prepared(cfg, s, d, v, n)
    ensures PQ(n, d, v) in s.accepted && PreparedEvidence(cfg, s.Msgs(), v, n, d)
  {
    hide PrepareVotes, CommitVotes, PrePrepareVotes, PrimarySlots, Views, Accepted, Watermark, CheckpointsTrue,
         Executions, OwnViewChanges, CommitsReported;
    if n in s.pset && s.pset[n].v == v && s.pset[n].d == d {
      assert PEntryOk(cfg, s, s.pset[n]);
    } else {
      assert Slot(v, n) in s.certs && v == s.view;
      PreparedFacts(cfg, s, d, n);
      PreparedIsEvidence(cfg, s, Slot(v, n));
    }
  }

  lemma CommittedGivesEvidence(cfg: Config, faulty: set<nat>, sys: System, i: nat, d: Digest, v: nat, n: nat)
    requires FaultBound(cfg, faulty) && SysInv(cfg, faulty, sys)
    requires i in sys.states && Committed(cfg, sys.states[i], d, v, n)
    ensures CommittedAt(cfg, sys, i, v, n, d)
  {
    PreparedGivesEvidence(cfg, faulty, sys, i, d, v, n);
    assert ReplicaOk(cfg, sys, i);
    CommittedIsEvidence(cfg, sys.states[i], Slot(v, n));
  }

  // ----- Agreement inside a view -----

  lemma AcceptedIsOk(cfg: Config, faulty: set<nat>, sys: System, i: nat, e: PQ)
    requires FaultBound(cfg, faulty) && SysInv(cfg, faulty, sys)
    requires i in sys.states && e in sys.states[i].accepted
    ensures AcceptedOk(cfg, sys.states[i], e)
    ensures sys.states[i].got <= sys.net && sys.states[i].made <= sys.net
    ensures 0 < e.v ==> ActOk(cfg, sys.states[i], e.v, sys.states[i].acts[e.v])
  {
    hide Window, Certificates, PrepareVotes, CommitVotes, PrePrepareVotes, PrimarySlots, Watermark,
         CheckpointsTrue, Executions, PQTrue, OwnViewChanges, CommitsReported;
    assert ReplicaOk(cfg, sys, i);
  }

  lemma OwnPrePrepares(cfg: Config, faulty: set<nat>, sys: System, p: nat)
    requires FaultBound(cfg, faulty) && SysInv(cfg, faulty, sys) && p in sys.states
    ensures PrePrepareVotes(cfg, sys.states[p])
    ensures forall v :: v in sys.states[p].acts ==> ActOk(cfg, sys.states[p], v, sys.states[p].acts[v])
    ensures sys.states[p].got <= sys.net
  {
    hide Window, Certificates, PrepareVotes, CommitVotes, PrimarySlots, Watermark, Accepted, PrePrepareVotes,
         CheckpointsTrue, Executions, PQTrue, OwnViewChanges, CommitsReported, ActOk;
    assert ReplicaOk(cfg, sys, p);
  }

  lemma EnteredNewView(cfg: Config, faulty: set<nat>, sys: System, i: nat, w: nat)
    requires FaultBound(cfg, faulty) && SysInv(cfg, faulty, sys)
    requires i in sys.states && w in sys.states[i].acts
    ensures ActOk(cfg, sys.states[i], w, sys.states[i].acts[w])
    ensures NewViewMsg(sys.states[i].acts[w].nv) in sys.net
  {
    hide Inv, SoundNewView;
    OwnPrePrepares(cfg, faulty, sys, i);
  }

  /** Replicas that entered a view of a correct primary entered it through the same new-view. */
  lemma SameNewView(cfg: Config, faulty: set<nat>, sys: System, i: nat, j: nat, w: nat)
    requires FaultBound(cfg, faulty) && SysInv(cfg, faulty, sys)
    requires i in sys.states && w in sys.states[i].acts
    requires j in sys.states && w in sys.states[j].acts
    requires cfg.Primary(w) !in faulty
    ensures sys.states[i].acts[w].nv == sys.states[j].acts[w].nv
  {
    hide Inv, SoundNewView, Selected, Assign;
    EnteredNewView(cfg, faulty, sys, i, w);
    EnteredNewView(cfg, faulty, sys, j, w);
  }

  /** A correct primary binds one digest to each of its sequence numbers: through its new-view, or
      through its own pre-prepare above every number the new-view assigned. */
  lemma CorrectPrimaryBinds(cfg: Config, faulty: set<nat>, sys: System, i: nat, j: nat, e: PQ, e': PQ)
    requires FaultBound(cfg, faulty) && SysInv(cfg, faulty, sys)
    requires i in sys.states && j in sys.states
    requires e in sys.states[i].accepted && e' in sys.states[j].accepted
    requires e.v == e'.v && e.n == e'.n
    requires cfg.Primary(e.v) !in faulty
    ensures e.d == e'.d
  {
    hide Inv, SoundNewView, Selected, Assign;
    var p := cfg.Primary(e.v);
    AcceptedIsOk(cfg, faulty, sys, i, e);
    AcceptedIsOk(cfg, faulty, sys, j, e');
    assert p in sys.states;
    OwnPrePrepares(cfg, faulty, sys, p);
    if FromNewView(sys.states[i], e) {
      NewViewBindsFirst(cfg, faulty, sys, i, e, j, e');
      SameNewView(cfg, faulty, sys, i, j, e.v);
    } else if FromNewView(sys.states[j], e') {
      NewViewBindsFirst(cfg, faulty, sys, j, e', i, e);
    } else {
      var q :| PrePrepareMsg(q) in sys.states[i].Msgs() && q.v == e.v && q.n == e.n && q.d == e.d && q.sender == p;
      var q' :| PrePrepareMsg(q') in sys.states[j].Msgs() && q'.v == e.v && q'.n == e.n && q'.d == e'.d
                && q'.sender == p;
      assert PrePrepareMsg(q) in sys.states[p].made && PrePrepareMsg(q') in sys.states[p].made;
    }
  }

  /** Nothing that a correct primary's new-view assigned comes again in one of its pre-prepares. */
  lemma NewViewBindsFirst(cfg: Config, faulty: set<nat>, sys: System, i: nat, e: PQ, j: nat, e': PQ)
    requires FaultBound(cfg, faulty) && SysInv(cfg, faulty, sys)
    requires i in sys.states && j in sys.states
    requires e in sys.states[i].accepted && e' in sys.states[j].accepted
    requires e.v == e'.v && e.n == e'.n
    requires cfg.Primary(e.v) !in faulty
    requires FromNewView(sys.states[i], e)
    ensures FromNewView(sys.states[j], e')
  {
    hide Inv, SoundNewView, ActOk;
    var p := cfg.Primary(e.v);
    AcceptedIsOk(cfg, faulty, sys, j, e');
    PositiveView(cfg, faulty, sys, i, e.v);
    if !FromNewView(sys.states[j], e') {
      var q :| PrePrepareMsg(q) in sys.states[j].Msgs() && q.v == e.v && q.n == e.n && q.d == e'.d && q.sender == p;
      PrePrepareAboveNewView(cfg, faulty, sys, q);
      SameNewView(cfg, faulty, sys, i, p, e.v);
    }
  }

  lemma PositiveView(cfg: Config, faulty: set<nat>, sys: System, i: nat, w: nat)
    requires FaultBound(cfg, faulty) && SysInv(cfg, faulty, sys)
    requires i in sys.states && w in sys.states[i].acts
    ensures 0 < w
  {
    hide SysInv;
    EnteredNewView(cfg, faulty, sys, i, w);
  }

  lemma PrePrepareAboveNewView(cfg: Config, faulty: set<nat>, sys: System, q: PrePrepare)
    requires FaultBound(cfg, faulty) && SysInv(cfg, faulty, sys)
    requires PrePrepareMsg(q) in sys.net && q.sender !in faulty
    ensures q.sender in sys.states && PrePrepareMsg(q) in sys.states[q.sender].made
    ensures 0 < q.v ==> q.v in sys.states[q.sender].acts && q.n !in sys.states[q.sender].acts[q.v].nv.xset
  {
    hide Inv, SoundNewView, ActOk;
    assert q.sender in sys.states;
    OwnPrePrepares(cfg, faulty, sys, q.sender);
  }

  /** Two quorums of prepares under a faulty primary share a correct backup. */
  lemma SharedPreparer(cfg: Config, faulty: set<nat>, sys: System, i: nat, j: nat, v: nat, n: nat, d: Digest,
      d': Digest)
    returns (x: nat)
    requires FaultBound(cfg, faulty) && SysInv(cfg, faulty, sys)
    requires PreparedAt(cfg, sys, i, v, n, d) && PreparedAt(cfg, sys, j, v, n, d')
    requires cfg.Primary(v) in faulty
    ensures x in sys.states
    ensures PrepareMsg(Prepare(v, n, d, x)) in sys.states[x].made
    ensures PrepareMsg(Prepare(v, n, d', x)) in sys.states[x].made
  {
    hide Inv, SoundNewView;
    QuorumFacts(cfg);
    assert ReplicaOk(cfg, sys, i) && ReplicaOk(cfg, sys, j);
    var p := cfg.Primary(v);
    var a, b := Preparers(cfg, sys.states[i].Msgs(), v, n, d), Preparers(cfg, sys.states[j].Msgs(), v, n, d');
    PreparersAreIds(cfg, faulty, sys, i, v, n, d);
    PreparersAreIds(cfg, faulty, sys, j, v, n, d');
    assert |a + {p}| == |a| + 1 && |b + {p}| == |b| + 1;
    IntersectionCard(cfg.N, a + {p}, b + {p});
    assert (a + {p}) * (b + {p}) == a * b + {p};
    assert |a * b + {p}| == |a * b| + 1;
    assert |faulty - {p}| == |faulty| - 1;
    x := CorrectMember(a * b, faulty - {p});
    assert x !in faulty;
    PreparerMade(cfg, faulty, sys, i, v, n, d, x);
    PreparerMade(cfg, faulty, sys, j, v, n, d', x);
  }

  lemma PreparersAreIds(cfg: Config, faulty: set<nat>, sys: System, i: nat, v: nat, n: nat, d: Digest)
    requires FaultBound(cfg, faulty) && SysInv(cfg, faulty, sys) && i in sys.states
    ensures Preparers(cfg, sys.states[i].Msgs(), v, n, d) <= Ids(cfg.N) - {cfg.Primary(v)}
  {
    hide Inv, SoundNewView;
    assert ReplicaOk(cfg, sys, i);
    forall x | x in Preparers(cfg, sys.states[i].Msgs(), v, n, d) ensures x < cfg.N {
      var m :| m in sys.states[i].Msgs() && m.PrepareMsg? && m.prepare == Prepare(v, n, d, x);
      assert m in sys.net;
    }
  }

  lemma PreparerMade(cfg: Config, faulty: set<nat>, sys: System, i: nat, v: nat, n: nat, d: Digest, x: nat)
    requires FaultBound(cfg, faulty) && SysInv(cfg, faulty, sys) && i in sys.states
    requires x in Preparers(cfg, sys.states[i].Msgs(), v, n, d) && x !in faulty
    ensures x in sys.states && PrepareMsg(Prepare(v, n, d, x)) in sys.states[x].made
  {
    hide Inv, SoundNewView;
    assert ReplicaOk(cfg, sys, i);
    var m :| m in sys.states[i].Msgs() && m.PrepareMsg? && m.prepare == Prepare(v, n, d, x);
    assert m == PrepareMsg(Prepare(v, n, d, x));
    assert m in sys.net;
  }

  lemma PreparedAgree(cfg: Config, faulty: set<nat>, sys: System, i: nat, j: nat, v: nat, n: nat, d: Digest, d': Digest)
    requires FaultBound(cfg, faulty) && SysInv(cfg, faulty, sys)
    requires PreparedAt(cfg, sys, i, v, n, d) && PreparedAt(cfg, sys, j, v, n, d')
    ensures d == d'
  {
    hide SoundNewView;
    if cfg.Primary(v) in faulty {
      var x := SharedPreparer(cfg, faulty, sys, i, j, v, n, d, d');
      OnePreparePerSlot(cfg, faulty, sys, x, v, n, d, d');
    } else {
      CorrectPrimaryBinds(cfg, faulty, sys, i, j, PQ(n, d, v), PQ(n, d', v));
    }
  }

  lemma OnePreparePerSlot(cfg: Config, faulty: set<nat>, sys: System, x: nat, v: nat, n: nat, d: Digest, d': Digest)
    requires FaultBound(cfg, faulty) && SysInv(cfg, faulty, sys) && x in sys.states
    requires PrepareMsg(Prepare(v, n, d, x)) in sys.states[x].made
    requires PrepareMsg(Prepare(v, n, d', x)) in sys.states[x].made
    ensures d == d'
  {
    hide Window, Certificates, CommitVotes, PrePrepareVotes, PrimarySlots, Views, Accepted, Watermark,
         CheckpointsTrue, Executions, PQTrue, OwnViewChanges, CommitsReported, SoundNewView;
    assert ReplicaOk(cfg, sys, x);
  }

  /** Same-view agreement: correct replicas for which the code finds a batch prepared at (v, n) agree
      on its digest, though a faulty primary may have overwritten a null pre-prepare at some of them. */
  lemma SameViewAgreement(cfg: Config, faulty: set<nat>, sys: System, i: nat, j: nat, v: nat, n: nat, d: Digest,
      d': Digest)
    requires FaultBound(cfg, faulty) && Reachable(cfg, faulty, sys)
    requires i in sys.states && j in sys.states
    requires Prepared(cfg, sys.states[i], d, v, n) && Prepared(cfg, sys.states[j], d', v, n)
    ensures d == d'
  {
    hide Reachable, SysInv, Prepared;
    ReachableInv(cfg, faulty, sys);
    PreparedGivesEvidence(cfg, faulty, sys, i, d, v, n);
    PreparedGivesEvidence(cfg, faulty, sys, j, d', v, n);
    PreparedAgree(cfg, faulty, sys, i, j, v, n, d, d');
  }

  // ----- Commits are counted without their digest -----

  ghost function CorrectCommitters(sys: System, v: nat, n: nat, d: Digest): set<nat> {
    set i | i in sys.states && CommitMsg(Commit(v, n, d, i)) in sys.states[i].made
  }

  lemma CommitIsPrepared(cfg: Config, faulty: set<nat>, sys: System, x: nat, c: Commit)
    requires FaultBound(cfg, faulty) && SysInv(cfg, faulty, sys) && x in sys.states
    requires CommitMsg(c) in sys.states[x].made
    ensures c.sender == x && PreparedAt(cfg, sys, x, c.v, c.n, c.d)
  {
    hide Window, Certificates, PrepareVotes, PrePrepareVotes, PrimarySlots, Views, Accepted, Watermark,
         CheckpointsTrue, Executions, PQTrue, OwnViewChanges, CommitsReported, SoundNewView;
    assert ReplicaOk(cfg, sys, x);
  }

  lemma CommittersAgree(cfg: Config, faulty: set<nat>, sys: System, i: nat, v: nat, n: nat, d: Digest)
    requires FaultBound(cfg, faulty) && SysInv(cfg, faulty, sys)
    requires CommittedAt(cfg, sys, i, v, n, d)
    ensures DecidingSet(cfg, CorrectCommitters(sys, v, n, d))
    ensures |CorrectCommitters(sys, v, n, d)| >= cfg.f + 1
    ensures forall x :: x in CorrectCommitters(sys, v, n, d) ==> PreparedAt(cfg, sys, x, v, n, d)
  {
    hide Inv, SoundNewView;
    QuorumFacts(cfg);
    assert ReplicaOk(cfg, sys, i);
    var senders := Committers(sys.states[i].Msgs(), v, n);
    var correct := CorrectCommitters(sys, v, n, d);
    forall x | x in senders - faulty ensures x in correct {
      var m :| m in sys.states[i].Msgs() && m.CommitMsg? && m.commit.v == v && m.commit.n == n && m.commit.sender == x;
      assert m in sys.net;
      CommitIsPrepared(cfg, faulty, sys, x, m.commit);
      PreparedAgree(cfg, faulty, sys, i, x, v, n, d, m.commit.d);
      assert m == CommitMsg(Commit(v, n, d, x));
    }
    RemoveCard(senders, faulty);
    SubsetCard(senders - faulty, correct);
    forall x | x in correct ensures PreparedAt(cfg, sys, x, v, n, d) {
      CommitIsPrepared(cfg, faulty, sys, x, Commit(v, n, d, x));
    }
  }

  /** Counting commits without looking at their digest is sound: where the code finds d committed at
      (v, n), at least IQ - f correct replicas committed to that same d, having prepared it. */
  lemma CommitCountingIsSound(cfg: Config, faulty: set<nat>, sys: System, i: nat, v: nat, n: nat, d: Digest)
    requires FaultBound(cfg, faulty) && Reachable(cfg, faulty, sys)
    requires i in sys.states && Committed(cfg, sys.states[i], d, v, n)
    ensures |CorrectCommitters(sys, v, n, d)| >= cfg.IntersectionQuorum() - cfg.f >= cfg.f + 1
    ensures forall x :: x in CorrectCommitters(sys, v, n, d) ==> PreparedAt(cfg, sys, x, v, n, d)
  {
    hide Reachable, SysInv, Committed, PreparedAt, CorrectCommitters;
    ReachableInv(cfg, faulty, sys);
    CommittedGivesEvidence(cfg, faulty, sys, i, d, v, n);
    CommittersAgree(cfg, faulty, sys, i, v, n, d);
    QuorumFacts(cfg);
  }

  // ----- Decisions survive view changes -----

  /** No correct replica dropped a batch that a live certificate still needed. */
  ghost predicate NoBatchLost(sys: System) {
    forall i :: i in sys.states ==> !sys.states[i].lost
  }

  /** In every view after v that a correct replica entered from below n, the null branch is taken for n
      only where the guard against d holds. */
  ghost predicate NullsGuarded(cfg: Config, sys: System, v: nat, n: nat, d: Digest) {
    forall i, w :: i in sys.states && w in sys.states[i].acts && v < w && sys.states[i].acts[w].cp < n ==>
      NullBranchGuarded(cfg, sys.states[i].acts[w].nv.vset, n, d)
  }

  /** In every view after v that a correct replica entered, the new-view starts at or above n or
      assigns d to n. */
  ghost predicate Kept(sys: System, v: nat, n: nat, d: Digest) {
    forall i, w :: i in sys.states && w in sys.states[i].acts && v < w ==> KeptBy(sys.states[i].acts[w], n, d)
  }

  ghost predicate KeptBy(act: Act, n: nat, d: Digest) {
    n <= act.cp || (n in act.nv.xset && act.nv.xset[n] == d)
  }

  /** The condition holds where no view-change comes from above the initial checkpoint: below the
      checkpoint's successor the code's test and the original one then count alike. */
  lemma LowWatermarksGuardNulls(cfg: Config, vset: seq<ViewChange>, cp: nat, n: nat, d: Digest)
    requires cfg.Valid()
    requires forall m :: m in vset ==> m.h <= cp
    requires cp < n
    ensures NullBranchGuarded(cfg, vset, n, d)
  {
    if NullQuorum(cfg, vset, n) {
      CountAlike(vset, NullTest(n), PaperNullTest(n));
      PaperGuardSuffices(cfg, vset, n, d);
    }
  }

  lemma ViewChangeTells(cfg: Config, faulty: set<nat>, sys: System, x: nat, vc: ViewChange)
    requires FaultBound(cfg, faulty) && SysInv(cfg, faulty, sys) && x in sys.states
    requires ViewChangeMsg(vc) in sys.states[x].made
    ensures forall e :: e in vc.pset ==> e.v < vc.v && PreparedAt(cfg, sys, x, e.v, e.n, e.d)
    ensures forall e :: e in vc.qset ==> e.v < vc.v && e in sys.states[x].accepted
    ensures !sys.states[x].lost ==>
              forall c :: CommitMsg(c) in sys.states[x].made && c.d != Null && c.v < vc.v ==> Reported(vc, c)
  {
    hide Window, Certificates, PrepareVotes, CommitVotes, PrePrepareVotes, PrimarySlots, Views, Accepted, Watermark,
         CheckpointsTrue, Executions, OwnViewChanges, SoundNewView, Reported;
    assert ReplicaOk(cfg, sys, x);
    forall e | e in vc.pset ensures e.v < vc.v && PreparedAt(cfg, sys, x, e.v, e.n, e.d) {
      assert PEntryOk(cfg, sys.states[x], e);
    }
  }

  /** By induction over views: under the guard, a decided batch is the only one that correct replicas
      accept at its number later. */
  lemma {:induction false} DecisionBindsLaterViews(cfg: Config, faulty: set<nat>, sys: System, v: nat, n: nat,
      d: Digest,                                              i: nat, e: PQ)
    requires FaultBound(cfg, faulty) && SysInv(cfg, faulty, sys)
    requires NoBatchLost(sys) && NullsGuarded(cfg, sys, v, n, d)
    requires d != Null && DecidingSet(cfg, CorrectCommitters(sys, v, n, d))
    requires i in sys.states && e in sys.states[i].accepted && e.n == n && v < e.v
    ensures e.d == d
    decreases e.v
  {
    hide Inv, SoundNewView, Selected, Assign, DecidingSet, NullBranchGuarded;
    AcceptedIsOk(cfg, faulty, sys, i, e);
    forall x, e' | x in sys.states && e' in sys.states[x].accepted && e'.n == n && v < e'.v < e.v ensures e'.d == d {
      DecisionBindsLaterViews(cfg, faulty, sys, v, n, d, x, e');
    }
    EnteredViewKeepsIff(cfg, faulty, sys, v, n, d, i, e.v);
  }

  /** A view is entered with the decided batch exactly if the guard holds where its null branch is
      taken, provided the views between bound correct replicas to that batch. */
  lemma EnteredViewKeepsIff(cfg: Config, faulty: set<nat>, sys: System, v: nat, n: nat, d: Digest, i: nat, w: nat)
    requires FaultBound(cfg, faulty) && SysInv(cfg, faulty, sys)
    requires NoBatchLost(sys) && d != Null && DecidingSet(cfg, CorrectCommitters(sys, v, n, d))
    requires i in sys.states && w in sys.states[i].acts && v < w
    requires forall x, e :: x in sys.states && e in sys.states[x].accepted && e.n == n && v < e.v < w ==> e.d == d
    ensures KeptBy(sys.states[i].acts[w], n, d) <==>
              n <= sys.states[i].acts[w].cp || NullBranchGuarded(cfg, sys.states[i].acts[w].nv.vset, n, d)
  {
    hide Inv, SoundNewView, Selected, Assign, CommittersReport, LaterEntriesAgree, DecidingSet, NullBranchGuarded;
    var act := sys.states[i].acts[w];
    EnteredNewView(cfg, faulty, sys, i, w);
    CommittersDoReport(cfg, faulty, sys, act.nv, v, n, d);
    LaterEntriesDoAgree(cfg, faulty, sys, act.nv, v, n, d);
    NewViewKeepsDecision(cfg, faulty, sys, act.nv, act.cp, v, n, d, CorrectCommitters(sys, v, n, d));
  }

  /** What the later views keep binds the replicas that entered them. */
  lemma KeptBinds(cfg: Config, faulty: set<nat>, sys: System, v: nat, n: nat, d: Digest, i: nat, e: PQ)
    requires FaultBound(cfg, faulty) && SysInv(cfg, faulty, sys)
    requires Kept(sys, v, n, d) && d != Null
    requires i in sys.states && e in sys.states[i].accepted && e.n == n && v < e.v
    ensures e.d == d
  {
    hide Inv, SoundNewView, Selected, Assign;
    AcceptedIsOk(cfg, faulty, sys, i, e);
    assert KeptBy(sys.states[i].acts[e.v], n, d);
  }

  lemma CommittersDoReport(cfg: Config, faulty: set<nat>, sys: System, nv: NewView, v: nat, n: nat, d: Digest)
    requires FaultBound(cfg, faulty) && SysInv(cfg, faulty, sys)
    requires NoBatchLost(sys) && d != Null && v < nv.v && NewViewMsg(nv) in sys.net
    requires forall x, e :: x in sys.states && e in sys.states[x].accepted && e.n == n && v < e.v < nv.v ==> e.d == d
    ensures CommittersReport(nv.vset, n, d, v, CorrectCommitters(sys, v, n, d))
  {
    hide Inv;
    forall m | m in nv.vset && m.sender in CorrectCommitters(sys, v, n, d) && m.h < n
      ensures exists e :: e in m.pset && e.n == n && v <= e.v && e.d == d
    {
      var x := m.sender;
      MadeBySender(cfg, faulty, sys, nv, m);
      ViewChangeTells(cfg, faulty, sys, x, m);
      var c := Commit(v, n, d, x);
      assert Reported(m, c);
      var e :| e in m.pset && e.n == n && v <= e.v;
      if e.v == v {
        CommitIsPrepared(cfg, faulty, sys, x, c);
        PreparedAgree(cfg, faulty, sys, x, x, v, n, e.d, d);
      }
    }
  }

  lemma LaterEntriesDoAgree(cfg: Config, faulty: set<nat>, sys: System, nv: NewView, v: nat, n: nat, d: Digest)
    requires FaultBound(cfg, faulty) && SysInv(cfg, faulty, sys)
    requires NewViewMsg(nv) in sys.net
    requires forall x, e :: x in sys.states && e in sys.states[x].accepted && e.n == n && v < e.v < nv.v ==> e.d == d
    ensures LaterEntriesAgree(nv.vset, n, d, v, faulty)
  {
    hide Inv;
    forall m, e | m in nv.vset && m.sender !in faulty && e in m.qset && e.n == n && v < e.v ensures e.d == d {
      MadeBySender(cfg, faulty, sys, nv, m);
      ViewChangeTells(cfg, faulty, sys, m.sender, m);
    }
  }

  /** A new-view either starts at or above a decided number, or assigns the decided batch to it exactly
      if the guard holds where it takes the null branch. */
  lemma NewViewKeepsDecision(cfg: Config, faulty: set<nat>, sys: System, nv: NewView, cp: nat, v: nat, n: nat,
      d: Digest,                        committers: set<nat>)
    requires FaultBound(cfg, faulty) && SysInv(cfg, faulty, sys)
    requires d != Null && NewViewMsg(nv) in sys.net
    requires DecidingSet(cfg, committers)
    requires CommittersReport(nv.vset, n, d, v, committers) && LaterEntriesAgree(nv.vset, n, d, v, faulty)
    requires Selected(cfg, nv.vset, cp) && Assign(cfg, nv.vset, cp) == Some(nv.xset)
    ensures n <= cp || (NullBranchGuarded(cfg, nv.vset, n, d) <==> n in nv.xset && nv.xset[n] == d)
  {
    hide Inv, Selected, Assign, CommittersReport, LaterEntriesAgree, DecidingSet, NullBranchGuarded;
    if cp < n {
      DecisionIsInRange(cfg, nv.vset, cp, n, d, v, committers);
      AssignmentKeepsDecision(cfg, nv.vset, cp, n, d, v, committers, faulty);
    }
  }

  /** Decided values survive view changes. If a correct replica committed the batch d at (v, n), then
      every later view that a correct replica entered keeps it, exactly if the guard holds wherever such
      a view takes the null branch for n. The guard fails wherever that branch is taken for a decided
      number, so the right side amounts to: no such view takes it. What this asks of the view-changes
      themselves, whatever was decided, is in `NullIsSafeIff`. */
  lemma DecidedValuesSurvive(cfg: Config, faulty: set<nat>, sys: System, k: nat, v: nat, n: nat, d: Digest)
    requires FaultBound(cfg, faulty) && Reachable(cfg, faulty, sys)
    requires NoBatchLost(sys)
    requires CommittedAt(cfg, sys, k, v, n, d) && d != Null
    ensures Kept(sys, v, n, d) <==> NullsGuarded(cfg, sys, v, n, d)
  {
    hide Reachable, SysInv, CommittedAt, DecidingSet, KeptBy, NullBranchGuarded;
    ReachableInv(cfg, faulty, sys);
    CommittersAgree(cfg, faulty, sys, k, v, n, d);
    if NullsGuarded(cfg, sys, v, n, d) || Kept(sys, v, n, d) {
      forall i, e | i in sys.states && e in sys.states[i].accepted && e.n == n && v < e.v ensures e.d == d {
        DecisionBinds(cfg, faulty, sys, v, n, d, i, e);
      }
      forall i, w | i in sys.states && w in sys.states[i].acts && v < w
        ensures KeptBy(sys.states[i].acts[w], n, d) <==>
                  n <= sys.states[i].acts[w].cp || NullBranchGuarded(cfg, sys.states[i].acts[w].nv.vset, n, d)
      {
        EnteredViewKeepsIff(cfg, faulty, sys, v, n, d, i, w);
      }
    }
  }

  lemma DecisionBinds(cfg: Config, faulty: set<nat>, sys: System, v: nat, n: nat, d: Digest, i: nat, e: PQ)
    requires FaultBound(cfg, faulty) && SysInv(cfg, faulty, sys)
    requires NoBatchLost(sys) && d != Null && DecidingSet(cfg, CorrectCommitters(sys, v, n, d))
    requires NullsGuarded(cfg, sys, v, n, d) || Kept(sys, v, n, d)
    requires i in sys.states && e in sys.states[i].accepted && e.n == n && v < e.v
    ensures e.d == d
  {
    hide SysInv, NullsGuarded, Kept, DecidingSet;
    if Kept(sys, v, n, d) {
      KeptBinds(cfg, faulty, sys, v, n, d, i, e);
    } else {
      DecisionBindsLaterViews(cfg, faulty, sys, v, n, d, i, e);
    }
  }

  /** ... and then d is the only digest that correct replicas accept, prepare or execute at n later. */
  lemma DecidedValuesBind(cfg: Config, faulty: set<nat>, sys: System, k: nat, v: nat, n: nat, d: Digest)
    requires FaultBound(cfg, faulty) && Reachable(cfg, faulty, sys)
    requires NoBatchLost(sys) && NullsGuarded(cfg, sys, v, n, d)
    requires CommittedAt(cfg, sys, k, v, n, d) && d != Null
    ensures forall i, e :: i in sys.states && e in sys.states[i].accepted && e.n == n && v < e.v ==> e.d == d
  {
    hide Reachable, SysInv, CommittedAt, DecidingSet, NullsGuarded;
    ReachableInv(cfg, faulty, sys);
    CommittersAgree(cfg, faulty, sys, k, v, n, d);
    forall i, e | i in sys.states && e in sys.states[i].accepted && e.n == n && v < e.v ensures e.d == d {
      DecisionBindsLaterViews(cfg, faulty, sys, v, n, d, i, e);
    }
  }

  // ----- Execution -----

  lemma ExecutedIsCommitted(cfg: Config, faulty: set<nat>, sys: System, i: nat, e: Exec)
    requires FaultBound(cfg, faulty) && SysInv(cfg, faulty, sys)
    requires i in sys.states && e in sys.states[i].execs
    ensures CommittedAt(cfg, sys, i, e.v, e.n, e.d)
  {
    hide Window, Certificates, PrepareVotes, CommitVotes, PrePrepareVotes, PrimarySlots, Views, Accepted, Watermark,
         CheckpointsTrue, PQTrue, OwnViewChanges, CommitsReported, SoundNewView;
    assert ReplicaOk(cfg, sys, i);
    var k :| 0 <= k < |sys.states[i].execs| && sys.states[i].execs[k] == e;
    assert ExecOk(cfg, sys.states[i], sys.states[i].execs[k]);
  }

  /** Two correct replicas never execute different requests at one sequence number in one view. */
  lemma SameViewExecution(cfg: Config, faulty: set<nat>, sys: System, i: nat, j: nat, e: Exec, e': Exec)
    requires FaultBound(cfg, faulty) && Reachable(cfg, faulty, sys)
    requires i in sys.states && j in sys.states && e in sys.states[i].execs && e' in sys.states[j].execs
    requires e.n == e'.n && e.v == e'.v
    ensures e.d == e'.d
  {
    hide Reachable, SysInv;
    ReachableInv(cfg, faulty, sys);
    ExecutedIsCommitted(cfg, faulty, sys, i, e);
    ExecutedIsCommitted(cfg, faulty, sys, j, e');
    PreparedAgree(cfg, faulty, sys, i, j, e.v, e.n, e.d, e'.d);
  }

  /** ... nor, once a batch is executed there, in any two views. */
  lemma ExecutionAgreement(cfg: Config, faulty: set<nat>, sys: System, i: nat, j: nat, e: Exec, e': Exec)
    requires FaultBound(cfg, faulty) && Reachable(cfg, faulty, sys)
    requires NoBatchLost(sys) && NullsGuarded(cfg, sys, e.v, e.n, e.d)
    requires i in sys.states && j in sys.states && e in sys.states[i].execs && e' in sys.states[j].execs
    requires e.n == e'.n && e.v <= e'.v && e.d != Null
    ensures e'.d == e.d
  {
    hide Reachable, SysInv;
    ReachableInv(cfg, faulty, sys);
    ExecutedIsCommitted(cfg, faulty, sys, i, e);
    ExecutedIsCommitted(cfg, faulty, sys, j, e');
    if e.v == e'.v {
      PreparedAgree(cfg, faulty, sys, i, j, e.v, e.n, e.d, e'.d);
    } else {
      DecidedValuesBind(cfg, faulty, sys, i, e.v, e.n, e.d);
      assert PQ(e'.n, e'.d, e'.v) in sys.states[j].accepted;
    }
  }

  // ----- Watermarks -----

  lemma CheckpointIsExecuted(cfg: Config, faulty: set<nat>, sys: System, x: nat)
    requires FaultBound(cfg, faulty) && SysInv(cfg, faulty, sys) && x in sys.states
    ensures forall k :: CheckpointMsg(k) in sys.states[x].made ==> k.n <= sys.states[x].lastExec
    ensures forall vc, c :: ViewChangeMsg(vc) in sys.states[x].made && c in vc.cset ==> c.n <= sys.states[x].lastExec
  {
    hide Window, Certificates, PrepareVotes, CommitVotes, PrePrepareVotes, PrimarySlots, Views, Accepted, Watermark,
         Executions, PQTrue, OwnViewChanges, CommitsReported, SoundNewView;
    assert ReplicaOk(cfg, sys, x);
  }

  lemma SomeCorrectReplica(cfg: Config, faulty: set<nat>, sys: System) returns (x: nat)
    requires FaultBound(cfg, faulty) && SysInv(cfg, faulty, sys)
    ensures x in sys.states
  {
    hide Inv, SoundNewView;
    IdsCard(cfg.N);
    x := CorrectMember(Ids(cfg.N), faulty);
  }

  lemma WatermarkIsVouched(cfg: Config, faulty: set<nat>, sys: System, i: nat)
    requires FaultBound(cfg, faulty) && SysInv(cfg, faulty, sys) && i in sys.states
    ensures Watermark(cfg, sys.states[i]) && sys.states[i].Msgs() <= sys.net
  {
    hide Window, Certificates, PrepareVotes, CommitVotes, PrePrepareVotes, PrimarySlots, Views, Accepted, Watermark,
         CheckpointsTrue, Executions, PQTrue, OwnViewChanges, CommitsReported, SoundNewView;
    assert ReplicaOk(cfg, sys, i);
  }

  /** No correct replica's low watermark is above what every correct replica has executed. */
  lemma WatermarkBehindExecution(cfg: Config, faulty: set<nat>, sys: System, i: nat) returns (j: nat)
    requires FaultBound(cfg, faulty) && Reachable(cfg, faulty, sys) && i in sys.states
    ensures j in sys.states && sys.states[i].h <= sys.states[j].lastExec
  {
    hide Reachable, Inv, Selected;
    ReachableInv(cfg, faulty, sys);
    WatermarkIsVouched(cfg, faulty, sys, i);
    var s := sys.states[i];
    if s.h == 0 {
      j := SomeCorrectReplica(cfg, faulty, sys);
    } else if |Reporters(s.Msgs(), s.h)| >= cfg.f + 1 {
      j := CorrectMember(Reporters(s.Msgs(), s.h), faulty);
      var m :| m in s.Msgs() && m.CheckpointMsg? && s.h <= m.chkpt.n && m.chkpt.sender == j;
      assert m in sys.net;
      CheckpointIsExecuted(cfg, faulty, sys, j);
    } else {
      var nv, cp :| NewViewMsg(nv) in s.got && Selected(cfg, nv.vset, cp) && s.h <= cp;
      assert NewViewMsg(nv) in sys.net;
      var m, c := CorrectVoucher(cfg, nv.vset, cp, faulty);
      MadeBySender(cfg, faulty, sys, nv, m);
      CheckpointIsExecuted(cfg, faulty, sys, m.sender);
      j := m.sender;
    }
  }

  /** Falling behind is judged safely: where f + 1 replicas report checkpoints at m or above, a correct
      replica has made such a report and has executed that far. */
  lemma ReportedIsExecuted(cfg: Config, faulty: set<nat>, sys: System, i: nat, m: nat) returns (j: nat)
    requires FaultBound(cfg, faulty) && Reachable(cfg, faulty, sys) && i in sys.states
    requires |Reporters(sys.states[i].Msgs(), m)| >= cfg.f + 1
    ensures j in sys.states && m <= sys.states[j].lastExec
    ensures exists k :: CheckpointMsg(k) in sys.states[j].made && m <= k.n && k.sender == j
  {
    hide Reachable, Inv, Selected;
    ReachableInv(cfg, faulty, sys);
    WatermarkIsVouched(cfg, faulty, sys, i);
    j := CorrectMember(Reporters(sys.states[i].Msgs(), m), faulty);
    var msg :| msg in sys.states[i].Msgs() && msg.CheckpointMsg? && m <= msg.chkpt.n && msg.chkpt.sender == j;
    assert msg in sys.net && msg == CheckpointMsg(msg.chkpt);
    CheckpointIsExecuted(cfg, faulty, sys, j);
  }
}
