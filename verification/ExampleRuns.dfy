/** Runs of four replicas, of which replica 0, the primary of view 0, is faulty: what a correct replica
    does in one event, and what that makes of the system. */
module ExampleRuns {
  import opened PbftTypes
  import opened Quorums
  import opened NewViewExamples
  import opened ReplicaSteps
  import opened ReplicaInvariant
  import opened ViewChangeCauses
  import opened PbftSystem
  import opened PromptRuns
  import opened SystemRuns

  // ----- A pre-prepare arrives -----

  /** The replica has accepted the pre-prepare, and prepared it. */
  function Cast(s: State, p: PrePrepare): State {
    var own := Prepare(p.v, p.n, p.d, s.id);
    Taken(s, p).(certs := s.certs[Slot(p.v, p.n) := Cert(p.d, Some(p), true, [own], false, [])],
                 made := s.made + {PrepareMsg(own)})
  }

  function Taken(s: State, p: PrePrepare): State {
    s.(got := s.got + {PrePrepareMsg(p)}, batches := if p.d == Null then s.batches else s.batches + {p.d},
       accepted := s.accepted + {PQ(p.n, p.d, p.v)},
       certs := s.certs[Slot(p.v, p.n) := s.CertAt(Slot(p.v, p.n)).(prePrepare := Some(p), digest := p.d)])
  }

  lemma Takes(from: State, s: State, p: PrePrepare)
    requires Leads(ExampleConfig, from, s) && s.active && s.view == p.v && InW(ExampleConfig, s, p.n)
    requires p.sender == ExampleConfig.Primary(p.v) != s.id && s.CertAt(Slot(p.v, p.n)).digest in {Null, p.d}
    ensures Leads(ExampleConfig, from, Taken(s, p))
  {
    hide Leads;
    Hears(ExampleConfig, from, s, PrePrepareMsg(p));
    var s1 := s.(got := s.got + {PrePrepareMsg(p)});
    TakeStep(ExampleConfig, from, s1, AcceptPrePrepare(p));
    var s2 := DoAcceptPrePrepare(s1, p);
    if p.d == Null {
      assert s2 == Taken(s, p);
    } else {
      TakeStep(ExampleConfig, from, s2, KeepBatch(p.d));
      assert s2.(batches := s2.batches + {p.d}) == Taken(s, p);
    }
  }

  lemma Casts(from: State, s: State, p: PrePrepare)
    requires Leads(ExampleConfig, from, s) && s.active && s.view == p.v && InW(ExampleConfig, s, p.n)
    requires p.sender == ExampleConfig.Primary(p.v) != s.id && Slot(p.v, p.n) !in s.certs
    ensures Leads(ExampleConfig, from, Cast(s, p))
  {
    hide Leads, Config.Primary;
    Takes(from, s, p);
    assert Taken(s, p).certs[Slot(p.v, p.n)] == Cert(p.d, Some(p), false, [], false, []);
    Votes(from, Taken(s, p), p);
    assert Taken(s, p).certs[Slot(p.v, p.n) := Cast(s, p).certs[Slot(p.v, p.n)]] == Cast(s, p).certs;
  }

  lemma Votes(from: State, s: State, p: PrePrepare)
    requires Leads(ExampleConfig, from, s) && s.active && s.view == p.v && InW(ExampleConfig, s, p.n)
    requires ExampleConfig.Primary(p.v) != s.id && Slot(p.v, p.n) in s.certs
    requires s.certs[Slot(p.v, p.n)] == Cert(p.d, Some(p), false, [], false, []) && (p.d == Null || p.d in s.batches)
    ensures var own := Prepare(p.v, p.n, p.d, s.id);
            Leads(ExampleConfig, from,
                  s.(certs := s.certs[Slot(p.v, p.n) := Cert(p.d, Some(p), true, [own], false, [])],
                     made := s.made + {PrepareMsg(own)}))
  {
    hide Leads, Config.Primary;
    var slot, own := Slot(p.v, p.n), Prepare(p.v, p.n, p.d, s.id);
    TakeStep(ExampleConfig, from, s, CastPrepare(p.n));
    var s1 := DoCastPrepare(s, p.n);
    assert s1.certs[slot] == Cert(p.d, Some(p), true, [], false, []);
    CountsOwn(from, s1, own);
    assert [] + [own] == [own];
    var cert := Cert(p.d, Some(p), true, [own], false, []);
    assert s1.certs[slot := cert] == s.certs[slot := cert];
  }

  // ----- A prepare arrives -----

  function Counted(s: State, q: Prepare): State {
    var slot := Slot(q.v, q.n);
    s.(got := s.got + {PrepareMsg(q)},
       certs := s.certs[slot := s.CertAt(slot).(prepare := s.CertAt(slot).prepare + [q])])
  }

  lemma Counts(from: State, s: State, q: Prepare)
    requires Leads(ExampleConfig, from, s) && s.view == q.v && InW(ExampleConfig, s, q.n)
    requires q.sender != s.id && q.sender != ExampleConfig.Primary(q.v)
    requires forall p :: p in s.CertAt(Slot(q.v, q.n)).prepare ==> p.sender != q.sender
    ensures Leads(ExampleConfig, from, Counted(s, q))
  {
    hide Leads, Config.Primary;
    Hears(ExampleConfig, from, s, PrepareMsg(q));
    TakeStep(ExampleConfig, from, s.(got := s.got + {PrepareMsg(q)}), CountPrepare(q));
  }

  lemma CountsOwn(from: State, s: State, own: Prepare)
    requires Leads(ExampleConfig, from, s) && PrepareMsg(own) in s.made && s.view == own.v
    requires InW(ExampleConfig, s, own.n)
    requires own.sender != ExampleConfig.Primary(own.v)
    requires forall p :: p in s.CertAt(Slot(own.v, own.n)).prepare ==> p.sender != own.sender
    ensures var slot := Slot(own.v, own.n); var cert := s.CertAt(slot);
            Leads(ExampleConfig, from, s.(certs := s.certs[slot := cert.(prepare := cert.prepare + [own])]))
  {
    hide Leads, Config.Primary;
    TakeStep(ExampleConfig, from, s, CountPrepare(own));
  }

  /** The certificate is prepared: the commit is sent, and counted. */
  function Promised(s: State, slot: Slot): State {
    var cert := s.CertAt(slot);
    var own := Commit(slot.v, slot.n, cert.digest, s.id);
    s.(certs := s.certs[slot := cert.(sentCommit := true, commit := cert.commit + [own])],
       made := s.made + {CommitMsg(own)})
  }

  /** Two prepares make a certificate prepared. */
  ghost predicate Complete(s: State, slot: Slot) {
    && slot in s.certs && slot.v == s.view
    && var cert := s.certs[slot];
    && cert.prePrepare.Some? && |cert.prepare| == 2 && PrePrepared(s, cert.digest, slot.v, slot.n)
    && (forall p :: p in cert.prepare ==> p.v == slot.v && p.n == slot.n && p.d == cert.digest)
  }

  lemma TwoVotes(ps: seq<Prepare>, v: nat, n: nat, d: Digest)
    requires |ps| == 2 && forall p :: p in ps ==> p.v == v && p.n == n && p.d == d
    ensures CountPrepares(ps, v, n, d) == 2
  {
    assert ps[..1][..0] == [] && ps[..1][0] in ps && ps[1] in ps;
    assert CountPrepares(ps[..1], v, n, d) == 1;
  }

  lemma CompleteIsPrepared(s: State, slot: Slot)
    requires Complete(s, slot)
    ensures Prepared(ExampleConfig, s, s.certs[slot].digest, slot.v, slot.n) && SlotPrepared(ExampleConfig, s, slot)
  {
    TwoVotes(s.certs[slot].prepare, slot.v, slot.n, s.certs[slot].digest);
    hide PrePrepared;
  }

  lemma Promises(from: State, s: State, slot: Slot)
    requires Leads(ExampleConfig, from, s) && Complete(s, slot) && InW(ExampleConfig, s, slot.n)
    requires !s.certs[slot].sentCommit && forall c :: c in s.certs[slot].commit ==> c.sender != s.id
    ensures Leads(ExampleConfig, from, Promised(s, slot))
  {
    hide Leads, Prepared, PrePrepared;
    CompleteIsPrepared(s, slot);
    TakeStep(ExampleConfig, from, s, CastCommit(slot.n));
    var s1, own := DoCastCommit(s, slot.n), Commit(slot.v, slot.n, s.certs[slot].digest, s.id);
    TakeStep(ExampleConfig, from, s1, CountCommit(own));
    assert DoCountCommit(s1, own).certs == Promised(s, slot).certs;
  }

  /** The certificate of p with the own prepare and a second one, and the own commit. */
  function Convinced(s: State, p: PrePrepare, q: Prepare): State {
    var own, c := Prepare(p.v, p.n, p.d, s.id), Commit(p.v, p.n, p.d, s.id);
    s.(got := s.got + {PrepareMsg(q)}, made := s.made + {CommitMsg(c)},
       certs := s.certs[Slot(p.v, p.n) := Cert(p.d, Some(p), true, [own, q], true, [c])])
  }

  /** With a second prepare a certificate is committed to. */
  lemma Convinces(from: State, s: State, p: PrePrepare, q: Prepare)
    requires Leads(ExampleConfig, from, s) && s.view == p.v && InW(ExampleConfig, s, p.n) && Slot(p.v, p.n) in s.certs
    requires s.certs[Slot(p.v, p.n)] == Cert(p.d, Some(p), true, [Prepare(p.v, p.n, p.d, s.id)], false, [])
    requires (p.d == Null || p.d in s.batches) && q == Prepare(p.v, p.n, p.d, q.sender)
    requires q.sender != s.id && q.sender != ExampleConfig.Primary(p.v)
    ensures Leads(ExampleConfig, from, Convinced(s, p, q))
  {
    hide Leads, Config.Primary;
    var slot, own, c := Slot(p.v, p.n), Prepare(p.v, p.n, p.d, s.id), Commit(p.v, p.n, p.d, s.id);
    Counts(from, s, q);
    var s1 := Counted(s, q);
    assert [own] + [q] == [own, q] && [] + [c] == [c];
    assert s1.certs[slot] == Cert(p.d, Some(p), true, [own, q], false, []);
    Promises(from, s1, slot);
    assert Promised(s1, slot).certs == Convinced(s, p, q).certs;
  }

  // ----- A commit arrives -----

  function Noted(s: State, c: Commit): State {
    var slot := Slot(c.v, c.n);
    s.(got := s.got + {CommitMsg(c)},
       certs := s.certs[slot := s.CertAt(slot).(commit := s.CertAt(slot).commit + [c])])
  }

  lemma Notes(from: State, s: State, c: Commit)
    requires Leads(ExampleConfig, from, s) && s.view == c.v && InW(ExampleConfig, s, c.n) && c.sender != s.id
    requires forall e :: e in s.CertAt(Slot(c.v, c.n)).commit ==> e.sender != c.sender
    ensures Leads(ExampleConfig, from, Noted(s, c))
  {
    hide Leads;
    Hears(ExampleConfig, from, s, CommitMsg(c));
    TakeStep(ExampleConfig, from, s.(got := s.got + {CommitMsg(c)}), CountCommit(c));
  }

  lemma ThreeCommits(cs: seq<Commit>, v: nat, n: nat)
    requires |cs| == 3 && forall c :: c in cs ==> c.v == v && c.n == n
    ensures CountCommits(cs, v, n) == 3
  {
    assert cs[..2][..1] == cs[..1] && cs[..1][..0] == [] && cs[..1][0] in cs && cs[..2][1] in cs && cs[2] in cs;
    assert CountCommits(cs[..1], v, n) == 1;
    assert CountCommits(cs[..2], v, n) == 2;
  }

  /** Three commits make a prepared certificate committed: if it is next, its request is executed. */
  lemma Executes(from: State, s: State, slot: Slot)
    requires Leads(ExampleConfig, from, s) && Complete(s, slot) && slot.n == s.lastExec + 1 && s.exec.None? && !s.skip
    requires |s.certs[slot].commit| == 3 && forall c :: c in s.certs[slot].commit ==> c.v == slot.v && c.n == slot.n
    ensures Leads(ExampleConfig, from, DoStartExec(s, slot.n))
  {
    hide Leads, Prepared, PrePrepared;
    CompleteIsPrepared(s, slot);
    ThreeCommits(s.certs[slot].commit, slot.v, slot.n);
    TakeStep(ExampleConfig, from, s, StartExec(slot.n));
  }

  /** The certificate at slot has two more commits, and its request is being executed. */
  function Busied(s: State, slot: Slot, c: Commit, c': Commit): State {
    var cert := s.CertAt(slot);
    s.(got := s.got + {CommitMsg(c)} + {CommitMsg(c')},
       certs := s.certs[slot := cert.(commit := cert.commit + [c, c'])],
       exec := Some(slot.n), execs := s.execs + [Exec(slot.n, cert.digest, slot.v)])
  }

  lemma ExecutesWith(from: State, s: State, slot: Slot, c: Commit, c': Commit)
    requires Leads(ExampleConfig, from, s) && Complete(s, slot) && InW(ExampleConfig, s, slot.n)
    requires slot.n == s.lastExec + 1 && s.exec.None? && !s.skip
    requires s.certs[slot].commit == [Commit(slot.v, slot.n, s.certs[slot].digest, s.id)]
    requires c.v == c'.v == slot.v && c.n == c'.n == slot.n && c.sender != s.id && c'.sender != s.id
    requires c.sender != c'.sender
    ensures Leads(ExampleConfig, from, Busied(s, slot, c, c'))
  {
    hide Leads, PrePrepared;
    var own, s1 := s.certs[slot].commit[0], Noted(s, c);
    Notes(from, s, c);
    Notes(from, s1, c');
    assert [own] + [c] == [own, c] && [own, c] + [c'] == [own] + [c, c'] == [own, c, c'];
    var s2 := Noted(s1, c');
    assert s2.certs == Busied(s, slot, c, c').certs;
    StaysComplete(s, s2, slot, [own, c, c']);
    Executes(from, s2, slot);
  }

  lemma StaysComplete(s: State, s': State, slot: Slot, commits: seq<Commit>)
    requires Complete(s, slot) && s'.certs == s.certs[slot := s.certs[slot].(commit := commits)]
    requires s'.view == s.view && s'.batches == s.batches && s'.qset == s.qset
    ensures Complete(s', slot)
  {
  }

  // ----- Checkpoints -----

  /** The execution in flight has ended, and a checkpoint was taken and stored. */
  function Done(s: State, id: StateId): State {
    var k := Checkpoint(s.lastExec + 1, s.id, id);
    s.(lastExec := k.n, exec := None, chkpts := s.chkpts[k.n := id], made := s.made + {CheckpointMsg(k)},
       ckpts := s.ckpts + {k})
  }

  lemma ExecutionEnds(from: State, s: State, id: StateId)
    requires Leads(ExampleConfig, from, s)
    requires s.exec == Some(s.lastExec + 1) && ExampleConfig.IsMultiple(s.lastExec + 1)
    requires InW(ExampleConfig, s, s.lastExec + 1)
    ensures Leads(ExampleConfig, from, Done(s, id))
  {
    hide Leads, Config.IsMultiple;
    var n := s.lastExec + 1;
    TakeStep(ExampleConfig, from, s, FinishExec);
    var s1 := s.(lastExec := n);
    TakeStep(ExampleConfig, from, s1, TakeCheckpoint(id));
    var s2 := DoTakeCheckpoint(s1, id);
    TakeStep(ExampleConfig, from, s2, StoreCheckpoint(Checkpoint(n, s.id, id)));
    var s3 := s2.(ckpts := s2.ckpts + {Checkpoint(n, s.id, id)});
    TakeStep(ExampleConfig, from, s3, ReleaseExec);
  }

  function Stored(s: State, k: Checkpoint): State {
    s.(got := s.got + {CheckpointMsg(k)}, ckpts := s.ckpts + {k})
  }

  lemma Stores(from: State, s: State, k: Checkpoint)
    requires Leads(ExampleConfig, from, s) && k.sender != s.id && InW(ExampleConfig, s, k.n)
    ensures Leads(ExampleConfig, from, Stored(s, k))
  {
    hide Leads;
    Hears(ExampleConfig, from, s, CheckpointMsg(k));
    TakeStep(ExampleConfig, from, s.(got := s.got + {CheckpointMsg(k)}), StoreCheckpoint(k));
  }

  lemma ThreeVoters(ckpts: set<Checkpoint>, n: nat, id: StateId, i: nat, j: nat, k: nat)
    requires Checkpoint(n, i, id) in ckpts && Checkpoint(n, j, id) in ckpts && Checkpoint(n, k, id) in ckpts
    requires i != j && i != k && j != k
    ensures |CheckpointVoters(ckpts, n, id)| >= 3
  {
    assert {i, j, k} <= CheckpointVoters(ckpts, n, id);
    SubsetCard({i, j, k}, CheckpointVoters(ckpts, n, id));
  }

  // ----- View changes -----

  /** The view-change of a replica that has no checkpoint but the first. */
  function Says(v: nat, pset: seq<PQ>, qset: seq<PQ>, i: nat): ViewChange {
    ViewChange(v, 0, [Genesis], pset, qset, i)
  }

  /** The replica has left its view with view-change vc. */
  function Gone(s: State, vc: ViewChange, pset: map<nat, PQ>, qset: map<QKey, PQ>): State {
    s.(view := vc.v, active := false, certs := map[], pset := pset, qset := qset, made := s.made + {ViewChangeMsg(vc)})
  }

  /** ... after view-changes of two others for that view reached it. */
  function Called(s: State, m: ViewChange, m': ViewChange): State {
    s.(got := s.got + {ViewChangeMsg(m)} + {ViewChangeMsg(m')})
  }

  lemma HearsCalls(from: State, s: State, m: ViewChange, m': ViewChange)
    requires Leads(ExampleConfig, from, s) && m.sender != s.id && m'.sender != s.id
    ensures Leads(ExampleConfig, from, Called(s, m, m'))
  {
    hide Leads;
    Hears(ExampleConfig, from, s, ViewChangeMsg(m));
    Hears(ExampleConfig, from, s.(got := s.got + {ViewChangeMsg(m)}), ViewChangeMsg(m'));
  }

  lemma CalledMayLeave(s: State, m: ViewChange, m': ViewChange)
    requires m.sender != m'.sender && m.v == m'.v
    ensures Due(ExampleConfig, Called(s, m, m'), m.v)
  {
    var ms := Called(s, m, m').Msgs();
    assert ViewChangeMsg(m) in ms && ViewChangeMsg(m') in ms;
    assert {m.sender, m'.sender} <= Callers(ms, m.v);
    SubsetCard({m.sender, m'.sender}, Callers(ms, m.v));
    assert Joins(ExampleConfig, Called(s, m, m'), m.v);
  }

  /** Two view-changes of others make the replica leave. */
  lemma FollowsCalls(from: State, s: State, m: ViewChange, m': ViewChange, vc: ViewChange, pset: map<nat, PQ>,
      qset: map<QKey, PQ>)
    requires Leads(ExampleConfig, from, s)
    requires m.sender != m'.sender && m.sender != s.id && m'.sender != s.id && m.v == m'.v == vc.v
    requires s.view < vc.v && vc.h == s.h && vc.sender == s.id && (forall slot :: slot in s.certs ==> slot.v == s.view)
    requires pset == CalcP(ExampleConfig, Called(s, m, m')) && qset == CalcQ(Called(s, m, m'))
    requires ListsCheckpoints(vc.cset, s.chkpts) && ListsP(vc.pset, pset) && ListsQ(vc.qset, qset)
    ensures Leads(ExampleConfig, from, Gone(Called(s, m, m'), vc, pset, qset))
  {
    hide Leads, CalcP, CalcQ, ListsCheckpoints, ListsP, ListsQ, Due;
    HearsCalls(from, s, m, m');
    CalledMayLeave(s, m, m');
    Leaves(ExampleConfig, from, Called(s, m, m'), vc, pset, qset);
  }

  /** A pre-prepare for the null request that contradicts a certificate. */
  function NullProposal(n: nat): PrePrepare {
    PrePrepare(0, n, Null, RequestBatch(""), 0)
  }

  function Contradicted(s: State, n: nat): State {
    s.(got := s.got + {PrePrepareMsg(NullProposal(n))})
  }

  /** It makes the replica leave. */
  lemma LeavesOnNull(from: State, s: State, n: nat, vc: ViewChange, pset: map<nat, PQ>, qset: map<QKey, PQ>)
    requires Leads(ExampleConfig, from, s) && s.active && s.view == 0 && InW(ExampleConfig, s, n) && s.id != 0
    requires Slot(0, n) in s.certs && s.certs[Slot(0, n)].digest != Null
    requires vc.v == 1 && vc.h == s.h && vc.sender == s.id && (forall slot :: slot in s.certs ==> slot.v == s.view)
    requires pset == CalcP(ExampleConfig, Contradicted(s, n)) && qset == CalcQ(Contradicted(s, n))
    requires ListsCheckpoints(vc.cset, s.chkpts) && ListsP(vc.pset, pset) && ListsQ(vc.qset, qset)
    ensures Leads(ExampleConfig, from, Gone(Contradicted(s, n), vc, pset, qset))
  {
    hide Leads, CalcP, CalcQ, ListsCheckpoints, ListsP, ListsQ, Limit, Joins, Ends, TurnsDown;
    var p := NullProposal(n);
    Hears(ExampleConfig, from, s, PrePrepareMsg(p));
    var s1 := Contradicted(s, n);
    assert Offends(ExampleConfig, s1, p);
    Leaves(ExampleConfig, from, s1, vc, pset, qset);
  }

  // ----- The system -----

  const FaultyPrimary: set<nat> := {0}

  ghost function Trio(a: State, b: State, c: State): map<nat, State> {
    map[1 := a, 2 := b, 3 := c]
  }

  /** The system can get to where replicas 1, 2 and 3 are in these states and these messages were sent. */
  ghost predicate Here(a: State, b: State, c: State, net: set<Msg>) {
    && FaultBound(ExampleConfig, FaultyPrimary)
    && PromptlyReachable(ExampleConfig, FaultyPrimary, System(Trio(a, b, c), net))
  }

  lemma ExampleBound()
    ensures FaultBound(ExampleConfig, FaultyPrimary) && Ids(4) - FaultyPrimary == {1, 2, 3}
  {
  }

  lemma AllStart()
    ensures Here(Initial(1), Initial(2), Initial(3), {})
  {
    ExampleBound();
    FreshIsReachable(ExampleConfig, FaultyPrimary);
    hide Initial, PromptlyReachable, FaultBound;
    assert Fresh(ExampleConfig, FaultyPrimary).states == Trio(Initial(1), Initial(2), Initial(3));
  }

  lemma FirstGoes(a: State, b: State, c: State, net: set<Msg>, s: State)
    requires Here(a, b, c, net) && Leads(ExampleConfig, a, s) && s.got <= net
    ensures Here(s, b, c, net + s.made)
  {
    hide Leads, PromptlyReachable, FaultBound;
    var sys := Advance(ExampleConfig, FaultyPrimary, System(Trio(a, b, c), net), 1, s);
    assert sys.states == Trio(s, b, c);
  }

  lemma SecondGoes(a: State, b: State, c: State, net: set<Msg>, s: State)
    requires Here(a, b, c, net) && Leads(ExampleConfig, b, s) && s.got <= net
    ensures Here(a, s, c, net + s.made)
  {
    hide Leads, PromptlyReachable, FaultBound;
    var sys := Advance(ExampleConfig, FaultyPrimary, System(Trio(a, b, c), net), 2, s);
    assert sys.states == Trio(a, s, c);
  }

  lemma ThirdGoes(a: State, b: State, c: State, net: set<Msg>, s: State)
    requires Here(a, b, c, net) && Leads(ExampleConfig, c, s) && s.got <= net
    ensures Here(a, b, s, net + s.made)
  {
    hide Leads, PromptlyReachable, FaultBound;
    var sys := Advance(ExampleConfig, FaultyPrimary, System(Trio(a, b, c), net), 3, s);
    assert sys.states == Trio(a, b, s);
  }

  /** The faulty replica sends something in its own name. */
  lemma FaultySends(a: State, b: State, c: State, net: set<Msg>, m: Msg)
    requires Here(a, b, c, net) && Sender(m) == Some(0)
    ensures Here(a, b, c, net + {m})
  {
    hide PromptlyReachable, FaultBound, SoundNewView;
    var sys := Send(ExampleConfig, FaultyPrimary, System(Trio(a, b, c), net), m);
  }

  /** The first new-view is sent. */
  lemma NewViewComes(a: State, b: State, c: State, net: set<Msg>, nv: NewView)
    requires Here(a, b, c, net)
    requires SoundNewView(ExampleConfig, nv) && SignedBy(FaultyPrimary, net, nv) && NoNewViewIn(net)
    ensures Here(a, b, c, net + {NewViewMsg(nv)})
  {
    hide PromptlyReachable, FaultBound, SoundNewView;
    assert OneNewViewPerView(FaultyPrimary, net + {NewViewMsg(nv)});
    var sys := Send(ExampleConfig, FaultyPrimary, System(Trio(a, b, c), net), NewViewMsg(nv));
  }

  ghost predicate NoNewViewIn(ms: set<Msg>) {
    forall nv :: NewViewMsg(nv) !in ms
  }

  lemma HeardAlready(a: State, b: State, c: State, net: set<Msg>)
    requires Here(a, b, c, net)
    ensures a.got <= net && b.got <= net && c.got <= net
  {
    hide PromptlyReachable, Reachable, FaultBound, Inv;
    var sys := System(Trio(a, b, c), net);
    PromptIsReachable(ExampleConfig, FaultyPrimary, sys);
    ReachableInv(ExampleConfig, FaultyPrimary, sys);
    assert ReplicaOk(ExampleConfig, sys, 1) && ReplicaOk(ExampleConfig, sys, 2) && ReplicaOk(ExampleConfig, sys, 3);
  }
}
