/** What a restart does to votes: exactly when a replica that starts again from its store can contradict
    a prepare that it sent before. */
module PbftRestart {
  import opened PbftTypes
  import opened Quorums
  import opened NewViewRule
  import opened NewViewExamples
  import opened ReplicaSteps
  import opened ReplicaInvariant
  import opened ReplicaLog
  import opened ReplicaBackers
  import opened ViewChangeProgress
  import opened ViewChangeCauses
  import opened SystemRuns
  import opened WorkedRuns
  import opened PbftRestore

  /** A replica as it starts again: it may be in any view, but has an empty log and made nothing yet. */
  ghost predicate Restarted(cfg: Config, s: State)
    requires cfg.Valid()
  {
    s.active && s.certs == map[] && s.acts == map[] && s.made == {} && cfg.IsMultiple(s.h)
  }

  /** The replica made a prepare that differs from q for the view and number of q. */
  ghost predicate Contradicts(s: State, q: Prepare) {
    exists d :: d != q.d && PrepareMsg(Prepare(q.v, q.n, d, q.sender)) in s.made
  }

  /** Some run of the replica from s ends where it has contradicted q. Any messages may reach it, from any
      number of senders: this is about the replica alone, not about a system with at most f faulty ones. */
  ghost predicate CanContradict(cfg: Config, s: State, q: Prepare)
    requires cfg.Valid()
  {
    exists log :: Path(cfg, log) && log[0] == s && Contradicts(log[|log| - 1], q)
  }

  // ----- What a restarted replica never votes for -----

  /** Since s0 the replica has prepared nothing in earlier views, and in the view of s0 nothing at or below
      its watermark. */
  ghost predicate Since(cfg: Config, s0: State, s: State)
    requires cfg.Valid()
  {
    && s.id == s0.id && s0.view <= s.view && s0.h <= s.h && cfg.IsMultiple(s.h)
    && (s.view == s0.view ==> s.active && s0.view !in s.acts)
    && (forall slot :: slot in s.certs ==> s0.h < slot.n)
    && (forall p :: PrepareMsg(p) in s.made ==> s0.view <= p.v && (p.v == s0.view ==> s0.h < p.n))
  }

  lemma QuietSince(cfg: Config, s0: State, s: State, step: Step)
    requires cfg.Valid() && Since(cfg, s0, s) && Enabled(cfg, s, step) && Quiet(step)
    ensures Since(cfg, s0, Apply(cfg, s, step))
  {
    hide CanHear, CanStartExec;
    match step
    case Hear(_) =>
    case KeepBatch(_) =>
    case StartExec(_) =>
    case FinishExec =>
    case ReleaseExec =>
    case SkipOn =>
    case TakeCheckpoint(_) =>
    case StoreCheckpoint(_) =>
  }

  lemma VotingSince(cfg: Config, s0: State, s: State, step: Step)
    requires cfg.Valid() && Since(cfg, s0, s) && Enabled(cfg, s, step)
    requires !Quiet(step) && !Moves(step) && !step.ChangeView? && !step.Activate?
    ensures Since(cfg, s0, Apply(cfg, s, step))
  {
    hide Config.IsMultiple, Config.L, Config.Primary, PrePrepared, Prepared;
    match step
    case AcceptPrePrepare(_) =>
    case IssuePrePrepare(_) =>
    case CastPrepare(_) =>
    case CastNewViewPrepare(_) =>
    case CountPrepare(_) =>
    case CastCommit(_) =>
    case CountCommit(_) =>
  }

  lemma MovingSince(cfg: Config, s0: State, s: State, step: Step)
    requires cfg.Valid() && Since(cfg, s0, s) && Enabled(cfg, s, step) && Moves(step)
    ensures Since(cfg, s0, Apply(cfg, s, step))
  {
    hide Since, Move, Accepts, CheckpointVoters, Reporters;
    HeightSince(cfg, s0, s);
    match step
    case MoveOnQuorum(k) =>
      FloorMonotone(cfg, s.h, k.n);
      MoveSince(cfg, s0, s, k.n);
    case MoveOnReports(n) =>
      FloorMonotone(cfg, s.h, n);
      BatchesSince(cfg, s0, s);
      MoveSince(cfg, s0, s.(batches := {}), n);
    case MoveOnNewView(nv, cp) =>
      FloorMonotone(cfg, s.h, cp);
      MoveSince(cfg, s0, s, cp);
  }

  lemma HeightSince(cfg: Config, s0: State, s: State)
    requires cfg.Valid() && Since(cfg, s0, s)
    ensures cfg.IsMultiple(s.h)
  {
  }

  lemma BatchesSince(cfg: Config, s0: State, s: State)
    requires cfg.Valid() && Since(cfg, s0, s)
    ensures Since(cfg, s0, s.(batches := {}))
  {
  }

  lemma MoveSince(cfg: Config, s0: State, s: State, n: nat)
    requires cfg.Valid() && Since(cfg, s0, s) && s.h <= cfg.Floor(n)
    ensures Since(cfg, s0, Move(s, cfg.Floor(n)))
  {
    FloorIsMultiple(cfg, n);
  }

  lemma ChangingSince(cfg: Config, s0: State, s: State, step: Step)
    requires cfg.Valid() && Since(cfg, s0, s) && Enabled(cfg, s, step) && (step.ChangeView? || step.Activate?)
    ensures Since(cfg, s0, Apply(cfg, s, step))
  {
    hide Config.IsMultiple, Config.L, DescribesReplica, CalcP, CalcQ, Selected, Assign;
  }

  lemma StepSince(cfg: Config, s0: State, s: State, step: Step)
    requires cfg.Valid() && Since(cfg, s0, s) && Enabled(cfg, s, step)
    ensures Since(cfg, s0, Apply(cfg, s, step))
  {
    hide Since, Enabled, Apply;
    if Quiet(step) {
      QuietSince(cfg, s0, s, step);
    } else if Moves(step) {
      MovingSince(cfg, s0, s, step);
    } else if step.ChangeView? || step.Activate? {
      ChangingSince(cfg, s0, s, step);
    } else {
      VotingSince(cfg, s0, s, step);
    }
  }

  lemma {:induction false} PathSince(cfg: Config, log: seq<State>, k: nat)
    requires cfg.Valid() && Path(cfg, log) && k < |log| && Since(cfg, log[0], log[0])
    ensures Since(cfg, log[0], log[k])
  {
    hide Since, Enabled, Apply;
    if k > 0 {
      PathSince(cfg, log, k - 1);
      assert Linked(cfg, log, k - 1);
      var step :| Enabled(cfg, log[k - 1], step) && log[k] == Apply(cfg, log[k - 1], step);
      StepSince(cfg, log[0], log[k - 1], step);
    }
  }

  /** Over any run after a restart, every prepare is for the restored view or a later one, and in the
      restored view for a number above the restored watermark. */
  lemma LaterVotesOnly(cfg: Config, log: seq<State>, k: nat)
    requires cfg.Valid() && Path(cfg, log) && Restarted(cfg, log[0]) && k < |log|
    ensures log[k].id == log[0].id
    ensures forall p :: PrepareMsg(p) in log[k].made ==> log[0].view <= p.v && (p.v == log[0].view ==> log[0].h < p.n)
  {
    hide Next;
    PathSince(cfg, log, k);
  }

  // ----- How it gets to a number above its log -----

  /** Checkpoints at m from c other replicas. */
  function Crowd(id: nat, m: nat, c: nat): set<Checkpoint> {
    if c == 0 then {} else Crowd(id, m, c - 1) + {Checkpoint(m, id + c, "")}
  }

  function CrowdMsgs(id: nat, m: nat, c: nat): set<Msg> {
    if c == 0 then {} else CrowdMsgs(id, m, c - 1) + {CheckpointMsg(Checkpoint(m, id + c, ""))}
  }

  lemma {:induction false} CrowdHas(id: nat, m: nat, c: nat, x: nat)
    requires id < x <= id + c
    ensures Checkpoint(m, x, "") in Crowd(id, m, c) && CheckpointMsg(Checkpoint(m, x, "")) in CrowdMsgs(id, m, c)
    decreases c
  {
    if x < id + c {
      CrowdHas(id, m, c - 1, x);
    }
  }

  lemma IsCounted(m: nat, x: nat, ckpts: set<Checkpoint>, ms: set<Msg>)
    requires Checkpoint(m, x, "") in ckpts && CheckpointMsg(Checkpoint(m, x, "")) in ms
    ensures x in CheckpointVoters(ckpts, m, "") && x in Reporters(ms, m)
  {
    var k := CheckpointMsg(Checkpoint(m, x, ""));
    assert k in ms && k.CheckpointMsg? && m <= k.chkpt.n && k.chkpt.sender == x;
  }

  function Others(id: nat, c: nat): (r: set<nat>)
    ensures forall x :: x in r <==> id < x <= id + c
  {
    if c == 0 then {} else Others(id, c - 1) + {id + c}
  }

  lemma {:induction false} OthersCard(id: nat, c: nat)
    ensures |Others(id, c)| == c
    decreases c
  {
    if c > 0 {
      OthersCard(id, c - 1);
    }
  }

  lemma CrowdCounts(id: nat, m: nat, c: nat, ckpts: set<Checkpoint>, ms: set<Msg>)
    requires Crowd(id, m, c) <= ckpts && CrowdMsgs(id, m, c) <= ms
    ensures |CheckpointVoters(ckpts, m, "")| >= c && |Reporters(ms, m)| >= c
  {
    hide CheckpointVoters, Reporters, Crowd, CrowdMsgs;
    OthersCard(id, c);
    forall x | x in Others(id, c) ensures x in CheckpointVoters(ckpts, m, "") && x in Reporters(ms, m) {
      CrowdHas(id, m, c, x);
      IsCounted(m, x, ckpts, ms);
    }
    SubsetCard(Others(id, c), CheckpointVoters(ckpts, m, ""));
    SubsetCard(Others(id, c), Reporters(ms, m));
  }

  lemma {:induction false} HearsCrowd(cfg: Config, s: State, m: nat, c: nat)
    requires cfg.Valid()
    ensures Leads(cfg, s, s.(got := s.got + CrowdMsgs(s.id, m, c)))
    decreases c
  {
    hide Leads;
    if c == 0 {
      Start(cfg, s);
      assert s.(got := s.got + {}) == s;
    } else {
      HearsCrowd(cfg, s, m, c - 1);
      var s1 := s.(got := s.got + CrowdMsgs(s.id, m, c - 1));
      Hears(cfg, s, s1, CheckpointMsg(Checkpoint(m, s.id + c, "")));
      assert s1.got + {CheckpointMsg(Checkpoint(m, s.id + c, ""))} == s.got + CrowdMsgs(s.id, m, c);
    }
  }

  lemma {:induction false} StoresCrowd(cfg: Config, from: State, s: State, m: nat, k: nat, c: nat)
    requires cfg.Valid() && Leads(cfg, from, s) && InW(cfg, s, m) && k <= c && CrowdMsgs(s.id, m, c) <= s.got
    ensures Leads(cfg, from, s.(ckpts := s.ckpts + Crowd(s.id, m, k)))
    decreases k
  {
    hide Leads;
    if k == 0 {
      assert s.(ckpts := s.ckpts + {}) == s;
    } else {
      StoresCrowd(cfg, from, s, m, k - 1, c);
      var s1, x := s.(ckpts := s.ckpts + Crowd(s.id, m, k - 1)), Checkpoint(m, s.id + k, "");
      CrowdHas(s.id, m, c, s.id + k);
      TakeStep(cfg, from, s1, StoreCheckpoint(x));
      assert s1.ckpts + {x} == s.ckpts + Crowd(s.id, m, k);
    }
  }

  /** Still in the restored view with an empty log, with n between the watermarks. */
  ghost predicate Waits(cfg: Config, s: State, s': State, n: nat) {
    && s'.id == s.id && s'.view == s.view && s'.active && s'.certs == map[] && s'.acts == map[] && s'.made == {}
    && InW(cfg, s', n)
  }

  lemma MovedWaits(cfg: Config, s: State, s': State, m: nat, n: nat)
    requires cfg.Valid() && Restarted(cfg, s) && m < n <= m + cfg.L()
    requires s'.id == s.id && s'.view == s.view && s'.active && s'.certs == map[] && s'.acts == map[] && s'.made == {}
    ensures Waits(cfg, s, Move(s', m), n)
  {
  }

  lemma WindowReaches(cfg: Config, s: State, n: nat) returns (s': State)
    requires cfg.Valid() && Restarted(cfg, s) && s.h < n
    ensures Leads(cfg, s, s') && Waits(cfg, s, s', n)
  {
    hide Leads, Waits, Move, CheckpointVoters, Reporters;
    LogSize(cfg);
    if n <= s.h + cfg.L() {
      s' := s;
      Start(cfg, s);
      StaysWaiting(cfg, s, n);
    } else {
      var m := cfg.Floor(n - 1);
      FloorIsMultiple(cfg, n - 1);
      SumOfMultiples(cfg, s.h, cfg.L());
      FloorMonotone(cfg, s.h + cfg.L(), n - 1);
      if s.h + cfg.L() < m {
        s' := JumpsTo(cfg, s, m, n);
      } else {
        s' := CatchesUp(cfg, s, m, n);
      }
    }
  }

  lemma StaysWaiting(cfg: Config, s: State, n: nat)
    requires cfg.Valid() && Restarted(cfg, s) && s.h < n <= s.h + cfg.L()
    ensures Waits(cfg, s, s, n)
  {
  }

  /** f + 1 reports beyond the log move the watermark ... */
  lemma JumpsTo(cfg: Config, s: State, m: nat, n: nat) returns (s': State)
    requires cfg.Valid() && Restarted(cfg, s) && s.h + cfg.L() < m < n <= m + cfg.L() && cfg.IsMultiple(m)
    ensures Leads(cfg, s, s') && Waits(cfg, s, s', n)
  {
    hide Leads, Waits, Move, Reporters;
    var s1 := s.(got := s.got + CrowdMsgs(s.id, m, cfg.f + 1));
    HearsCrowd(cfg, s, m, cfg.f + 1);
    CrowdCounts(s.id, m, cfg.f + 1, Crowd(s.id, m, cfg.f + 1), s1.Msgs());
    TakeStep(cfg, s, s1, MoveOnReports(m));
    s' := Move(s1.(batches := {}), m);
    MovedWaits(cfg, s, s1.(batches := {}), m, n);
  }

  /** ... and so does a quorum at the high watermark, while it catches up. */
  lemma CatchesUp(cfg: Config, s: State, m: nat, n: nat) returns (s': State)
    requires cfg.Valid() && Restarted(cfg, s) && s.h < m == s.h + cfg.L() < n <= m + cfg.L() && cfg.IsMultiple(m)
    ensures Leads(cfg, s, s') && Waits(cfg, s, s', n)
  {
    hide Leads, Waits, Move, CheckpointVoters;
    var c := cfg.IntersectionQuorum();
    var s1 := s.(got := s.got + CrowdMsgs(s.id, m, c));
    HearsCrowd(cfg, s, m, c);
    StoresCrowd(cfg, s, s1, m, c, c);
    var s2 := s1.(ckpts := s1.ckpts + Crowd(s.id, m, c));
    TakeStep(cfg, s, s2, SkipOn);
    var s3 := s2.(skip := true);
    CrowdCounts(s.id, m, c, s3.ckpts, s3.got);
    TakeStep(cfg, s, s3, MoveOnQuorum(Checkpoint(m, s.id + 1, "")));
    s' := Move(s3, m);
    MovedWaits(cfg, s, s3, m, n);
  }

  // ----- The contradicting vote -----

  lemma VotesAnew(cfg: Config, from: State, s: State, p: PrePrepare)
    requires cfg.Valid() && Leads(cfg, from, s) && s.active && s.certs == map[] && s.made == {}
    requires p.v == s.view && InW(cfg, s, p.n) && p.sender == cfg.Primary(p.v) != s.id
    requires p.d == Null || p.d == Hash(p.batch)
    ensures exists s' :: Leads(cfg, from, s') && PrepareMsg(Prepare(p.v, p.n, p.d, s.id)) in s'.made
  {
    hide Leads;
    TakeStep(cfg, from, s, KeepBatch(Hash(p.batch)));
    var s1 := s.(batches := s.batches + {Hash(p.batch)});
    Hears(cfg, from, s1, PrePrepareMsg(p));
    var s2 := s1.(got := s1.got + {PrePrepareMsg(p)});
    TakeStep(cfg, from, s2, AcceptPrePrepare(p));
    var s3 := DoAcceptPrePrepare(s2, p);
    assert s3.certs[Slot(p.v, p.n)] == EmptyCert.(prePrepare := Some(p), digest := p.d);
    TakeStep(cfg, from, s3, CastPrepare(p.n));
    assert PrepareMsg(Prepare(p.v, p.n, p.d, s.id)) in DoCastPrepare(s3, p.n).made;
  }

  /** Votes are not stored. A replica that starts again, in a view that is not before that of its old
      prepare q, can contradict q exactly if it starts in the very view of q and below its number. */
  lemma RestartContradictsIff(cfg: Config, s: State, q: Prepare)
    requires cfg.Valid() && Restarted(cfg, s) && q.sender == s.id != cfg.Primary(q.v) && q.v <= s.view
    ensures CanContradict(cfg, s, q) <==> s.view == q.v && s.h < q.n
  {
    hide Linked, Leads, Waits, Restarted;
    if CanContradict(cfg, s, q) {
      var log :| Path(cfg, log) && log[0] == s && Contradicts(log[|log| - 1], q);
      LaterVotesOnly(cfg, log, |log| - 1);
    }
    if s.view == q.v && s.h < q.n {
      var s1 := WindowReaches(cfg, s, q.n);
      WaitingFacts(cfg, s, s1, q.n);
      var b := RequestBatch("");
      var p := PrePrepare(q.v, q.n, if q.d == Null then Hash(b) else Null, b, cfg.Primary(q.v));
      VotesAnew(cfg, s, s1, p);
      var s' :| Leads(cfg, s, s') && PrepareMsg(Prepare(p.v, p.n, p.d, s.id)) in s'.made;
      assert Contradicts(s', q);
      LeadsIsPath(cfg, s, s');
    }
  }

  lemma LeadsIsPath(cfg: Config, s: State, s': State)
    requires cfg.Valid() && Leads(cfg, s, s')
    ensures exists log :: Path(cfg, log) && log[0] == s && log[|log| - 1] == s'
  {
    hide Linked, PromptLink;
    var log :| PromptPath(cfg, log) && log[0] == s && log[|log| - 1] == s';
  }

  lemma WaitingFacts(cfg: Config, s: State, s': State, n: nat)
    requires Waits(cfg, s, s', n)
    ensures s'.id == s.id && s'.view == s.view && s'.active && s'.certs == map[] && s'.made == {} && InW(cfg, s', n)
  {
  }

  // ----- Restarting from what was stored -----

  /** The stored Q set is the one that the replica had at some point of its run, after it sent q. */
  ghost predicate StoredSince(cfg: Config, id: nat, log: seq<State>, q: Prepare, store: Store)
    requires cfg.Valid()
  {
    && Legal(cfg, id, log) && q.sender == id && PrepareMsg(q) in log[|log| - 1].made
    && store.qset.Some? && ListsQ(store.Q(), CalcQ(log[|log| - 1]))
  }

  ghost predicate NothingLater(store: Store, v: nat) {
    forall e :: e in store.P() + store.Q() ==> e.v <= v
  }

  lemma LogEnd(cfg: Config, id: nat, log: seq<State>)
    requires cfg.Valid() && Legal(cfg, id, log)
    ensures Inv(cfg, log[|log| - 1]) && BackersTell(log[|log| - 1]) && log[|log| - 1].id == id
  {
    hide Inv, Next, BackersTell;
    RunInv(cfg, id, log, |log| - 1);
    RunKeepsBackers(cfg, id, log, |log| - 1);
    RunGoesOn(cfg, id, log, 0, |log| - 1);
  }

  /** What a replica prepared is in the Q set that it stores, as long as its number is above the watermark
      and no batch was lost. */
  lemma VoteIsStored(cfg: Config, id: nat, log: seq<State>, q: Prepare, store: Store) returns (e: PQ)
    requires cfg.Valid() && StoredSince(cfg, id, log, q, store)
    requires q.d != Null && !log[|log| - 1].lost && log[|log| - 1].h < q.n
    ensures e in store.Q() && q.v <= e.v && cfg.Primary(q.v) != id
  {
    hide Inv, Next, CalcQ, OnRecord;
    var s, was := log[|log| - 1], PQ(q.n, q.d, q.v);
    LogEnd(cfg, id, log);
    PreparesAreOwn(cfg, s, q);
    assert Backs(s, was) && Firm(s, was);
    LogParts(cfg, s);
    BackedIsPast(cfg, s, was);
    RecordEntersQ(cfg, s, was);
    e := CalcQ(s)[QKey(q.d, q.n)];
  }

  lemma PreparesAreOwn(cfg: Config, s: State, q: Prepare)
    requires cfg.Valid() && Inv(cfg, s) && PrepareMsg(q) in s.made
    ensures q.sender == s.id != cfg.Primary(q.v)
  {
    hide Window, Certificates, CommitVotes, PrePrepareVotes, PrimarySlots, Views, Accepted, Watermark, CheckpointsTrue,
         Executions, PQTrue, OwnViewChanges, CommitsReported;
  }

  /** For every store written after the replica sent q: the restarted replica is not in an earlier view
      than that of q, and it can contradict q exactly if no stored entry is from a later view and it
      starts below the number of q. */
  method Restart(cfg: Config, ghost id: nat, ghost log: seq<State>, ghost q: Prepare, store: Store)
    returns (r: RestoredReplica)
    requires cfg.Valid() && StoredSince(cfg, id, log, q, store)
    requires q.d != Null && !log[|log| - 1].lost && log[|log| - 1].h < q.n
    ensures fresh(r) && r.cfg == cfg && q.v <= r.view
    ensures if store.chkpts.Some? then LowWatermark(cfg, store, r.h) else r.h == 0
    ensures CanContradict(cfg, r.Protocol(id), q) <==> NothingLater(store, q.v) && r.h < q.n
  {
    ghost var e := VoteIsStored(cfg, id, log, q, store);
    r := new RestoredReplica(cfg, store);
    RestoredView(cfg, store, r.view, e, q.v);
    RestoredLow(cfg, store, r.h);
    RestartContradictsIff(cfg, r.Protocol(id), q);
  }

  lemma RestoredView(cfg: Config, store: Store, view: nat, e: PQ, v: nat)
    requires Greatest(view, EntryViews(store.P() + store.Q())) && e in store.Q() && v <= e.v
    ensures v <= view && (view == v <==> NothingLater(store, v))
  {
    assert e in store.P() + store.Q();
    assert e.v in EntryViews(store.P() + store.Q());
    if view == v {
      forall e' | e' in store.P() + store.Q() ensures e'.v <= v {
        assert e'.v in EntryViews(store.P() + store.Q());
      }
    }
  }

  lemma RestoredLow(cfg: Config, store: Store, h: nat)
    requires cfg.Valid() && if store.chkpts.Some? then LowWatermark(cfg, store, h) else h == 0
    ensures cfg.IsMultiple(h)
  {
  }

  /** A run in which it happens: backup 1 prepares a batch, stores its sets, and starts again. */
  method RestartForgetsVotes(b: RequestBatch) returns (r: RestoredReplica, ghost log: seq<State>)
    ensures Legal(ExampleConfig, 1, log) && PrepareMsg(Vote(b, 1)) in log[|log| - 1].made
    ensures fresh(r) && CanContradict(ExampleConfig, r.Protocol(1), Vote(b, 1))
  {
    BackupPrepares(b, 1);
    EndOfRun(ExampleConfig, 1, Started(b, 1));
    log :| Legal(ExampleConfig, 1, log) && log[|log| - 1] == Started(b, 1);
    var store := Store(Some([]), Some([Entry(b)]), None, None, None);
    OneStored(b);
    r := Restart(ExampleConfig, 1, log, Vote(b, 1), store);
    assert r.h == 0;
  }

  lemma OneStored(b: RequestBatch)
    ensures ListsQ([Entry(b)], CalcQ(Started(b, 1)))
    ensures Started(b, 1).h == 0 && !Started(b, 1).lost
  {
    OneToReport(ExampleConfig, Started(b, 1), 1, Started(b, 1).certs[Slot(0, 1)]);
  }
}
