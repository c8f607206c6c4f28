/** Receiving, executing, moving the watermarks and changing the view keep the invariant. */
module InvariantMoves {
  import opened PbftTypes
  import opened Quorums
  import opened NewViewRule
  import opened ReplicaSteps
  import opened ReplicaInvariant
  import opened InvariantFrames
  import opened InvariantSteps

  // ----- Steps that leave the certificates alone -----

  /** Nothing but the received messages, the batches, the stored checkpoints and the flag changes. */
  lemma KeptByQuietStep(cfg: Config, s: State, s': State)
    requires cfg.Valid() && Inv(cfg, s)
    requires s' == s.(got := s'.got, batches := s'.batches, skip := s'.skip, ckpts := s'.ckpts)
    requires s.got <= s'.got && s.batches <= s'.batches
    requires forall m :: m in s'.got ==> m in s.got || CanHear(cfg, s', m)
    requires forall k :: k in s'.ckpts ==> CheckpointMsg(k) in s'.Msgs()
    ensures Inv(cfg, s')
  {
    hide Window, Certificates, PrepareVotes, CommitVotes, PrePrepareVotes, PrimarySlots, Views, Accepted, Watermark,
         Executions, PQTrue, OwnViewChanges, CommitsReported, CertOk, AcceptedOk;
    CertificatesFrame(cfg, s, s');
    AcceptedFrame(cfg, s, s');
    PrimarySlotsFrame(cfg, s, s');
    WindowSame(cfg, s, s');
    KeptInView(cfg, s, s', None);
  }

  /** Only execution and own checkpoints change. */
  ghost predicate ExecStep(s: State, s': State, m: Option<Msg>) {
    && s' == s.(exec := s'.exec, execs := s'.execs, lastExec := s'.lastExec, chkpts := s'.chkpts, made := s'.made)
    && s.lastExec <= s'.lastExec
    && s'.made == (if m.Some? then s.made + {m.value} else s.made)
  }

  lemma KeptByExecStep(cfg: Config, s: State, s': State, m: Option<Msg>)
    requires cfg.Valid() && Inv(cfg, s)
    requires ExecStep(s, s', m)
    requires m.Some? ==> m.value.CheckpointMsg? && CheckpointsTrue(cfg, s')
    requires Window(cfg, s') && Executions(cfg, s')
    ensures Inv(cfg, s')
  {
    hide Window, Certificates, PrepareVotes, CommitVotes, PrePrepareVotes, PrimarySlots, Views, Accepted, Watermark,
         CheckpointsTrue, Executions, PQTrue, OwnViewChanges, CommitsReported, CertOk, AcceptedOk;
    CertificatesFrame(cfg, s, s');
    AcceptedFrame(cfg, s, s');
    PrimarySlotsFrame(cfg, s, s');
    KeptInView(cfg, s, s', m);
  }

  /** An execution starts at the next number, backed by a commit quorum. */
  lemma KeptByStartExec(cfg: Config, s: State, n: nat)
    requires cfg.Valid() && Inv(cfg, s)
    requires CanStartExec(cfg, s, n)
    ensures Inv(cfg, DoStartExec(s, n))
  {
    hide Certificates, PrepareVotes, CommitVotes, PrePrepareVotes, PrimarySlots, Views, Accepted, Watermark,
         CheckpointsTrue, PQTrue, OwnViewChanges, CommitsReported;
    var s' := DoStartExec(s, n);
    var slot := Slot(s.view, n);
    PreparedIsEvidence(cfg, s, slot);
    CommittedIsEvidence(cfg, s, slot);
    forall i | 0 <= i < |s.execs| ensures ExecOk(cfg, s', s.execs[i]) {
      assert ExecOk(cfg, s, s.execs[i]);
    }
    KeptByExecStep(cfg, s, s', None);
  }

  lemma KeptByFinishExec(cfg: Config, s: State)
    requires cfg.Valid() && Inv(cfg, s)
    requires s.exec == Some(s.lastExec + 1)
    ensures Inv(cfg, s.(lastExec := s.lastExec + 1))
  {
    hide Certificates, PrepareVotes, CommitVotes, PrePrepareVotes, PrimarySlots, Views, Accepted, Watermark,
         CheckpointsTrue, Executions, PQTrue, OwnViewChanges, CommitsReported;
    var s' := s.(lastExec := s.lastExec + 1);
    ExecutionsFrame(cfg, s, s');
    KeptByExecStep(cfg, s, s', None);
  }

  lemma KeptByReleaseExec(cfg: Config, s: State)
    requires cfg.Valid() && Inv(cfg, s)
    requires s.exec == Some(s.lastExec)
    ensures Inv(cfg, s.(exec := None))
  {
    hide Certificates, PrepareVotes, CommitVotes, PrePrepareVotes, PrimarySlots, Views, Accepted, Watermark,
         CheckpointsTrue, Executions, PQTrue, OwnViewChanges, CommitsReported;
    var s' := s.(exec := None);
    ExecutionsFrame(cfg, s, s');
    KeptByExecStep(cfg, s, s', None);
  }

  lemma CheckpointTaken(cfg: Config, s: State, id: StateId)
    requires cfg.Valid() && CheckpointsTrue(cfg, s)
    requires cfg.IsMultiple(s.lastExec)
    ensures CheckpointsTrue(cfg, DoTakeCheckpoint(s, id))
  {
  }

  lemma KeptByTakeCheckpoint(cfg: Config, s: State, id: StateId)
    requires cfg.Valid() && Inv(cfg, s)
    requires s.exec == Some(s.lastExec) && cfg.IsMultiple(s.lastExec)
    ensures Inv(cfg, DoTakeCheckpoint(s, id))
  {
    hide Certificates, PrepareVotes, CommitVotes, PrePrepareVotes, PrimarySlots, Views, Accepted, Watermark,
         CheckpointsTrue, Executions, PQTrue, OwnViewChanges, CommitsReported;
    var s' := DoTakeCheckpoint(s, id);
    CheckpointTaken(cfg, s, id);
    ExecutionsFrame(cfg, s, s');
    KeptByExecStep(cfg, s, s', Some(CheckpointMsg(Checkpoint(s.lastExec, s.id, id))));
  }

  // ----- Moving the watermark -----

  lemma WindowMoved(cfg: Config, s: State, h: nat)
    requires cfg.Valid() && Window(cfg, s)
    requires cfg.IsMultiple(h) && s.h <= h
    ensures Window(cfg, Move(s, h))
  {
  }

  lemma MoveGrows(cfg: Config, s: State, h: nat)
    requires s.h <= h
    ensures Grows(s, Move(s, h)) && CertsGrow(s, Move(s, h))
    ensures !Move(s, h).lost ==> BatchesKept(s, Move(s, h))
  {
    var s' := Move(s, h);
    if !s'.lost {
      forall slot | slot in s.certs && h < slot.n && s.certs[slot].digest in s.batches && s.certs[slot].digest != Null
        ensures s.certs[slot].digest in s'.batches
      {
        assert !LosesBatch(s, h);
      }
    }
  }

  lemma LogMoved(cfg: Config, s: State, h: nat)
    requires cfg.Valid() && s.h <= h
    ensures Certificates(cfg, s) ==> Certificates(cfg, Move(s, h))
    ensures Accepted(cfg, s) ==> Accepted(cfg, Move(s, h))
    ensures Views(cfg, s) ==> Views(cfg, Move(s, h))
    ensures PrimarySlots(cfg, s) ==> PrimarySlots(cfg, Move(s, h))
  {
    hide Certificates, Accepted, Views, PrimarySlots;
    MoveGrows(cfg, s, h);
    var s' := Move(s, h);
    if Certificates(cfg, s) { CertificatesFrame(cfg, s, s'); }
    if Accepted(cfg, s) { AcceptedFrame(cfg, s, s'); }
    if Views(cfg, s) { ViewsFrame(cfg, s, s'); }
    if PrimarySlots(cfg, s) { PrimarySlotsFrame(cfg, s, s'); }
  }

  lemma VotesMoved(cfg: Config, s: State, h: nat)
    requires cfg.Valid() && s.h <= h
    ensures PrepareVotes(cfg, s) ==> PrepareVotes(cfg, Move(s, h))
    ensures CommitVotes(cfg, s) ==> CommitVotes(cfg, Move(s, h))
    ensures PrePrepareVotes(cfg, s) ==> PrePrepareVotes(cfg, Move(s, h))
  {
    hide PrepareVotes, CommitVotes, PrePrepareVotes;
    MoveGrows(cfg, s, h);
    var s' := Move(s, h);
    if PrepareVotes(cfg, s) { PrepareVotesFrame(cfg, s, s'); }
    if CommitVotes(cfg, s) { CommitVotesFrame(cfg, s, s'); }
    if PrePrepareVotes(cfg, s) { PrePrepareVotesFrame(cfg, s, s'); }
  }

  lemma HistoryMoved(cfg: Config, s: State, h: nat)
    requires cfg.Valid() && s.h <= h
    ensures CheckpointsTrue(cfg, s) ==> CheckpointsTrue(cfg, Move(s, h))
    ensures Executions(cfg, s) ==> Executions(cfg, Move(s, h))
    ensures PQTrue(cfg, s) ==> PQTrue(cfg, Move(s, h))
    ensures OwnViewChanges(cfg, s) ==> OwnViewChanges(cfg, Move(s, h))
  {
    hide CheckpointsTrue, Executions, PQTrue, OwnViewChanges;
    var s' := Move(s, h);
    if CheckpointsTrue(cfg, s) { CheckpointsTrueFrame(cfg, s, s'); }
    if Executions(cfg, s) { ExecutionsFrame(cfg, s, s'); }
    if PQTrue(cfg, s) { PQTrueFrame(cfg, s, s'); }
    if OwnViewChanges(cfg, s) { OwnViewChangesFrame(cfg, s, s'); }
  }

  lemma ReportsMoved(cfg: Config, s: State, h: nat)
    requires cfg.Valid() && s.h <= h
    requires Window(cfg, s) && Certificates(cfg, s) && CommitsReported(cfg, s)
    requires Window(cfg, Move(s, h)) && Certificates(cfg, Move(s, h))
    ensures CommitsReported(cfg, Move(s, h))
  {
    hide Window, Certificates, CommitsReported;
    MoveGrows(cfg, s, h);
    CommitsReportedFrame(cfg, s, Move(s, h));
  }

  lemma KeptByMove(cfg: Config, s: State, h: nat)
    requires cfg.Valid() && Inv(cfg, s)
    requires cfg.IsMultiple(h) && s.h <= h
    requires Watermark(cfg, Move(s, h))
    ensures Inv(cfg, Move(s, h))
  {
    hide Window, Certificates, PrepareVotes, CommitVotes, PrePrepareVotes, PrimarySlots, Views, Accepted, Watermark,
         CheckpointsTrue, Executions, PQTrue, OwnViewChanges, CommitsReported, Move;
    WindowMoved(cfg, s, h);
    LogMoved(cfg, s, h);
    VotesMoved(cfg, s, h);
    HistoryMoved(cfg, s, h);
    ReportsMoved(cfg, s, h);
  }

  lemma VotersAreReporters(cfg: Config, s: State, k: Checkpoint)
    requires cfg.Valid() && CheckpointsTrue(cfg, s)
    requires |CheckpointVoters(s.ckpts, k.n, k.id)| >= cfg.IntersectionQuorum()
    ensures |Reporters(s.Msgs(), cfg.Floor(k.n))| >= cfg.f + 1
  {
    QuorumFacts(cfg);
    var voters := CheckpointVoters(s.ckpts, k.n, k.id);
    forall x | x in voters ensures x in Reporters(s.Msgs(), cfg.Floor(k.n)) {
      var c :| c in s.ckpts && c.n == k.n && c.id == k.id && c.sender == x;
      assert CheckpointMsg(c) in s.Msgs();
    }
    SubsetCard(voters, Reporters(s.Msgs(), cfg.Floor(k.n)));
  }

  lemma ReportersBelow(ms: set<Msg>, m: nat, n: nat)
    requires m <= n
    ensures |Reporters(ms, n)| <= |Reporters(ms, m)|
  {
    SubsetCard(Reporters(ms, n), Reporters(ms, m));
  }

  lemma KeptByMoveOnQuorum(cfg: Config, s: State, k: Checkpoint)
    requires cfg.Valid() && Inv(cfg, s)
    requires CanMoveOnQuorum(cfg, s, k)
    ensures Inv(cfg, Move(s, cfg.Floor(k.n)))
  {
    hide Certificates, PrepareVotes, CommitVotes, PrePrepareVotes, PrimarySlots, Views, Accepted,
         CheckpointsTrue, Executions, PQTrue, OwnViewChanges, CommitsReported, CheckpointVoters, Reporters;
    FloorIsMultiple(cfg, k.n);
    FloorMonotone(cfg, s.h, k.n);
    VotersAreReporters(cfg, s, k);
    KeptByMove(cfg, s, cfg.Floor(k.n));
  }

  lemma AboveLog(cfg: Config, h: nat, n: nat)
    requires cfg.Valid() && cfg.IsMultiple(h)
    requires h + cfg.L() <= n
    ensures h + cfg.L() <= cfg.Floor(n) <= n
    ensures cfg.IsMultiple(cfg.Floor(n))
  {
    LogSize(cfg);
    FloorIsMultiple(cfg, n);
    SumOfMultiples(cfg, h, cfg.L());
    FloorMonotone(cfg, h + cfg.L(), n);
  }

  /** Falling behind discards the batches, and with them the whole log: certificates and P and Q
      entries were all below the new watermark. */
  lemma JumpDiscardsLog(cfg: Config, s: State, n: nat)
    requires cfg.Valid() && Window(cfg, s)
    requires s.h + cfg.L() < n
    ensures var s' := Move(s.(batches := {}), cfg.Floor(n));
            s.h < s'.h && s'.certs == map[] && s'.pset == map[] && s'.qset == map[] && s'.batches == {}
  {
    AboveLog(cfg, s.h, n);
    LogSize(cfg);
    assert s.h < cfg.Floor(n);
  }

  lemma DiscardingBatchesFirst(cfg: Config, s: State, n: nat)
    requires cfg.Valid() && Window(cfg, s)
    requires s.h + cfg.L() < n
    ensures Move(s.(batches := {}), cfg.Floor(n)) == Move(s, cfg.Floor(n)).(batches := {})
  {
    AboveLog(cfg, s.h, n);
  }

  /** With no certificate left, discarding all batches loses nothing. */
  lemma KeptByDiscardingBatches(cfg: Config, s: State)
    requires cfg.Valid() && Inv(cfg, s)
    requires s.certs == map[]
    ensures Inv(cfg, s.(batches := {}))
  {
    hide Window, Certificates, PrepareVotes, CommitVotes, PrePrepareVotes, PrimarySlots, Views, Accepted, Watermark,
         CheckpointsTrue, Executions, PQTrue, OwnViewChanges, CommitsReported;
    var s' := s.(batches := {});
    DiscardKeepsLog(cfg, s);
    PrepareVotesFrame(cfg, s, s');
    CommitVotesFrame(cfg, s, s');
    PrePrepareVotesFrame(cfg, s, s');
    ViewsFrame(cfg, s, s');
    DiscardKeepsHistory(cfg, s);
    CommitsReportedFrame(cfg, s, s');
  }

  lemma DiscardKeepsLog(cfg: Config, s: State)
    requires cfg.Valid() && s.certs == map[]
    requires Window(cfg, s) && Certificates(cfg, s) && Accepted(cfg, s) && PrimarySlots(cfg, s)
    ensures var s' := s.(batches := {});
            Window(cfg, s') && Certificates(cfg, s') && Accepted(cfg, s') && PrimarySlots(cfg, s')
  {
    hide Certificates, Accepted, PrimarySlots;
    CertificatesFrame(cfg, s, s.(batches := {}));
    AcceptedFrame(cfg, s, s.(batches := {}));
    PrimarySlotsFrame(cfg, s, s.(batches := {}));
  }

  lemma DiscardKeepsHistory(cfg: Config, s: State)
    requires cfg.Valid()
    requires Watermark(cfg, s) && CheckpointsTrue(cfg, s) && Executions(cfg, s) && PQTrue(cfg, s)
    requires OwnViewChanges(cfg, s)
    ensures var s' := s.(batches := {});
            && Watermark(cfg, s') && CheckpointsTrue(cfg, s') && Executions(cfg, s')
            && PQTrue(cfg, s') && OwnViewChanges(cfg, s')
  {
    hide Watermark, CheckpointsTrue, Executions, PQTrue, OwnViewChanges;
    var s' := s.(batches := {});
    WatermarkFrame(cfg, s, s');
    CheckpointsTrueFrame(cfg, s, s');
    ExecutionsFrame(cfg, s, s');
    PQTrueFrame(cfg, s, s');
    OwnViewChangesFrame(cfg, s, s');
  }

  lemma KeptByMoveOnReports(cfg: Config, s: State, n: nat)
    requires cfg.Valid() && Inv(cfg, s)
    requires CanMoveOnReports(cfg, s, n)
    ensures Inv(cfg, Move(s.(batches := {}), cfg.Floor(n)))
  {
    hide Certificates, PrepareVotes, CommitVotes, PrePrepareVotes, PrimarySlots, Views, Accepted,
         CheckpointsTrue, Executions, PQTrue, OwnViewChanges, CommitsReported, Reporters;
    var h := cfg.Floor(n);
    AboveLog(cfg, s.h, n);
    ReportersBelow(s.Msgs(), h, n);
    KeptByMove(cfg, s, h);
    JumpDiscardsLog(cfg, s, n);
    DiscardingBatchesFirst(cfg, s, n);
    KeptByDiscardingBatches(cfg, Move(s, h));
  }

  lemma KeptByMoveOnNewView(cfg: Config, s: State, nv: NewView, cp: nat)
    requires cfg.Valid() && Inv(cfg, s)
    requires CanMoveOnNewView(cfg, s, nv, cp)
    ensures Inv(cfg, Move(s, cfg.Floor(cp)))
  {
    hide Certificates, PrepareVotes, CommitVotes, PrePrepareVotes, PrimarySlots, Views, Accepted,
         CheckpointsTrue, Executions, PQTrue, OwnViewChanges, CommitsReported, Selected, Assign;
    FloorIsMultiple(cfg, cp);
    FloorMonotone(cfg, s.h, cp);
    KeptByMove(cfg, s, cfg.Floor(cp));
  }
}
