/** Every step inside a view keeps the invariant. */
module InvariantSteps {
  import opened PbftTypes
  import opened Quorums
  import opened ReplicaSteps
  import opened ReplicaInvariant
  import opened InvariantFrames

  // ----- One certificate changes -----

  /** The step writes one certificate of the current view, inside the window. */
  ghost predicate WritesCert(cfg: Config, s: State, s': State, n: nat, cert: Cert) {
    && InW(cfg, s, n)
    && s'.certs == s.certs[Slot(s.view, n) := cert]
    && CertGrows(s.CertAt(Slot(s.view, n)), cert)
    && s'.chkpts == s.chkpts && s'.exec == s.exec && s'.lastExec == s.lastExec && s'.execs == s.execs
    && s'.ckpts == s.ckpts
  }

  lemma CertWritten(cfg: Config, s: State, s': State, m: Option<Msg>, n: nat, cert: Cert)
    requires cfg.Valid() && Window(cfg, s) && Certificates(cfg, s) && Accepted(cfg, s)
    requires InView(s, s', m) && WritesCert(cfg, s, s', n, cert)
    requires CertOk(cfg, s', Slot(s.view, n), cert)
    requires forall e :: e in s'.accepted ==> e in s.accepted || AcceptedOk(cfg, s', e)
    ensures Window(cfg, s') && Certificates(cfg, s') && Accepted(cfg, s')
  {
    hide Certificates, Accepted;
    CertificatesFrame(cfg, s, s');
    AcceptedFrame(cfg, s, s');
  }

  /** A step that writes one certificate and makes no message keeps the invariant. */
  lemma KeptByCertWrite(cfg: Config, s: State, s': State, n: nat, cert: Cert)
    requires cfg.Valid() && Inv(cfg, s)
    requires InView(s, s', None) && WritesCert(cfg, s, s', n, cert)
    requires CertOk(cfg, s', Slot(s.view, n), cert)
    requires forall e :: e in s'.accepted ==> e in s.accepted || AcceptedOk(cfg, s', e)
    requires PrimarySlots(cfg, s')
    ensures Inv(cfg, s')
  {
    hide Window, Certificates, PrepareVotes, CommitVotes, PrePrepareVotes, PrimarySlots, Views, Accepted, Watermark,
         CheckpointsTrue, Executions, PQTrue, OwnViewChanges, CommitsReported, InView, CertOk, AcceptedOk;
    CertWritten(cfg, s, s', None, n, cert);
    KeptInView(cfg, s, s', None);
  }

  lemma AcceptWrites(cfg: Config, s: State, p: PrePrepare)
    requires cfg.Valid() && Certificates(cfg, s)
    requires CanAcceptPrePrepare(cfg, s, p)
    ensures var s' := DoAcceptPrePrepare(s, p);
            var cert := s'.certs[Slot(s.view, p.n)];
            InView(s, s', None) && WritesCert(cfg, s, s', p.n, cert) && CertOk(cfg, s', Slot(s.view, p.n), cert)
  {
    var slot := Slot(p.v, p.n);
    assert slot in s.certs ==> CertOk(cfg, s, slot, s.certs[slot]);
  }

  lemma KeptByAcceptPrePrepare(cfg: Config, s: State, p: PrePrepare)
    requires cfg.Valid() && Inv(cfg, s)
    requires CanAcceptPrePrepare(cfg, s, p)
    ensures Inv(cfg, DoAcceptPrePrepare(s, p))
  {
    hide Window, Certificates, PrepareVotes, CommitVotes, PrePrepareVotes, PrimarySlots, Views, Accepted, Watermark,
         CheckpointsTrue, Executions, PQTrue, OwnViewChanges, CommitsReported, InView, WritesCert, CertOk, AcceptedOk;
    var s' := DoAcceptPrePrepare(s, p);
    AcceptWrites(cfg, s, p);
    AcceptedFromPrimary(cfg, s, s', p);
    OwnPrePrepareIsKnown(cfg, s, p);
    KeptByCertWrite(cfg, s, s', p.n, s'.certs[Slot(p.v, p.n)]);
  }

  lemma OwnPrePrepareIsKnown(cfg: Config, s: State, p: PrePrepare)
    requires cfg.Valid() && PrePrepareVotes(cfg, s) && PrimarySlots(cfg, s)
    requires CanAcceptPrePrepare(cfg, s, p)
    ensures PrimarySlots(cfg, DoAcceptPrePrepare(s, p))
  {
    assert CanHear(cfg, s, PrePrepareMsg(p));
  }

  /** A pre-prepare of the primary that fits the certificate does not contradict the new view. */
  lemma AcceptedFromPrimary(cfg: Config, s: State, s': State, p: PrePrepare)
    requires cfg.Valid() && Views(cfg, s)
    requires s.active && p.v == s.view && InW(cfg, s, p.n) && p.sender == cfg.Primary(p.v)
    requires s.CertAt(Slot(p.v, p.n)).digest in {Null, p.d}
    requires s'.view == s.view && s'.active == s.active && s'.acts == s.acts
    requires PrePrepareMsg(p) in s'.Msgs()
    ensures AcceptedOk(cfg, s', PQ(p.n, p.d, p.v))
  {
    assert FromPrimary(cfg, s', PQ(p.n, p.d, p.v));
    if 0 < s.view {
      assert ActOk(cfg, s, s.view, s.acts[s.view]);
    }
  }

  lemma CountPrepareWrites(cfg: Config, s: State, p: Prepare)
    requires cfg.Valid() && Certificates(cfg, s) && PrimarySlots(cfg, s)
    requires CanCountPrepare(cfg, s, p)
    ensures var s' := DoCountPrepare(s, p);
            var cert := s'.certs[Slot(s.view, p.n)];
            InView(s, s', None) && WritesCert(cfg, s, s', p.n, cert) && CertOk(cfg, s', Slot(s.view, p.n), cert)
    ensures PrimarySlots(cfg, DoCountPrepare(s, p))
  {
    var slot := Slot(p.v, p.n);
    assert slot in s.certs ==> CertOk(cfg, s, slot, s.certs[slot]);
    PrimarySlotsFrame(cfg, s, DoCountPrepare(s, p));
  }

  lemma KeptByCountPrepare(cfg: Config, s: State, p: Prepare)
    requires cfg.Valid() && Inv(cfg, s)
    requires CanCountPrepare(cfg, s, p)
    ensures Inv(cfg, DoCountPrepare(s, p))
  {
    hide Window, Certificates, PrepareVotes, CommitVotes, PrePrepareVotes, PrimarySlots, Views, Accepted, Watermark,
         CheckpointsTrue, Executions, PQTrue, OwnViewChanges, CommitsReported, InView, WritesCert, CertOk, AcceptedOk;
    var s' := DoCountPrepare(s, p);
    CountPrepareWrites(cfg, s, p);
    KeptByCertWrite(cfg, s, s', p.n, s'.certs[Slot(p.v, p.n)]);
  }

  lemma CountCommitWrites(cfg: Config, s: State, c: Commit)
    requires cfg.Valid() && Certificates(cfg, s) && PrimarySlots(cfg, s)
    requires CanCountCommit(cfg, s, c)
    ensures var s' := DoCountCommit(s, c);
            var cert := s'.certs[Slot(s.view, c.n)];
            InView(s, s', None) && WritesCert(cfg, s, s', c.n, cert) && CertOk(cfg, s', Slot(s.view, c.n), cert)
    ensures PrimarySlots(cfg, DoCountCommit(s, c))
  {
    var slot := Slot(c.v, c.n);
    assert slot in s.certs ==> CertOk(cfg, s, slot, s.certs[slot]);
    PrimarySlotsFrame(cfg, s, DoCountCommit(s, c));
  }

  lemma KeptByCountCommit(cfg: Config, s: State, c: Commit)
    requires cfg.Valid() && Inv(cfg, s)
    requires CanCountCommit(cfg, s, c)
    ensures Inv(cfg, DoCountCommit(s, c))
  {
    hide Window, Certificates, PrepareVotes, CommitVotes, PrePrepareVotes, PrimarySlots, Views, Accepted, Watermark,
         CheckpointsTrue, Executions, PQTrue, OwnViewChanges, CommitsReported, InView, WritesCert, CertOk, AcceptedOk;
    var s' := DoCountCommit(s, c);
    CountCommitWrites(cfg, s, c);
    KeptByCertWrite(cfg, s, s', c.n, s'.certs[Slot(c.v, c.n)]);
  }

  // ----- Votes -----

  lemma PrePrepareIssued(cfg: Config, s: State, b: RequestBatch)
    requires cfg.Valid() && PrePrepareVotes(cfg, s) && Views(cfg, s)
    requires CanIssuePrePrepare(cfg, s, b)
    ensures PrePrepareVotes(cfg, DoIssuePrePrepare(s, b))
  {
  }

  lemma IssueWrites(cfg: Config, s: State, b: RequestBatch)
    requires cfg.Valid() && Certificates(cfg, s) && PrimarySlots(cfg, s)
    requires CanIssuePrePrepare(cfg, s, b)
    ensures var s', p := DoIssuePrePrepare(s, b), IssuedPrePrepare(s, b);
            var cert := s'.certs[Slot(s.view, p.n)];
            && InView(s, s', Some(PrePrepareMsg(p))) && WritesCert(cfg, s, s', p.n, cert)
            && CertOk(cfg, s', Slot(s.view, p.n), cert)
            && s.CertAt(Slot(s.view, p.n)).digest == Null
    ensures PrimarySlots(cfg, DoIssuePrePrepare(s, b))
  {
    var p := IssuedPrePrepare(s, b);
    var slot := Slot(p.v, p.n);
    assert slot in s.certs ==> s.certs[slot].prePrepare.None? && CertOk(cfg, s, slot, s.certs[slot]);
    PrimarySlotsFrame(cfg, s, DoIssuePrePrepare(s, b));
  }

  lemma KeptByIssuePrePrepare(cfg: Config, s: State, b: RequestBatch)
    requires cfg.Valid() && Inv(cfg, s)
    requires CanIssuePrePrepare(cfg, s, b)
    ensures Inv(cfg, DoIssuePrePrepare(s, b))
  {
    hide Window, Certificates, PrepareVotes, CommitVotes, PrePrepareVotes, PrimarySlots, Views, Accepted, Watermark,
         CheckpointsTrue, Executions, PQTrue, OwnViewChanges, CommitsReported, InView, CertOk, AcceptedOk;
    var s' := DoIssuePrePrepare(s, b);
    var p := IssuedPrePrepare(s, b);
    IssueWrites(cfg, s, b);
    AcceptedFromPrimary(cfg, s, s', p);
    PrePrepareIssued(cfg, s, b);
    CertWritten(cfg, s, s', Some(PrePrepareMsg(p)), p.n, s'.certs[Slot(p.v, p.n)]);
    KeptInView(cfg, s, s', Some(PrePrepareMsg(p)));
  }

  // Preparing in an accepted pre-prepare, and in the assignments of a new view.

  lemma PrepareCast(cfg: Config, s: State, s': State, n: nat, d: Digest)
    requires cfg.Valid() && PrepareVotes(cfg, s)
    requires InView(s, s', Some(PrepareMsg(Prepare(s.view, n, d, s.id))))
    requires s.active && s.id != cfg.Primary(s.view)
    requires PQ(n, d, s.view) in s'.accepted
    requires s.h < n ==> Slot(s.view, n) in s'.certs && s'.certs[Slot(s.view, n)].sentPrepare
    requires forall p :: PrepareMsg(p) in s.made ==> !(p.v == s.view && p.n == n)
    ensures PrepareVotes(cfg, s')
  {
    forall p | PrepareMsg(p) in s'.made && PrepareMsg(p) in s.made && p.v == s.view && s.h < p.n
      ensures Slot(p.v, p.n) in s'.certs && s'.certs[Slot(p.v, p.n)].sentPrepare
    {
      assert Slot(p.v, p.n) in s.certs;
    }
  }

  lemma CastPrepareWrites(cfg: Config, s: State, n: nat)
    requires cfg.Valid() && Certificates(cfg, s) && PrimarySlots(cfg, s) && Window(cfg, s)
    requires CanCastPrepare(cfg, s, n)
    ensures var s', d := DoCastPrepare(s, n), s.CertAt(Slot(s.view, n)).digest;
            var cert := s'.certs[Slot(s.view, n)];
            && InView(s, s', Some(PrepareMsg(Prepare(s.view, n, d, s.id))))
            && WritesCert(cfg, s, s', n, cert) && CertOk(cfg, s', Slot(s.view, n), cert)
            && PQ(n, d, s.view) in s'.accepted
    ensures PrimarySlots(cfg, DoCastPrepare(s, n))
  {
    var slot := Slot(s.view, n);
    assert CertOk(cfg, s, slot, s.certs[slot]);
    PrimarySlotsFrame(cfg, s, DoCastPrepare(s, n));
  }

  lemma KeptByCastPrepare(cfg: Config, s: State, n: nat)
    requires cfg.Valid() && Inv(cfg, s)
    requires CanCastPrepare(cfg, s, n)
    ensures Inv(cfg, DoCastPrepare(s, n))
  {
    hide Window, Certificates, CommitVotes, PrePrepareVotes, PrimarySlots, Views, Accepted, Watermark,
         CheckpointsTrue, Executions, PQTrue, OwnViewChanges, CommitsReported, InView, CertOk, AcceptedOk;
    var s' := DoCastPrepare(s, n);
    var d := s.CertAt(Slot(s.view, n)).digest;
    var m := Some(PrepareMsg(Prepare(s.view, n, d, s.id)));
    CastPrepareWrites(cfg, s, n);
    PrepareCast(cfg, s, s', n, d);
    CertWritten(cfg, s, s', m, n, s'.certs[Slot(s.view, n)]);
    KeptInView(cfg, s, s', m);
  }

  lemma AssignedSlot(cfg: Config, s: State, n: nat)
    requires cfg.Valid() && Views(cfg, s)
    requires s.view in s.acts && n in s.acts[s.view].nv.xset
    ensures s.h < n ==> Slot(s.view, n) in s.certs && s.certs[Slot(s.view, n)].prePrepare.Some?
    ensures PQ(n, s.acts[s.view].nv.xset[n], s.view) in s.accepted
  {
    assert ActOk(cfg, s, s.view, s.acts[s.view]);
  }

  lemma CastNewViewPrepareWrites(cfg: Config, s: State, n: nat)
    requires cfg.Valid() && Certificates(cfg, s) && PrimarySlots(cfg, s) && Window(cfg, s)
    requires CanCastNewViewPrepare(cfg, s, n)
    requires s.h < n && Slot(s.view, n) in s.certs && s.certs[Slot(s.view, n)].prePrepare.Some?
    ensures var s', d := DoCastNewViewPrepare(s, n), s.acts[s.view].nv.xset[n];
            var cert := s'.certs[Slot(s.view, n)];
            && InView(s, s', Some(PrepareMsg(Prepare(s.view, n, d, s.id))))
            && WritesCert(cfg, s, s', n, cert) && CertOk(cfg, s', Slot(s.view, n), cert) && cert.sentPrepare
    ensures PrimarySlots(cfg, DoCastNewViewPrepare(s, n))
  {
    var slot := Slot(s.view, n);
    assert CertOk(cfg, s, slot, s.certs[slot]);
    PrimarySlotsFrame(cfg, s, DoCastNewViewPrepare(s, n));
  }

  /** A prepare below the watermark leaves the log alone. */
  lemma LatePrepareKeeps(cfg: Config, s: State, s': State, p: Prepare)
    requires cfg.Valid() && Window(cfg, s) && Certificates(cfg, s) && Accepted(cfg, s) && PrimarySlots(cfg, s)
    requires s' == s.(made := s.made + {PrepareMsg(p)})
    ensures InView(s, s', Some(PrepareMsg(p)))
    ensures Window(cfg, s') && Certificates(cfg, s') && Accepted(cfg, s') && PrimarySlots(cfg, s')
  {
    hide Window, Certificates, Accepted, PrimarySlots;
    CertificatesFrame(cfg, s, s');
    AcceptedFrame(cfg, s, s');
    PrimarySlotsFrame(cfg, s, s');
    WindowSame(cfg, s, s');
  }

  lemma WindowSame(cfg: Config, s: State, s': State)
    requires cfg.Valid() && Window(cfg, s)
    requires s' == s.(got := s'.got, made := s'.made, batches := s'.batches, skip := s'.skip, ckpts := s'.ckpts)
    ensures Window(cfg, s')
  {
  }

  lemma KeptByCastNewViewPrepare(cfg: Config, s: State, n: nat)
    requires cfg.Valid() && Inv(cfg, s)
    requires CanCastNewViewPrepare(cfg, s, n)
    ensures Inv(cfg, DoCastNewViewPrepare(s, n))
  {
    hide Window, Certificates, PrepareVotes, CommitVotes, PrePrepareVotes, PrimarySlots, Views, Accepted, Watermark,
         CheckpointsTrue, Executions, PQTrue, OwnViewChanges, CommitsReported, CertOk, AcceptedOk;
    var s' := DoCastNewViewPrepare(s, n);
    var d := s.acts[s.view].nv.xset[n];
    var p := Prepare(s.view, n, d, s.id);
    AssignedSlot(cfg, s, n);
    if s.h < n {
      CastNewViewPrepareWrites(cfg, s, n);
      CertWritten(cfg, s, s', Some(PrepareMsg(p)), n, s'.certs[Slot(s.view, n)]);
    } else {
      LatePrepareKeeps(cfg, s, s', p);
    }
    PrepareCast(cfg, s, s', n, d);
    KeptInView(cfg, s, s', Some(PrepareMsg(p)));
  }

  // ----- Commits -----

  ghost function PrepareSenders(ps: seq<Prepare>, v: nat, n: nat, d: Digest): set<nat> {
    set p | p in ps && p.v == v && p.n == n && p.d == d :: p.sender
  }

  lemma {:induction false} CountedPreparersDistinct(ps: seq<Prepare>, v: nat, n: nat, d: Digest)
    requires forall i, j :: 0 <= i < j < |ps| ==> ps[i].sender != ps[j].sender
    ensures CountPrepares(ps, v, n, d) == |PrepareSenders(ps, v, n, d)|
  {
    if ps != [] {
      CountedPreparersDistinct(ps[..|ps| - 1], v, n, d);
      SendersOfPrefix(ps, v, n, d);
    }
  }

  lemma SendersOfPrefix(ps: seq<Prepare>, v: nat, n: nat, d: Digest)
    requires ps != [] && forall i, j :: 0 <= i < j < |ps| ==> ps[i].sender != ps[j].sender
    ensures var init, last := ps[..|ps| - 1], ps[|ps| - 1];
            && last.sender !in PrepareSenders(init, v, n, d)
            && PrepareSenders(ps, v, n, d) ==
                 PrepareSenders(init, v, n, d) + if last.v == v && last.n == n && last.d == d then {last.sender} else {}
  {
    var init, last := ps[..|ps| - 1], ps[|ps| - 1];
    assert ps == init + [last];
    assert forall p :: p in ps <==> p in init || p == last;
  }

  /** The counting loop of `prepared` counts replicas other than the primary whose prepares were
      received. */
  lemma PreparedIsEvidence(cfg: Config, s: State, slot: Slot)
    requires cfg.Valid() && Window(cfg, s) && Certificates(cfg, s)
    requires SlotPrepared(cfg, s, slot)
    ensures PreparedEvidence(cfg, s.Msgs(), slot.v, slot.n, s.certs[slot].digest)
    ensures PQ(slot.n, s.certs[slot].digest, slot.v) in s.accepted
  {
    PreparedByCert(cfg, s, slot);
    var cert := s.certs[slot];
    assert CertOk(cfg, s, slot, cert);
    CountedPreparersDistinct(cert.prepare, slot.v, slot.n, cert.digest);
    var counted := PrepareSenders(cert.prepare, slot.v, slot.n, cert.digest);
    forall x | x in counted ensures x in Preparers(cfg, s.Msgs(), slot.v, slot.n, cert.digest) {
      var p :| p in cert.prepare && p.v == slot.v && p.n == slot.n && p.d == cert.digest && p.sender == x;
      assert PrepareMsg(p) in s.Msgs();
    }
    SubsetCard(counted, Preparers(cfg, s.Msgs(), slot.v, slot.n, cert.digest));
  }

  ghost function CommitSenders(cs: seq<Commit>, v: nat, n: nat): set<nat> {
    set c | c in cs && c.v == v && c.n == n :: c.sender
  }

  lemma {:induction false} CountedCommittersDistinct(cs: seq<Commit>, v: nat, n: nat)
    requires forall i, j :: 0 <= i < j < |cs| ==> cs[i].sender != cs[j].sender
    ensures CountCommits(cs, v, n) == |CommitSenders(cs, v, n)|
  {
    if cs != [] {
      var init, last := cs[..|cs| - 1], cs[|cs| - 1];
      CountedCommittersDistinct(init, v, n);
      assert forall c :: c in cs <==> c in init || c == last;
      assert last.sender !in CommitSenders(init, v, n);
      assert CommitSenders(cs, v, n) ==
             if last.v == v && last.n == n then CommitSenders(init, v, n) + {last.sender}
             else CommitSenders(init, v, n);
    } else {
      assert CommitSenders(cs, v, n) == {};
    }
  }

  lemma CommittedIsEvidence(cfg: Config, s: State, slot: Slot)
    requires cfg.Valid() && Certificates(cfg, s)
    requires slot in s.certs
    ensures |Committers(s.Msgs(), slot.v, slot.n)| >= CountCommits(s.certs[slot].commit, slot.v, slot.n)
  {
    var cert := s.certs[slot];
    assert CertOk(cfg, s, slot, cert);
    CountedCommittersDistinct(cert.commit, slot.v, slot.n);
    var counted := CommitSenders(cert.commit, slot.v, slot.n);
    forall x | x in counted ensures x in Committers(s.Msgs(), slot.v, slot.n) {
      var c :| c in cert.commit && c.v == slot.v && c.n == slot.n && c.sender == x;
      assert CommitMsg(c) in s.Msgs();
    }
    SubsetCard(counted, Committers(s.Msgs(), slot.v, slot.n));
  }

  lemma CommitCast(cfg: Config, s: State, s': State, n: nat, d: Digest)
    requires cfg.Valid() && CommitVotes(cfg, s)
    requires InView(s, s', Some(CommitMsg(Commit(s.view, n, d, s.id))))
    requires s.active && s.h < n
    requires Slot(s.view, n) in s.certs && !s.certs[Slot(s.view, n)].sentCommit
    requires Slot(s.view, n) in s'.certs && s'.certs[Slot(s.view, n)].sentCommit
    requires PQ(n, d, s.view) in s.accepted && PreparedEvidence(cfg, s.Msgs(), s.view, n, d)
    ensures CommitVotes(cfg, s')
  {
    forall c | CommitMsg(c) in s'.made
      ensures PreparedEvidence(cfg, s'.Msgs(), c.v, c.n, c.d)
    {
      PreparedEvidenceGrows(cfg, s.Msgs(), s'.Msgs(), c.v, c.n, c.d);
    }
    forall c | CommitMsg(c) in s.made && c.v == s.view && s.h < c.n
      ensures Slot(c.v, c.n) in s'.certs && s'.certs[Slot(c.v, c.n)].sentCommit
    {
      assert Slot(c.v, c.n) in s.certs;
    }
  }

  lemma CastCommitWrites(cfg: Config, s: State, n: nat)
    requires cfg.Valid() && Certificates(cfg, s) && PrimarySlots(cfg, s) && Window(cfg, s)
    requires CanCastCommit(cfg, s, n)
    ensures var s', d := DoCastCommit(s, n), s.CertAt(Slot(s.view, n)).digest;
            var cert := s'.certs[Slot(s.view, n)];
            && InView(s, s', Some(CommitMsg(Commit(s.view, n, d, s.id))))
            && WritesCert(cfg, s, s', n, cert) && CertOk(cfg, s', Slot(s.view, n), cert) && cert.sentCommit
            && s.active
    ensures PrimarySlots(cfg, DoCastCommit(s, n))
  {
    var slot := Slot(s.view, n);
    assert CertOk(cfg, s, slot, s.certs[slot]);
    PrimarySlotsFrame(cfg, s, DoCastCommit(s, n));
  }

  /** The commit just made is for a slot that is prepared; older ones are not affected. */
  lemma CommitReported(cfg: Config, s: State, n: nat)
    requires cfg.Valid() && CommitsReported(cfg, s) && OwnViewChanges(cfg, s)
    requires Window(cfg, s) && Certificates(cfg, s)
    requires CanCastCommit(cfg, s, n)
    requires Window(cfg, DoCastCommit(s, n)) && Certificates(cfg, DoCastCommit(s, n))
    ensures CommitsReported(cfg, DoCastCommit(s, n))
  {
    hide Window, Certificates;
    var s' := DoCastCommit(s, n);
    if !s.lost {
      forall c | CommitMsg(c) in s'.made && c.d != Null && s.h < c.n ensures StillPrepared(cfg, s', c) {
        if CommitMsg(c) in s.made {
          assert StillPrepared(cfg, s, c);
        }
        if c.v == s.view {
          PreparedByCert(cfg, s, Slot(c.v, c.n));
          PreparedByCert(cfg, s', Slot(c.v, c.n));
        }
      }
    }
  }

  lemma KeptByCastCommit(cfg: Config, s: State, n: nat)
    requires cfg.Valid() && Inv(cfg, s)
    requires CanCastCommit(cfg, s, n)
    ensures Inv(cfg, DoCastCommit(s, n))
  {
    hide Window, Certificates, PrepareVotes, CommitVotes, PrePrepareVotes, PrimarySlots, Views, Accepted, Watermark,
         CheckpointsTrue, Executions, PQTrue, OwnViewChanges, CommitsReported, InView, CertOk, AcceptedOk;
    var s' := DoCastCommit(s, n);
    var d := s.CertAt(Slot(s.view, n)).digest;
    var m := Some(CommitMsg(Commit(s.view, n, d, s.id)));
    CastCommitWrites(cfg, s, n);
    PreparedIsEvidence(cfg, s, Slot(s.view, n));
    CommitCast(cfg, s, s', n, d);
    CertWritten(cfg, s, s', m, n, s'.certs[Slot(s.view, n)]);
    CommitReported(cfg, s, n);
    KeptInView(cfg, s, s', m);
  }
}
