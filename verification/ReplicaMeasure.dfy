/** What bounds the re-entrant chain of handlers: new-views still to be entered, then null requests
    still to be executed. */
module ReplicaMeasure {
  import opened PbftTypes
  import opened Quorums
  import opened ReplicaSteps
  import opened ViewChangeCauses
  import opened ReplicaLog

  ghost function WaitingViews(newViews: map<nat, NewView>, view: nat, active: bool): set<nat> {
    set v | v in newViews && (view < v || (v == view && !active))
  }

  /** Fewer new-views to enter, or as many and no more null requests to execute. */
  ghost predicate NoMore(views: nat, nulls: nat, views': nat, nulls': nat) {
    views' < views || (views' == views && nulls' <= nulls)
  }

  lemma ViewsShrink(newViews: map<nat, NewView>, view: nat, active: bool, newViews': map<nat, NewView>, view': nat,
      active': bool)
    requires forall v :: v in newViews' ==> v in newViews
    requires view < view' || (view == view' && (active' || !active))
    ensures |WaitingViews(newViews', view', active')| <= |WaitingViews(newViews, view, active)|
  {
    SubsetCard(WaitingViews(newViews', view', active'), WaitingViews(newViews, view, active));
  }

  lemma EnteringShrinks(newViews: map<nat, NewView>, view: nat, newViews': map<nat, NewView>)
    requires forall v :: v in newViews' ==> v in newViews
    requires view in newViews
    ensures |WaitingViews(newViews', view, true)| < |WaitingViews(newViews, view, false)|
  {
    ProperSubsetCard(WaitingViews(newViews', view, true), WaitingViews(newViews, view, false), view);
  }

  lemma ExecutingShrinks(certs: map<Slot, Cert>, spec: nat, slot: Slot)
    requires slot in WaitingNulls(certs, spec)
    ensures |WaitingNulls(certs, slot.n)| < |WaitingNulls(certs, spec)|
  {
    ProperSubsetCard(WaitingNulls(certs, slot.n), WaitingNulls(certs, spec), slot);
  }

  /** Messages made and not yet broadcast. */
  ghost function Unsent(made: set<Msg>, outbox: seq<Msg>): set<Msg> {
    set m | m in made && m !in outbox && !m.FetchMsg?
  }

  lemma UnsentWith(made: set<Msg>, outbox: seq<Msg>, m: Msg)
    requires m !in outbox && !m.FetchMsg?
    ensures Unsent(made + {m}, outbox) == Unsent(made, outbox) + {m}
  {
  }

  lemma SentWith(made: set<Msg>, outbox: seq<Msg>, m: Msg)
    ensures Unsent(made, outbox + [m]) == Unsent(made, outbox) - {m}
  {
  }

  lemma FetchIsNotUnsent(made: set<Msg>, outbox: seq<Msg>, d: Digest, i: nat)
    ensures Unsent(made, outbox) - {FetchMsg(d, i)} == Unsent(made, outbox)
  {
  }

  lemma UnmadeIsNotUnsent(made: set<Msg>, outbox: seq<Msg>, m: Msg)
    requires m !in made
    ensures Unsent(made, outbox) + {m} - {m} == Unsent(made, outbox)
  {
  }

  // ----- What a handler leaves behind -----

  /** A replica between two statements of its handlers, with the measure of the chain. */
  datatype Snapshot = Snapshot(log: seq<State>, now: State, outbox: seq<Msg>, views: nat, nulls: nat,
                               vcSeqNo: Option<nat>)

  /** From a to b the replica went on by protocol steps and broadcasts; it started a new execution
      only if it was free, and the measure did not grow. */
  ghost predicate Evolves(a: Snapshot, b: Snapshot) {
    && a.log <= b.log
    && a.outbox <= b.outbox
    && Onward(a.now, b.now)
    && a.now.got == b.now.got
    && (a.now.skip ==> b.now.skip)
    && (if a.now.exec.Some? then b.now.exec == a.now.exec && b.now.lastExec == a.now.lastExec
        else b.now.exec.None? || b.now.exec == Some(b.now.lastExec + 1))
    && NoMore(a.views, a.nulls, b.views, b.nulls)
  }

  /** If the watermark passed execution, the replica is now catching up. */
  ghost predicate InStep(a: Snapshot, b: Snapshot) {
    b.now.lagging ==> a.now.lagging || b.now.skip
  }

  /** The replica made its view-change for the view after the one of s. */
  ghost predicate LeftFor(s: State, s': State) {
    exists vc: ViewChange :: vc.v == s.view + 1 && vc.sender == s.id && ViewChangeMsg(vc) in s'.made
  }

  /** An active view is still active, and ends at the number it ended at, or it was left for the next. */
  ghost predicate Stepwise(a: Snapshot, b: Snapshot) {
    && a.now.id == b.now.id && a.now.view <= b.now.view && a.now.made <= b.now.made
    && (a.now.active ==>
          if a.now.view == b.now.view then b.now.active && b.vcSeqNo == a.vcSeqNo else LeftFor(a.now, b.now))
  }

  lemma StepwiseTrans(a: Snapshot, b: Snapshot, c: Snapshot)
    requires Stepwise(a, b) && Stepwise(b, c)
    ensures Stepwise(a, c)
  {
    if a.now.active && a.now.view < b.now.view {
      var vc: ViewChange :| vc.v == a.now.view + 1 && vc.sender == a.now.id && ViewChangeMsg(vc) in b.now.made;
      assert ViewChangeMsg(vc) in c.now.made;
    }
  }

  /** Beside that, a replica in an active view stayed in it and prepared nothing, unless it is the primary
      and the next number is prepared before it is given out. */
  ghost predicate Settled(cfg: Config, a: Snapshot, b: Snapshot)
    requires cfg.Valid()
  {
    Stepwise(a, b) && (a.now.active && !Foresaw(cfg, a.now) ==>
      && b.now.id == a.now.id && b.now.got == a.now.got && a.now.seqNo <= b.now.seqNo
      && b.now.active && b.now.view == a.now.view && b.now.acts == a.now.acts && b.vcSeqNo == a.vcSeqNo
      && forall p :: PrepareMsg(p) in b.now.made ==> PrepareMsg(p) in a.now.made)
  }

  lemma LeavingSteps(a: Snapshot, b: Snapshot, vc: ViewChange)
    requires Evolves(a, b) && a.now.view < b.now.view
    requires vc.v == a.now.view + 1 && vc.sender == a.now.id && ViewChangeMsg(vc) in b.now.made
    ensures Stepwise(a, b) && LeftFor(a.now, b.now)
  {
  }

  /** Where the view was to end at its appointed number, it ended, if it had not before. */
  lemma ViewEnds(cfg: Config, a: Snapshot, b: Snapshot, c: Snapshot)
    requires cfg.Valid() && a.now.active && Settled(cfg, a, b) && Stepwise(b, c)
    requires a.vcSeqNo == b.vcSeqNo ==> b.now.view < c.now.view && LeftFor(b.now, c.now)
    ensures a.now.view < c.now.view && LeftFor(a.now, c.now)
  {
    StepwiseTrans(a, b, c);
  }

  function Idle(a: Snapshot): Snapshot {
    a.(now := a.now.(exec := None))
  }

  lemma OnwardTrans(a: State, b: State, c: State)
    requires Onward(a, b) && Onward(b, c)
    ensures Onward(a, c)
  {
  }

  lemma PrefixTrans<T>(a: seq<T>, b: seq<T>, c: seq<T>)
    requires a <= b && b <= c
    ensures a <= c
  {
  }

  lemma EvolvesTrans(a: Snapshot, b: Snapshot, c: Snapshot)
    requires Evolves(a, b) && Evolves(b, c)
    ensures Evolves(a, c)
    ensures InStep(a, b) && InStep(b, c) ==> InStep(a, c)
  {
    OnwardTrans(a.now, b.now, c.now);
    PrefixTrans(a.log, b.log, c.log);
    PrefixTrans(a.outbox, b.outbox, c.outbox);
    hide Onward;
  }

  lemma NothingForeseen(cfg: Config, s: State, s': State)
    requires cfg.Valid() && !Foresaw(cfg, s) && s.active
    requires s'.id == s.id && s'.view == s.view && s'.got == s.got && s.seqNo <= s'.seqNo
    requires forall p :: PrepareMsg(p) in s'.made ==> PrepareMsg(p) in s.made
    ensures !Foresaw(cfg, s')
  {
    forall n: nat, d | s'.seqNo < n && PreparedEvidence(cfg, s'.Msgs(), s'.view, n, d)
      ensures PreparedEvidence(cfg, s.Msgs(), s.view, n, d)
    {
      SubsetCard(Preparers(cfg, s'.Msgs(), s.view, n, d), Preparers(cfg, s.Msgs(), s.view, n, d));
    }
  }

  lemma SettledTrans(cfg: Config, a: Snapshot, b: Snapshot, c: Snapshot)
    requires cfg.Valid() && Settled(cfg, a, b) && Settled(cfg, b, c)
    ensures Settled(cfg, a, c)
  {
    hide Foresaw, LeftFor;
    StepwiseTrans(a, b, c);
    if a.now.active && !Foresaw(cfg, a.now) {
      NothingForeseen(cfg, a.now, b.now);
    }
  }

  lemma EvolvesSelf(cfg: Config, a: Snapshot)
    requires cfg.Valid()
    ensures Evolves(a, a) && InStep(a, a) && Settled(cfg, a, a)
  {
  }

  lemma IdleBoth(a: Snapshot, b: Snapshot)
    requires Evolves(a, b) && a.now.exec.Some?
    ensures Evolves(Idle(a), Idle(b))
  {
  }

  /** Leaving a view empties the log, so no null request is left to execute. */
  lemma LeavingEvolves(a: Snapshot, b: Snapshot)
    requires b.log == a.log + [b.now] && b.outbox == a.outbox && Onward(a.now, b.now)
    requires b.now == a.now.(view := b.now.view, active := b.now.active, pset := b.now.pset, qset := b.now.qset,
                             certs := map[], made := b.now.made)
    requires b.views <= a.views && b.nulls == |WaitingNulls(b.now.certs, b.now.SpecExec())|
    ensures Evolves(a, b) && InStep(a, b)
  {
    assert WaitingNulls(map[], b.now.SpecExec()) == {};
    hide Onward;
  }

  lemma EnteringEvolves(a: Snapshot, b: Snapshot)
    requires b.log == a.log + [b.now] && b.outbox == a.outbox && Onward(a.now, b.now)
    requires b.now == a.now.(active := true, seqNo := b.now.seqNo, certs := b.now.certs, accepted := b.now.accepted,
                             acts := b.now.acts)
    requires b.views < a.views
    ensures Evolves(a, b) && InStep(a, b)
  {
    hide Onward;
  }

  /** One handler statement after another. */
  lemma Then(cfg: Config, a: Snapshot, b: Snapshot, c: Snapshot)
    requires cfg.Valid() && Evolves(a, b) && Evolves(b, c)
    ensures Evolves(a, c) && NoMore(a.views, a.nulls, c.views, c.nulls) && (a.now.exec.Some? ==> c.now.exec.Some?)
    ensures InStep(a, b) && InStep(b, c) ==> InStep(a, c)
    ensures Settled(cfg, a, b) && Settled(cfg, b, c) ==> Settled(cfg, a, c)
    ensures (Stepwise(a, b) || Settled(cfg, a, b)) && (Stepwise(b, c) || Settled(cfg, b, c)) ==> Stepwise(a, c)
  {
    EvolvesTrans(a, b, c);
    if Settled(cfg, a, b) && Settled(cfg, b, c) {
      SettledTrans(cfg, a, b, c);
    }
    if (Stepwise(a, b) || Settled(cfg, a, b)) && (Stepwise(b, c) || Settled(cfg, b, c)) {
      StepwiseTrans(a, b, c);
    }
    hide Onward, Settled, InStep;
  }

  lemma Measured(a: Snapshot, b: Snapshot)
    requires Evolves(a, b)
    ensures NoMore(a.views, a.nulls, b.views, b.nulls) && (a.now.exec.Some? ==> b.now.exec.Some?)
    ensures a.log <= b.log && a.now.made <= b.now.made && a.now.got == b.now.got && (a.now.skip ==> b.now.skip)
    ensures a.now.exec.Some? ==> b.now.exec == a.now.exec && b.now.lastExec == a.now.lastExec
  {
  }

  /** What was the first thing to be recorded stays so. */
  lemma FirstStays<T>(log: seq<T>, s: T, mid: seq<T>, end: seq<T>)
    requires mid == log + [s] && mid <= end
    ensures log + [s] <= end
  {
  }

  lemma SentStays(m: Msg, a: Snapshot, b: Snapshot)
    requires m in a.outbox && Evolves(a, b)
    ensures m in b.outbox
  {
    var i :| 0 <= i < |a.outbox| && a.outbox[i] == m;
    assert b.outbox[i] == m;
  }

  lemma OutboxGoesOn(a: Snapshot, b: Snapshot)
    requires Evolves(a, b)
    ensures a.outbox <= b.outbox
  {
  }

  lemma Rises(a: Snapshot, b: Snapshot)
    requires Evolves(a, b)
    ensures a.now.h <= b.now.h
  {
  }

  /** After a null request was started and finished. */
  lemma IdleThen(cfg: Config, a: Snapshot, b: Snapshot, c: Snapshot)
    requires cfg.Valid() && a.now.exec.None? && b.now.exec.Some?
    requires Evolves(a, b) && Evolves(Idle(b), c)
    ensures Evolves(a, c) && b.log <= c.log
    ensures InStep(a, b) && InStep(b, c) ==> InStep(a, c)
    ensures Settled(cfg, a, b) && Settled(cfg, b, c) ==> Settled(cfg, a, c)
  {
    if Settled(cfg, a, b) && Settled(cfg, b, c) {
      SettledTrans(cfg, a, b, c);
    }
    hide Settled;
    OnwardTrans(a.now, b.now, c.now);
    hide Onward;
  }

  /** A checkpoint was dealt with (b to c), and the replica is free again (e). */
  lemma FreedThen(cfg: Config, b: Snapshot, c: Snapshot, e: Snapshot)
    requires cfg.Valid() && b.now.exec.Some?
    requires Evolves(b, c) && Evolves(Idle(c), e)
    ensures Evolves(Idle(b), e)
    ensures InStep(b, c) && InStep(Idle(c), e) ==> InStep(Idle(b), e)
    ensures Settled(cfg, b, c) && Settled(cfg, c, e) ==> Settled(cfg, b, e)
  {
    IdleBoth(b, c);
    EvolvesTrans(Idle(b), Idle(c), e);
    if Settled(cfg, b, c) && Settled(cfg, c, e) {
      SettledTrans(cfg, b, c, e);
    }
    hide Settled, Evolves;
  }

  /** Execution was finished (a to b) and closed (c), and the next was tried (e). */
  lemma DoneThen(cfg: Config, a: Snapshot, b: Snapshot, c: Snapshot)
    requires cfg.Valid() && Evolves(Idle(a), Idle(b)) && Evolves(Idle(b), c)
    ensures Evolves(Idle(a), c) && NoMore(a.views, a.nulls, c.views, c.nulls) && b.log <= c.log
    ensures InStep(Idle(a), Idle(b)) && InStep(Idle(b), c) ==> InStep(a, c)
    ensures Settled(cfg, a, b) && Settled(cfg, b, c) ==> Settled(cfg, a, c)
  {
    EvolvesTrans(Idle(a), Idle(b), c);
    if Settled(cfg, a, b) && Settled(cfg, b, c) {
      SettledTrans(cfg, a, b, c);
    }
    hide Settled, Onward;
  }

  lemma IdleInStep(a: Snapshot, b: Snapshot, c: Snapshot)
    requires InStep(a, b) && InStep(b, c) && Evolves(b, c)
    ensures InStep(a, c)
  {
  }

  /** Where the appointed number changed, the replica was no active backup. */
  lemma SettledElsewhere(cfg: Config, a: Snapshot, b: Snapshot, c: Snapshot)
    requires cfg.Valid() && Settled(cfg, a, b) && a.vcSeqNo != b.vcSeqNo && Stepwise(a, c)
    ensures Settled(cfg, a, c)
  {
  }

  lemma NoMoreIdle(a: Snapshot, b: Snapshot)
    requires Evolves(Idle(a), Idle(b))
    ensures NoMore(a.views, a.nulls, b.views, b.nulls)
  {
  }

  lemma IdleOfFree(a: Snapshot)
    requires a.now.exec.None?
    ensures Idle(a) == a
  {
  }

  lemma ForesightSettles(cfg: Config, a: Snapshot, b: Snapshot)
    requires cfg.Valid() && Foresaw(cfg, a.now) && Stepwise(a, b)
    ensures Settled(cfg, a, b)
  {
  }

  lemma CatchingUp(a: Snapshot, b: Snapshot)
    requires b.now.skip
    ensures InStep(a, b)
  {
  }

  /** A watermark move that does not pass execution, or is made while catching up. */
  lemma MovedInStep(a: Snapshot, b: Snapshot, low: nat)
    requires Evolves(a, b) && (b.now.lagging ==> a.now.lagging || b.now.skip || a.now.SpecExec() < low)
    requires a.now.skip || low <= a.now.SpecExec()
    ensures InStep(a, b)
  {
  }

  lemma NotBehind(a: Snapshot, b: Snapshot, low: nat)
    requires b.now.lagging ==> a.now.lagging || b.now.skip || a.now.SpecExec() < low
    requires low <= a.now.SpecExec()
    ensures InStep(a, b)
  {
  }

  // ----- Preparing the assignments of a new view -----

  /** The replica is an active backup in view v, and of its prepares there none is for the numbers
      in keys. */
  ghost predicate Preparing(cfg: Config, id: nat, s: State, nv: NewView, v: nat, keys: set<nat>)
    requires cfg.Valid()
  {
    && s.id == id && s.active && s.view == v && cfg.Primary(v) != id
    && v in s.acts && s.acts[v].nv == nv
    && forall p :: PrepareMsg(p) in s.made && p.v == v ==> p.n in nv.xset && p.n !in keys
  }

  lemma PreparingAllows(cfg: Config, id: nat, s: State, nv: NewView, v: nat, keys: set<nat>, n: nat)
    requires cfg.Valid() && Preparing(cfg, id, s, nv, v, keys) && n in keys && n in nv.xset
    ensures CanCastNewViewPrepare(cfg, s, n) && s.acts[s.view].nv.xset[n] == nv.xset[n]
    ensures PrepareMsg(Prepare(v, n, nv.xset[n], id)) !in s.made
  {
  }

  lemma PreparingMarked(cfg: Config, id: nat, s: State, nv: NewView, v: nat, keys: set<nat>, n: nat)
    requires cfg.Valid() && Preparing(cfg, id, s, nv, v, keys) && n in keys && n in nv.xset
    ensures Preparing(cfg, id, DoCastNewViewPrepare(s, n), nv, v, keys - {n})
    ensures PrepareMsg(Prepare(v, n, nv.xset[n], id)) in DoCastNewViewPrepare(s, n).made
    ensures DoCastNewViewPrepare(s, n).view == s.view && DoCastNewViewPrepare(s, n).h == s.h
  {
  }

  lemma PreparingStays(cfg: Config, id: nat, a: Snapshot, b: Snapshot, nv: NewView, v: nat, keys: set<nat>)
    requires cfg.Valid() && Preparing(cfg, id, a.now, nv, v, keys) && Settled(cfg, a, b)
    ensures Preparing(cfg, id, b.now, nv, v, keys) && b.vcSeqNo == a.vcSeqNo && b.now.view == v
  {
  }

  // ----- Between events -----

  ghost predicate Calm(s: State) {
    (s.exec.None? || s.exec == Some(s.lastExec + 1)) && (s.lagging ==> s.skip)
  }

  lemma StaysCalm(a: Snapshot, b: Snapshot)
    requires Calm(a.now) && Evolves(a, b) && InStep(a, b)
    ensures Calm(b.now) && a.log <= b.log && a.outbox <= b.outbox
  {
    hide Onward;
  }

  lemma StaysCalmIdle(a: Snapshot, b: Snapshot)
    requires Calm(a.now) && Evolves(Idle(a), b) && InStep(a, b)
    ensures Calm(b.now) && a.log <= b.log && a.outbox <= b.outbox
    ensures a.now.skip ==> b.now.skip
  {
    hide Onward;
  }

  lemma CalmExec(s: State)
    requires Calm(s)
    ensures s.exec.None? || s.exec == Some(s.lastExec + 1)
  {
  }

  lemma HeardFields(s: State, m: Msg)
    ensures var s' := s.(got := s.got + {m}); m in s'.got && m in s'.Msgs() && (Calm(s) ==> Calm(s'))
  {
  }

  lemma AcceptedCalm(s: State, p: PrePrepare)
    requires Calm(s)
    ensures Calm(DoAcceptPrePrepare(s, p))
  {
  }

  lemma InactiveIsSettled(cfg: Config, a: Snapshot, b: Snapshot)
    requires cfg.Valid() && !a.now.active && Evolves(a, b)
    ensures Settled(cfg, a, b)
  {
  }

  lemma NoMoreFinished(a: Snapshot, b: Snapshot)
    requires Evolves(Idle(a), b)
    ensures NoMore(a.views, a.nulls, b.views, b.nulls)
  {
  }
}
