/** Why a replica leaves its view: the calls of `sendViewChange`. A timeout is not among them. */
module ViewChangeCauses {
  import opened PbftTypes
  import opened NewViewRule
  import opened ReplicaSteps

  /** Replicas that sent a view-change for view w or a later one. */
  ghost function Callers(ms: set<Msg>, w: nat): set<nat> {
    set m | m in ms && m.ViewChangeMsg? && w <= m.vc.v :: m.vc.sender
  }

  /** f + 1 replicas are on their way to view w or further. */
  ghost predicate Joins(cfg: Config, s: State, w: nat) {
    |Callers(s.Msgs(), w)| >= cfg.f + 1
  }

  /** The number at which the view that the replica is in ends by itself. */
  function Limit(cfg: Config, s: State): Option<nat>
    requires cfg.Valid()
  {
    cfg.ViewEnd(if s.view in s.acts then s.acts[s.view].top else 0)
  }

  lemma LimitStays(cfg: Config, s: State, s': State)
    requires cfg.Valid() && s'.view == s.view && s'.acts == s.acts
    ensures Limit(cfg, s') == Limit(cfg, s)
  {
  }

  /** The primary proposes for a number beyond the end of its view, or another digest than before. */
  ghost predicate Offends(cfg: Config, s: State, p: PrePrepare)
    requires cfg.Valid()
  {
    && s.active && PrePrepareMsg(p) in s.got
    && p.sender == cfg.Primary(s.view) && InWV(cfg, s, p.v, p.n)
    && (|| (Limit(cfg, s).Some? && Limit(cfg, s).value < p.n)
        || s.CertAt(Slot(p.v, p.n)).digest !in {Null, p.d})
  }

  /** The replica has seen the request at this view and number committed. */
  ghost predicate SawCommitted(cfg: Config, s: State, e: PQ) {
    e in s.accepted && |Committers(s.Msgs(), e.v, e.n)| >= cfg.IntersectionQuorum()
  }

  /** The last number of the view is committed. */
  ghost predicate Ends(cfg: Config, s: State)
    requires cfg.Valid()
  {
    s.active && exists e: PQ :: e.v == s.view && Limit(cfg, s) == Some(e.n) && SawCommitted(cfg, s, e)
  }

  /** The new-view of the primary does not verify. */
  ghost predicate Unacceptable(cfg: Config, v: nat, nv: NewView)
    requires cfg.Valid()
  {
    && nv.v == v && nv.sender == cfg.Primary(v)
    && forall cp :: Selected(cfg, nv.vset, cp) ==> Assign(cfg, nv.vset, cp) != Some(nv.xset)
  }

  ghost predicate TurnsDown(cfg: Config, s: State)
    requires cfg.Valid()
  {
    !s.active && 0 < s.view && exists nv :: NewViewMsg(nv) in s.got && Unacceptable(cfg, s.view, nv)
  }

  /** A reason to leave the present view for view w. */
  ghost predicate Due(cfg: Config, s: State, w: nat)
    requires cfg.Valid()
  {
    || Joins(cfg, s, w)
    || (w == s.view + 1 && ((exists p :: Offends(cfg, s, p)) || Ends(cfg, s) || TurnsDown(cfg, s)))
  }

  /** A step that leaves the view has a reason in it. */
  ghost predicate Prompt(cfg: Config, s: State, s': State)
    requires cfg.Valid()
  {
    s.view < s'.view ==> Due(cfg, s, s'.view)
  }

  /** A quorum less one of backups prepared a number that the replica has not given out yet. */
  ghost predicate Foresight(cfg: Config, s: State)
    requires cfg.Valid()
  {
    exists n: nat, d :: s.seqNo < n && PreparedEvidence(cfg, s.Msgs(), s.view, n, d)
  }

  ghost predicate Foresaw(cfg: Config, s: State)
    requires cfg.Valid()
  {
    s.active && cfg.Primary(s.view) == s.id && Foresight(cfg, s)
  }

  /** Every step of a run that leaves a view has a reason in that view. There is one exception. The test
      for the last number of a view comes after everything was executed that could be; a primary that
      finds the next number it gives out committed at once is in another view by then. */
  ghost predicate Reasoned(cfg: Config, log: seq<State>)
    requires cfg.Valid()
  {
    forall i :: 0 <= i < |log| - 1 ==> PromptLink(cfg, log, i) || ForesawIn(cfg, log, 0, i + 1)
  }

  ghost predicate PromptLink(cfg: Config, log: seq<State>, i: nat)
    requires cfg.Valid() && i + 1 < |log|
  {
    Prompt(cfg, log[i], log[i + 1])
  }

  ghost predicate ForesawIn(cfg: Config, log: seq<State>, from: nat, end: nat)
    requires cfg.Valid() && end <= |log|
  {
    exists k :: from <= k < end && Foresaw(cfg, log[k])
  }

  lemma ReasonedExtends(cfg: Config, log: seq<State>, s: State)
    requires cfg.Valid() && log != [] && Reasoned(cfg, log)
    requires Prompt(cfg, log[|log| - 1], s) || ForesawIn(cfg, log, 0, |log|)
    ensures Reasoned(cfg, log + [s])
  {
    hide Prompt, Foresaw;
    var log' := log + [s];
    forall i | 0 <= i < |log'| - 1 ensures PromptLink(cfg, log', i) || ForesawIn(cfg, log', 0, i + 1) {
      if ForesawIn(cfg, log, 0, i + 1) {
        var k :| 0 <= k < i + 1 && Foresaw(cfg, log[k]);
        assert log'[k] == log[k];
      } else if i < |log| - 1 {
        assert PromptLink(cfg, log, i);
      }
    }
  }
}
