/** The timer loop as a machine that takes one ready case of its `select` after another, with a trace of
    the cases taken. */
module PbftTimer {
  import opened PbftTypes

  type Event = string

  datatype Case =
    | StartCase(hard: bool, event: Event)
    | StopCase
    | FireCase
    | DeliverCase(event: Event)
    | ExitCase

  // ----- What a trace means -----

  /** A countdown runs after p: some start is followed by neither a stop nor a firing. */
  ghost predicate Counting(p: seq<Case>) {
    exists k :: 0 <= k < |p| && p[k].StartCase? && Uninterrupted(p, k)
  }

  ghost predicate Uninterrupted(p: seq<Case>, k: nat) {
    forall m :: k < m < |p| ==> !p[m].StopCase? && !p[m].FireCase?
  }

  /** A start counts unless it is a soft one during a countdown. */
  ghost predicate Accepted(t: seq<Case>, k: nat)
    requires k < |t|
  {
    t[k].StartCase? && (t[k].hard || !Counting(t[..k]))
  }

  /** The start at k is in charge at j: accepted, and since then no stop, no later accepted start and
      no delivery. */
  ghost predicate InCharge(t: seq<Case>, k: nat, j: nat)
    requires j <= |t|
  {
    && k < j
    && Accepted(t, k)
    && forall m :: k < m < j ==> !t[m].StopCase? && !t[m].DeliverCase? && !Accepted(t, m)
  }

  ghost predicate FiredAt(t: seq<Case>, k: nat, m: nat, j: nat)
    requires j <= |t|
  {
    k < m < j && t[m].FireCase? && forall q :: k < q < j && t[q].FireCase? ==> q == m
  }

  /** The delivery at i hands out the event of the start in charge, which fired once since. */
  ghost predicate Justified(t: seq<Case>, i: nat)
    requires i < |t| && t[i].DeliverCase?
  {
    exists k: nat, m: nat :: InCharge(t, k, i) && t[k].event == t[i].event && FiredAt(t, k, m, i)
  }

  /** The contract of the timer over a whole run. */
  ghost predicate Sound(t: seq<Case>) {
    forall i :: 0 <= i < |t| && t[i].DeliverCase? ==> Justified(t, i)
  }

  // ----- Consequences of the contract -----

  lemma InChargeExcludes(t: seq<Case>, k: nat, j: nat, m: nat)
    requires j <= |t| && InCharge(t, k, j) && k < m < j
    ensures !t[m].StopCase? && !t[m].DeliverCase? && !Accepted(t, m)
  {
  }

  /** The start in charge is the only one, and the latest accepted. */
  lemma InChargeIsLatest(t: seq<Case>, k: nat, k': nat, j: nat)
    requires j <= |t| && InCharge(t, k, j) && k' < j && Accepted(t, k')
    ensures k' <= k
  {
    if k < k' {
      InChargeExcludes(t, k, j, k');
    }
  }

  /** Every delivery needs a start of its own: one accepted after the delivery before. */
  lemma OneDeliveryPerStart(t: seq<Case>, k: nat, i: nat, k': nat, j: nat)
    requires i < j < |t| && t[i].DeliverCase? && t[j].DeliverCase?
    requires InCharge(t, k, i) && InCharge(t, k', j)
    ensures k < i < k'
  {
    if k' < i {
      InChargeExcludes(t, k', j, i);
    }
  }

  /** After a stop nothing is delivered before a start is accepted. */
  lemma StopSilences(t: seq<Case>, s: nat, i: nat) returns (k: nat)
    requires Sound(t) && s < i < |t| && t[s].StopCase? && t[i].DeliverCase?
    ensures s < k < i && Accepted(t, k) && t[k].event == t[i].event
  {
    assert Justified(t, i);
    var q: nat, m: nat :| InCharge(t, q, i) && t[q].event == t[i].event && FiredAt(t, q, m, i);
    if q < s {
      InChargeExcludes(t, q, i, s);
    }
    k := q;
  }

  /** What is delivered is the event of the latest accepted start: a restart replaces an event that
      waits for delivery. */
  lemma LatestIsDelivered(t: seq<Case>, k: nat, i: nat)
    requires Sound(t) && k < i < |t| && Accepted(t, k) && t[i].DeliverCase?
    requires forall m :: k < m < i ==> !Accepted(t, m)
    ensures t[i].event == t[k].event
  {
    assert Justified(t, i);
    var q: nat, m: nat :| InCharge(t, q, i) && t[q].event == t[i].event && FiredAt(t, q, m, i);
    InChargeIsLatest(t, q, k, i);
    assert q <= k;
  }

  // ----- Which cases are taken -----

  /** The start at k is in charge and has fired, at m; its event waits to be delivered. */
  ghost predicate Awaits(t: seq<Case>, k: nat, m: nat) {
    InCharge(t, k, |t|) && FiredAt(t, k, m, |t|)
  }

  /** The trace after the timer, with trace t, was offered these cases. */
  ghost function Taken(t: seq<Case>, offers: seq<Case>): seq<Case>
    decreases |offers|
  {
    if offers == [] then t
    else
      match offers[0]
      case StartCase(_, _) => Taken(t + [offers[0]], offers[1..])
      case StopCase => Taken(t + [StopCase], offers[1..])
      case FireCase => Taken(if Counting(t) then t + [FireCase] else t, offers[1..])
      case DeliverCase(_) =>
        Taken(if exists k: nat, m: nat :: Awaits(t, k, m) then t + [DeliverCase(Waiting(t))] else t, offers[1..])
      case ExitCase => t
  }

  ghost function Waiting(t: seq<Case>): Event
    requires exists k: nat, m: nat :: Awaits(t, k, m)
  {
    var k: nat, m: nat :| Awaits(t, k, m);
    t[k].event
  }

  lemma EventThatWaits(t: seq<Case>)
    requires exists k: nat, m: nat :: Awaits(t, k, m)
    ensures exists k: nat, m: nat :: Awaits(t, k, m) && Waiting(t) == t[k].event
  {
  }

  /** Until the timer is halted, every start and every stop goes into the trace, in order. */
  lemma {:induction false} StartsAndStopsAreTaken(t: seq<Case>, offers: seq<Case>, c: Case)
    requires c.StartCase? || c.StopCase?
    requires ExitCase !in offers
    ensures Taken(t, offers + [c]) == Taken(t, offers) + [c]
    decreases |offers|
  {
    hide Counting, Awaits, Waiting;
    if offers == [] {
      assert offers + [c] == [c] && [c][1..] == [];
    } else {
      assert (offers + [c])[1..] == offers[1..] + [c];
      assert offers[0] in offers && forall x :: x in offers[1..] ==> x in offers;
      match offers[0]
      case StartCase(_, _) => StartsAndStopsAreTaken(t + [offers[0]], offers[1..], c);
      case StopCase => StartsAndStopsAreTaken(t + [StopCase], offers[1..], c);
      case FireCase => StartsAndStopsAreTaken(if Counting(t) then t + [FireCase] else t, offers[1..], c);
      case DeliverCase(_) =>
        var t' := if exists k: nat, m: nat :: Awaits(t, k, m) then t + [DeliverCase(Waiting(t))] else t;
        StartsAndStopsAreTaken(t', offers[1..], c);
      case ExitCase => assert false;
    }
  }

  // ----- Extending a trace -----

  lemma AcceptedExtends(t: seq<Case>, c: Case, k: nat)
    requires k < |t|
    ensures Accepted(t + [c], k) <==> Accepted(t, k)
  {
    assert (t + [c])[..k] == t[..k];
  }

  lemma AcceptedLast(t: seq<Case>, c: Case)
    ensures Accepted(t + [c], |t|) <==> c.StartCase? && (c.hard || !Counting(t))
  {
    assert (t + [c])[..|t|] == t;
  }

  lemma InChargeExtends(t: seq<Case>, c: Case, k: nat, j: nat)
    requires j <= |t|
    ensures InCharge(t + [c], k, j) <==> InCharge(t, k, j)
  {
    var t' := t + [c];
    forall m | k <= m < j ensures t'[m] == t[m] && (Accepted(t', m) <==> Accepted(t, m)) {
      AcceptedExtends(t, c, m);
    }
    if InCharge(t', k, j) {
      assert forall m :: k < m < j ==> !t[m].StopCase? && !t[m].DeliverCase? && !Accepted(t, m);
    }
  }

  lemma JustifiedExtends(t: seq<Case>, c: Case, i: nat)
    requires i < |t| && t[i].DeliverCase? && Justified(t, i)
    ensures Justified(t + [c], i)
  {
    var k: nat, m: nat :| InCharge(t, k, i) && t[k].event == t[i].event && FiredAt(t, k, m, i);
    InChargeExtends(t, c, k, i);
    assert FiredAt(t + [c], k, m, i);
  }

  lemma SoundExtends(t: seq<Case>, c: Case)
    requires Sound(t)
    requires c.DeliverCase? ==>
              exists k: nat, m: nat :: InCharge(t, k, |t|) && t[k].event == c.event && FiredAt(t, k, m, |t|)
    ensures Sound(t + [c])
  {
    var t' := t + [c];
    forall i | 0 <= i < |t'| && t'[i].DeliverCase? ensures Justified(t', i) {
      if i < |t| {
        JustifiedExtends(t, c, i);
      } else {
        var k: nat, m: nat :| InCharge(t, k, |t|) && t[k].event == c.event && FiredAt(t, k, m, |t|);
        InChargeExtends(t, c, k, |t|);
        assert FiredAt(t', k, m, i);
      }
    }
  }

  lemma CountingExtends(t: seq<Case>, c: Case)
    ensures Counting(t + [c]) <==> c.StartCase? || (Counting(t) && !c.StopCase? && !c.FireCase?)
  {
    var t' := t + [c];
    if c.StartCase? {
      assert t'[|t|].StartCase? && Uninterrupted(t', |t|);
    } else if Counting(t) && !c.StopCase? && !c.FireCase? {
      var k :| 0 <= k < |t| && t[k].StartCase? && Uninterrupted(t, k);
      assert t'[k].StartCase? && Uninterrupted(t', k);
    } else if Counting(t') {
      var k :| 0 <= k < |t'| && t'[k].StartCase? && Uninterrupted(t', k);
      assert t'[|t|] == c;
      forall m | k < m < |t| ensures !t[m].StopCase? && !t[m].FireCase? {
        assert t'[m] == t[m];
      }
      assert t[k].StartCase? && Uninterrupted(t, k);
    }
  }

  // ----- The machine -----

  class TimerImpl {
    var timerChan: bool        // non-nil: a countdown runs
    var eventDestChan: bool    // non-nil: the event waits to be delivered
    var event: Option<Event>

    ghost var trace: seq<Case>
    ghost var source: nat      // the start in charge, while one is
    ghost var fired: nat       // where it fired, while its event waits

    /** A countdown and a waiting event never coexist; each belongs to the start in charge, and a start in
        charge is never forgotten. */
    ghost predicate Valid()
      reads this
    {
      && Sound(trace)
      && !(timerChan && eventDestChan)
      && (timerChan <==> Counting(trace))
      && (timerChan || eventDestChan ==> InCharge(trace, source, |trace|) && event == Some(trace[source].event))
      && (timerChan ==> forall q :: source < q < |trace| ==> !trace[q].FireCase?)
      && (eventDestChan ==> FiredAt(trace, source, fired, |trace|))
      && (!timerChan && !eventDestChan ==> forall k: nat :: !InCharge(trace, k, |trace|))
    }

    constructor ()
      ensures Valid() && trace == [] && !timerChan && !eventDestChan
    {
      timerChan, eventDestChan, event := false, false, None;
      trace, source, fired := [], 0, 0;
    }

    /** A soft start during a countdown changes nothing; any other start begins a new countdown and
        clears a waiting event. */
    method OnStart(hard: bool, e: Event)
      requires Valid()
      modifies this
      ensures Valid() && trace == old(trace) + [StartCase(hard, e)]
      ensures if old(timerChan) && !hard then
                timerChan && eventDestChan == old(eventDestChan) && event == old(event) && source == old(source)
              else
                timerChan && !eventDestChan && event == Some(e) && source == |old(trace)|
    {
      ghost var c := StartCase(hard, e);
      Extend(c);
      if timerChan && !hard {
        InChargeGoesOn(c);
        trace := trace + [c];
        return;
      }
      timerChan := true;
      event := Some(e);
      eventDestChan := false;
      source := |trace|;
      trace := trace + [c];
    }

    method OnStop()
      requires Valid()
      modifies this
      ensures Valid() && trace == old(trace) + [StopCase] && !timerChan && !eventDestChan
    {
      Extend(StopCase);
      timerChan := false;
      eventDestChan := false;
      event := None;
      trace := trace + [StopCase];
    }

    method OnFire()
      requires Valid() && timerChan
      modifies this
      ensures Valid() && trace == old(trace) + [FireCase] && !timerChan && eventDestChan && event == old(event)
    {
      Extend(FireCase);
      InChargeGoesOn(FireCase);
      timerChan := false;
      eventDestChan := true;
      fired := |trace|;
      trace := trace + [FireCase];
    }

    method OnDeliver() returns (e: Event)
      requires Valid() && eventDestChan
      modifies this
      ensures Valid() && trace == old(trace) + [DeliverCase(e)] && !timerChan && !eventDestChan && old(event) == Some(e)
    {
      e := event.value;
      assert InCharge(trace, source, |trace|) && FiredAt(trace, source, fired, |trace|);
      Extend(DeliverCase(e));
      eventDestChan := false;
      trace := trace + [DeliverCase(e)];
    }

    lemma Extend(c: Case)
      requires Valid()
      requires c.DeliverCase? ==> eventDestChan && event == Some(c.event)
      ensures Sound(trace + [c])
      ensures Counting(trace + [c]) <==> c.StartCase? || (timerChan && !c.StopCase? && !c.FireCase?)
      ensures Accepted(trace + [c], |trace|) <==> c.StartCase? && (c.hard || !timerChan)
    {
      SoundExtends(trace, c);
      CountingExtends(trace, c);
      AcceptedLast(trace, c);
    }

    lemma InChargeGoesOn(c: Case)
      requires InCharge(trace, source, |trace|) && !c.StopCase? && !c.DeliverCase? && !Accepted(trace + [c], |trace|)
      ensures InCharge(trace + [c], source, |trace| + 1)
    {
      InChargeExtends(trace, c, source, |trace|);
    }

    /** What the fields say about the trace that determines the next case. */
    lemma Ready()
      requires Valid()
      ensures timerChan <==> Counting(trace)
      ensures eventDestChan <==> exists k: nat, m: nat :: Awaits(trace, k, m)
      ensures forall k: nat, m: nat :: Awaits(trace, k, m) ==> event == Some(trace[k].event)
    {
      forall k: nat, m: nat | Awaits(trace, k, m) ensures eventDestChan && k == source {
        if timerChan || eventDestChan {
          InChargeIsLatest(trace, k, source, |trace|);
          InChargeIsLatest(trace, source, k, |trace|);
        }
      }
      if eventDestChan {
        assert Awaits(trace, source, fired);
      }
    }

    /** The loop takes the cases as they are offered: a start or a stop always, a firing while a countdown
        runs, and a delivery while an event waits. */
    method Loop(offers: seq<Case>)
      requires Valid()
      modifies this
      ensures Valid() && Sound(trace)
      ensures trace == Taken(old(trace), offers)
    {
      for i := 0 to |offers|
        invariant Valid()
        invariant Taken(old(trace), offers) == Taken(trace, offers[i..])
      {
        hide Sound, Counting, InCharge, FiredAt, Awaits;
        Ready();
        assert offers[i..][1..] == offers[i + 1..];
        match offers[i] {
          case StartCase(hard, e) => OnStart(hard, e);
          case StopCase => OnStop();
          case FireCase =>
            if timerChan {
              OnFire();
            }
          case DeliverCase(_) =>
            if eventDestChan {
              EventThatWaits(trace);
              var e := OnDeliver();
            }
          case ExitCase =>
            return;
        }
      }
      assert offers[|offers|..] == [];
    }
  }
}
