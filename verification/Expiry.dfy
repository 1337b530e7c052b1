/**
 Exactly when a packet expires at its sender: a timer fires after the last permitted transmission
 before any header that acknowledges the packet has been heard.  Whether the packet was delivered
 plays no part, so a delivered packet expires when its acknowledgement is lost or late.
 */
module Expiry {
  import opened Serial
  import opened ReceiveWindow
  import opened ReliableChannel
  import opened ReliableEndpoint
  import opened SenderBooks
  import opened ReliableSystem

  /** A timer of `s` fires and `s` has been transmitted as often as the timer permits. */
  predicate FiresLast(e: Endpoint, ev: Event, s: Word)
    requires Enabled(e, ev)
  {
    ev.Fire? && e.activities[ev.index].sequence == s && e.transmitted[s] >= e.activities[ev.index].limit as int
  }

  /** A header is heard that acknowledges `s`, which has been handed out already. */
  predicate HearsAckOf(e: Endpoint, ev: Event, s: Word)
    requires Enabled(e, ev)
  {
    ev.HearAck? && 1 <= s <= |e.submitted| && IsSequenceAcked(s, ev.header.acknowledgment, ev.header.acknowledgmentMask)
  }

  predicate HeardAckOf(e: Endpoint, evs: seq<Event>, s: Word)
    requires Runs(e, evs)
    decreases |evs|
  {
    evs != [] && (HearsAckOf(e, evs[0], s) || HeardAckOf(Apply(e, evs[0]), evs[1..], s))
  }

  /** In the run a last firing of `s` comes before any header that acknowledges it. */
  predicate RunsOut(e: Endpoint, evs: seq<Event>, s: Word)
    requires Runs(e, evs)
    decreases |evs|
  {
    evs != [] && (FiresLast(e, evs[0], s) || (!HearsAckOf(e, evs[0], s) && RunsOut(Apply(e, evs[0]), evs[1..], s)))
  }

  // ----- one event -----

  lemma ArmedIsPending(e: Endpoint, i: nat)
    requires SenderInv(e) && Enabled(e, Fire(i))
    ensures var s := e.activities[i].sequence;
            && 1 <= s <= |e.submitted|
            && (s in e.channel.pending ==> e.transmitted[s] == e.channel.pending[s].attempts + 1)
  {
    hide Numbered, Accounted, Copies, Works;
    var s := e.activities[i].sequence;
    ReplacedActivity(e.activities, i, e.activities[i], s);
    assert e.activities[i := e.activities[i]] == e.activities;
    hide OnItsWay, Distinct;
  }

  lemma WhereIs(e: Endpoint, s: Word)
    requires SenderInv(e)
    ensures 1 <= s <= |e.submitted| <==> s in e.channel.pending || s in e.acked || s in e.expired
    ensures s in e.acked ==> s !in e.expired
  {
    hide OneActivityEach, Copies, Budgeted, Numbered;
  }

  lemma FireExpires(e: Endpoint, i: nat, s: Word)
    requires SenderInv(e) && Enabled(e, Fire(i)) && s !in e.expired && s !in e.acked
    ensures s in Apply(e, Fire(i)).expired <==> FiresLast(e, Fire(i), s)
    ensures Apply(e, Fire(i)).acked == e.acked
  {
    ArmedIsPending(e, i);
    WhereIs(e, e.activities[i].sequence);
    hide SenderInv;
  }

  lemma EventExpires(e: Endpoint, ev: Event, s: Word)
    requires SenderInv(e) && Enabled(e, ev) && s !in e.expired && s !in e.acked
    ensures s in Apply(e, ev).expired <==> FiresLast(e, ev, s)
    ensures s in Apply(e, ev).acked <==> HearsAckOf(e, ev, s)
  {
    if ev.Fire? {
      FireExpires(e, ev.index, s);
    } else {
      WhereIs(e, s);
      hide SenderInv, IsSequenceAcked, Advance, Classify;
    }
  }

  lemma BothStay(e: Endpoint, ev: Event)
    requires Enabled(e, ev)
    ensures e.expired <= Apply(e, ev).expired && e.acked <= Apply(e, ev).acked
  {
    hide IsSequenceAcked, Advance, Classify;
  }

  // ----- whole runs -----

  lemma {:induction false} ExpiredFrom(e: Endpoint, evs: seq<Event>, s: Word)
    requires SenderInv(e) && Runs(e, evs) && |Run(e, evs).submitted| < RANGE
    ensures s in Run(e, evs).expired <==> s in e.expired || (s !in e.acked && RunsOut(e, evs, s))
    decreases |evs|
  {
    hide SenderInv, Apply, Enabled, FiresLast, HearsAckOf;
    WhereIs(e, s);
    if evs != [] {
      SubmittedGrows(Apply(e, evs[0]), evs[1..]);
      EventKeepsBooks(e, evs[0]);
      BothStay(e, evs[0]);
      ExpiredFrom(Apply(e, evs[0]), evs[1..], s);
      WhereIs(Apply(e, evs[0]), s);
      if s !in e.expired && s !in e.acked {
        EventExpires(e, evs[0], s);
        NotBoth(e, evs[0], s);
      }
    }
  }

  lemma NotBoth(e: Endpoint, ev: Event, s: Word)
    requires Enabled(e, ev)
    ensures !(FiresLast(e, ev, s) && HearsAckOf(e, ev, s))
  {
  }

  /**
   Expiry, exactly: after any run a packet has expired if and only if some firing of its timer
   found it transmitted as often as allowed before any header acknowledging it was heard.
   */
  lemma ExpiredIff(port: Port, limit: Attempts, evs: seq<Event>, s: Word)
    requires limit >= 1 && Runs(Initial(port, limit), evs) && |Run(Initial(port, limit), evs).submitted| < RANGE
    ensures s in Run(Initial(port, limit), evs).expired <==> RunsOut(Initial(port, limit), evs, s)
  {
    hide Run, Runs, RunsOut, SenderInv;
    InitialSender(port, limit);
    ExpiredFrom(Initial(port, limit), evs, s);
  }

  lemma {:induction false} RunSplit(e: Endpoint, before: seq<Event>, ev: Event, after: seq<Event>)
    requires Runs(e, before + [ev] + after)
    ensures Runs(e, before) && Enabled(Run(e, before), ev)
    ensures Runs(Apply(Run(e, before), ev), after)
    ensures Run(e, before + [ev] + after) == Run(Apply(Run(e, before), ev), after)
    decreases |before|
  {
    hide Enabled, Apply;
    var all := before + [ev] + after;
    if before == [] {
      assert all[0] == ev && all[1..] == after;
    } else {
      assert all[0] == before[0] && all[1..] == before[1..] + [ev] + after;
      RunSplit(Apply(e, before[0]), before[1..], ev, after);
    }
  }

  /** Before its last firing a packet is struck off exactly by the headers that acknowledge it. */
  lemma {:induction false} HeardMeansAcked(e: Endpoint, evs: seq<Event>, s: Word)
    requires SenderInv(e) && Runs(e, evs) && |Run(e, evs).submitted| < RANGE
    requires s !in Run(e, evs).expired
    ensures s in Run(e, evs).acked <==> s in e.acked || HeardAckOf(e, evs, s)
    decreases |evs|
  {
    hide SenderInv, Apply, Enabled, FiresLast, HearsAckOf;
    if evs != [] {
      SubmittedGrows(Apply(e, evs[0]), evs[1..]);
      EventKeepsBooks(e, evs[0]);
      BothStay(e, evs[0]);
      ExpiredFrom(e, evs, s);
      HeardMeansAcked(Apply(e, evs[0]), evs[1..], s);
      if s !in e.acked { EventExpires(e, evs[0], s); }
    }
  }

  /**
   The moment of decision: at a firing of `s` after its last permitted transmission the packet
   has been acknowledged by an earlier header, and is kept out of the expired for good, or it has
   not, and expires.
   */
  lemma FiringDecides(port: Port, limit: Attempts, before: seq<Event>, i: nat, after: seq<Event>, s: Word)
    requires limit >= 1 && Runs(Initial(port, limit), before + [Fire(i)] + after)
    requires |Run(Initial(port, limit), before + [Fire(i)] + after).submitted| < RANGE
    requires Runs(Initial(port, limit), before) && Enabled(Run(Initial(port, limit), before), Fire(i))
    requires FiresLast(Run(Initial(port, limit), before), Fire(i), s)
    ensures s in Run(Initial(port, limit), before + [Fire(i)] + after).expired <==>
            !HeardAckOf(Initial(port, limit), before, s)
  {
    var start := Initial(port, limit);
    var e := Run(start, before);
    hide Run, Runs, RunsOut, SenderInv, HeardAckOf, FiresLast, HearsAckOf, Apply, Enabled, Initial, TimersGone;
    InitialSender(port, limit);
    NothingYet(port, limit, s);
    RunSplit(start, before, Fire(i), after);
    SubmittedGrows(Apply(e, Fire(i)), after);
    FireSubmitsNothing(e, i);
    RunKeepsBooks(start, before);
    RunTimersGone(start, before);
    NotYetExpired(e, i, s);
    HeardMeansAcked(start, before, s);
    EventKeepsBooks(e, Fire(i));
    ExpiredFrom(Apply(e, Fire(i)), after, s);
    BothStay(e, Fire(i));
    if s !in e.acked { EventExpires(e, Fire(i), s); } else { WhereIs(Apply(e, Fire(i)), s); }
  }

  lemma NothingYet(port: Port, limit: Attempts, s: Word)
    ensures s !in Initial(port, limit).acked && s !in Initial(port, limit).expired
    ensures TimersGone(Initial(port, limit))
  {
  }

  lemma FireSubmitsNothing(e: Endpoint, i: nat)
    requires Enabled(e, Fire(i))
    ensures Apply(e, Fire(i)).submitted == e.submitted
  {
  }

  /** An expired packet has neither a send nor a timer any more. */
  ghost predicate TimersGone(e: Endpoint) {
    forall s: Word :: s in e.expired ==> !Works(e.activities, s)
  }

  lemma ActivityStep(e: Endpoint, ev: Event, s: Word)
    requires SenderInv(e) && Enabled(e, ev) && |Apply(e, ev).submitted| < RANGE && s in Apply(e, ev).expired
    requires s in e.expired ==> !Works(e.activities, s)
    ensures !Works(Apply(e, ev).activities, s)
  {
    match ev {
      case Submit(p) =>
        WhereIs(e, s);
        hide Accounted, Copies, Budgeted;
      case Transmit(i) => ReplacedActivity(e.activities, i, Queued(e.activities[i].sequence), s);
      case Arm(i) => ReplacedActivity(e.activities, i, Armed(e.activities[i].sequence, e.limit), s);
      case Fire(i) => FireActivity(e, i, s);
      case _ =>
        WhereIs(e, s);
        hide SenderInv, IsSequenceAcked, Advance, Classify;
    }
  }

  lemma FireActivity(e: Endpoint, i: nat, s: Word)
    requires SenderInv(e) && Enabled(e, Fire(i)) && s in Apply(e, Fire(i)).expired
    requires s in e.expired ==> !Works(e.activities, s)
    ensures !Works(Apply(e, Fire(i)).activities, s)
  {
    hide Accounted, Copies, Budgeted, Numbered;
    var Armed(t, limit) := e.activities[i];
    if Resends(e.channel, t, limit) {
      ReplacedActivity(e.activities, i, Apply(e, Fire(i)).activities[i], s);
    } else {
      RemovedActivity(e.activities, i, s);
    }
  }

  lemma {:induction false} RunTimersGone(e: Endpoint, evs: seq<Event>)
    requires SenderInv(e) && TimersGone(e) && Runs(e, evs) && |Run(e, evs).submitted| < RANGE
    ensures TimersGone(Run(e, evs))
    decreases |evs|
  {
    hide SenderInv, Apply, Enabled, Works;
    if evs != [] {
      SubmittedGrows(Apply(e, evs[0]), evs[1..]);
      EventKeepsBooks(e, evs[0]);
      forall s: Word | s in Apply(e, evs[0]).expired ensures !Works(Apply(e, evs[0]).activities, s) {
        ActivityStep(e, evs[0], s);
      }
      RunTimersGone(Apply(e, evs[0]), evs[1..]);
    }
  }

  lemma NotYetExpired(e: Endpoint, i: nat, s: Word)
    requires TimersGone(e) && Enabled(e, Fire(i)) && FiresLast(e, Fire(i), s)
    ensures s !in e.expired
  {
    assert Works(e.activities, s);
  }

  // ----- both ends -----

  function EventsAtA(steps: seq<Step>): seq<Event> {
    if steps == [] then []
    else (if steps[0].AtA? then [steps[0].event] else []) + EventsAtA(steps[1..])
  }

  /** What side A does in a run of the system is a run of its own. */
  lemma {:induction false} ProjectA(s: System, steps: seq<Step>)
    requires CanRun(s, steps)
    ensures Runs(s.a, EventsAtA(steps)) && Run(s.a, EventsAtA(steps)) == After(s, steps).a
    decreases |steps|
  {
    hide Enabled, Apply, Supplied, Emits;
    if steps != [] {
      ProjectA(Next(s, steps[0]), steps[1..]);
      match steps[0] {
        case AtA(ev) =>
          var rest := EventsAtA(steps[1..]);
          assert ([ev] + rest)[0] == ev && ([ev] + rest)[1..] == rest;
        case AtB(ev) => assert [] + EventsAtA(steps[1..]) == EventsAtA(steps[1..]);
      }
    }
  }

  /**
   Over any network: a packet of A expires if and only if its last timer fires before A hears a
   header that acknowledges it; this also decides the fate of packets that were delivered.
   */
  lemma ExpiresOverNetworkIff(port: Port, limitA: Attempts, limitB: Attempts, steps: seq<Step>, s: Word)
    requires limitA >= 1 && limitB >= 1 && CanRun(Start(port, limitA, limitB), steps)
    requires Unwrapped(After(Start(port, limitA, limitB), steps))
    ensures var end := After(Start(port, limitA, limitB), steps);
            && Runs(Initial(port, limitA), EventsAtA(steps))
            && (s in end.a.expired <==> RunsOut(Initial(port, limitA), EventsAtA(steps), s))
            && (s !in end.a.expired && HeardAckOf(Initial(port, limitA), EventsAtA(steps), s) ==>
                  s in end.a.acked && DeliveredSomewhere(end.b, s))
  {
    hide CanRun, After, Run, Runs, RunsOut, HeardAckOf, DeliveredSomewhere, Initial, SenderInv;
    var start := Start(port, limitA, limitB);
    ProjectA(start, steps);
    ExpiredIff(port, limitA, EventsAtA(steps), s);
    AcknowledgedWasDelivered(port, limitA, limitB, steps, s);
    if s !in After(start, steps).a.expired {
      InitialSender(port, limitA);
      HeardMeansAcked(Initial(port, limitA), EventsAtA(steps), s);
    }
  }
}
