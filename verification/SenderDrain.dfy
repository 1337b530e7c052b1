/**
 The drain of the pending table.  Each step of the send path is paid for by a measure that depends
 on the retry limit in force; runs end with the table empty, and without acknowledgements they use
 the measure up to the last step.
 */
module SenderDrain {
  import opened Serial
  import opened ReceiveWindow
  import opened ReliableChannel
  import opened ReliableEndpoint
  import opened SenderBooks

  // ---------------------------------------------------------------- the measure

  function Stage(a: Activity): nat {
    match a
    case Transmitting(_, _) => 3
    case Queued(_) => 2
    case Armed(_, _) => 1
  }

  /** Retries that a limit of `most` leaves an entry, after those it has had. */
  function RetriesLeft(entry: Pending, most: Attempts): nat {
    if entry.attempts + 1 < most then most - 1 - entry.attempts else 0
  }

  /** How many more steps the coroutine `a` can take under a limit of `most`; a retry costs three. */
  function Rank(c: ChannelState, a: Activity, most: Attempts): nat {
    Stage(a) + if a.sequence in c.pending then 3 * RetriesLeft(c.pending[a.sequence], most) else 0
  }

  function Measure(c: ChannelState, activities: seq<Activity>, most: Attempts): nat {
    if activities == [] then 0 else Rank(c, activities[0], most) + Measure(c, activities[1..], most)
  }

  function Left(e: Endpoint, most: Attempts): nat {
    Measure(e.channel, e.activities, most)
  }

  lemma {:induction false} MeasureConcat(
    c: ChannelState, before: seq<Activity>, after: seq<Activity>, most: Attempts)
    ensures Measure(c, before + after, most) == Measure(c, before, most) + Measure(c, after, most)
  {
    if before == [] {
      assert before + after == after;
    } else {
      assert (before + after)[1..] == before[1..] + after;
      MeasureConcat(c, before[1..], after, most);
    }
  }

  lemma MeasureSplit(c: ChannelState, activities: seq<Activity>, i: nat, most: Attempts)
    requires i < |activities|
    ensures Measure(c, activities, most)
         == Measure(c, activities[..i], most) + Rank(c, activities[i], most) + Measure(c, activities[i + 1..], most)
  {
    hide Rank;
    assert activities == activities[..i] + activities[i..];
    MeasureConcat(c, activities[..i], activities[i..], most);
    assert activities[i..][1..] == activities[i + 1..];
  }

  lemma {:induction false} SameMeasure(c: ChannelState, c': ChannelState, activities: seq<Activity>, most: Attempts)
    requires forall i :: 0 <= i < |activities| ==> Rank(c', activities[i], most) == Rank(c, activities[i], most)
    ensures Measure(c', activities, most) == Measure(c, activities, most)
  {
    hide Rank;
    if activities != [] { SameMeasure(c, c', activities[1..], most); }
  }

  lemma {:induction false} LowerMeasure(c: ChannelState, c': ChannelState, activities: seq<Activity>, most: Attempts)
    requires forall i :: 0 <= i < |activities| ==> Rank(c', activities[i], most) <= Rank(c, activities[i], most)
    ensures Measure(c', activities, most) <= Measure(c, activities, most)
  {
    hide Rank;
    if activities != [] { LowerMeasure(c, c', activities[1..], most); }
  }

  /** The channel `c'` ranks every activity but the one at `i` as `c` does. */
  predicate RankedAlike(c: ChannelState, c': ChannelState, activities: seq<Activity>, i: nat, most: Attempts) {
    forall k :: 0 <= k < |activities| && k != i ==> Rank(c', activities[k], most) == Rank(c, activities[k], most)
  }

  lemma Replacing(c: ChannelState, c': ChannelState, activities: seq<Activity>, i: nat, a: Activity, most: Attempts)
    requires i < |activities| && RankedAlike(c, c', activities, i, most)
    ensures Measure(c', activities[i := a], most) + Rank(c, activities[i], most)
         == Measure(c, activities, most) + Rank(c', a, most)
  {
    hide Rank, Measure;
    MeasureSplit(c, activities, i, most);
    MeasureSplit(c', activities[i := a], i, most);
    assert activities[i := a][..i] == activities[..i];
    assert activities[i := a][i + 1..] == activities[i + 1..];
    SameMeasure(c, c', activities[..i], most);
    SameMeasure(c, c', activities[i + 1..], most);
  }

  lemma Removing(c: ChannelState, c': ChannelState, activities: seq<Activity>, i: nat, most: Attempts)
    requires i < |activities| && RankedAlike(c, c', activities, i, most)
    ensures Measure(c', Without(activities, i), most) + Rank(c, activities[i], most) == Measure(c, activities, most)
  {
    hide Rank, Measure;
    MeasureSplit(c, activities, i, most);
    MeasureConcat(c', activities[..i], activities[i + 1..], most);
    SameMeasure(c, c', activities[..i], most);
    SameMeasure(c, c', activities[i + 1..], most);
  }

  // ---------------------------------------------------------------- one event

  /** The transmit and timer steps of the send path. */
  predicate IsWork(ev: Event) {
    ev.Transmit? || ev.Arm? || ev.Fire?
  }

  /** The limit configured and the limits timers have read are at most `most`. */
  predicate Within(e: Endpoint, most: Attempts) {
    e.limit <= most && forall i :: 0 <= i < |e.activities| && e.activities[i].Armed? ==> e.activities[i].limit <= most
  }

  /** All of them are `most`. */
  predicate Exactly(e: Endpoint, most: Attempts) {
    e.limit == most && forall i :: 0 <= i < |e.activities| && e.activities[i].Armed? ==> e.activities[i].limit == most
  }

  /** The event neither strikes a packet off nor sets another limit. */
  predicate Unheard(e: Endpoint, ev: Event, most: Attempts) {
    && (ev.HearAck? ==> AckedBy(e.channel, ev.header) == {})
    && (ev.Configure? ==> AtLeastOne(ev.maxAttempts) == most)
  }

  predicate LimitAtMost(ev: Event, most: Attempts) {
    ev.Configure? ==> AtLeastOne(ev.maxAttempts) <= most
  }

  lemma StaysWithin(e: Endpoint, ev: Event, most: Attempts)
    requires Enabled(e, ev) && Within(e, most) && LimitAtMost(ev, most)
    ensures Within(Apply(e, ev), most)
  {
    hide OnSend, OnAck, OnSequence, OnTimer, OnAckDue, IsSequenceAcked;
  }

  lemma StaysExactly(e: Endpoint, ev: Event, most: Attempts)
    requires Enabled(e, ev) && Exactly(e, most) && Unheard(e, ev, most)
    ensures Exactly(Apply(e, ev), most)
  {
    hide OnSend, OnAck, OnSequence, OnTimer, OnAckDue, IsSequenceAcked;
  }

  function Cost(ev: Event): nat {
    if IsWork(ev) then 1 else 0
  }

  /** A new packet may be transmitted `most` times, at three steps each. */
  function Grant(ev: Event, most: Attempts): nat {
    if ev.Submit? then 3 * most else 0
  }

  lemma HandOverLowers(e: Endpoint, ev: Event, most: Attempts)
    requires Enabled(e, ev) && (ev.Transmit? || ev.Arm?)
    ensures Left(Apply(e, ev), most) + 1 == Left(e, most)
  {
    hide Measure;
    Replacing(e.channel, e.channel, e.activities, ev.index, Apply(e, ev).activities[ev.index], most);
  }

  lemma OthersRankedAlike(e: Endpoint, i: nat, most: Attempts)
    requires Distinct(e.activities) && Enabled(e, Fire(i))
    ensures RankedAlike(e.channel, AfterFire(e, i).channel, e.activities, i, most)
  {
    var s := e.activities[i].sequence;
    forall k | 0 <= k < |e.activities| && k != i ensures e.activities[k].sequence != s {
    }
  }

  lemma FireLowers(e: Endpoint, i: nat, most: Attempts)
    requires Distinct(e.activities) && Enabled(e, Fire(i)) && e.activities[i].limit <= most
    ensures Left(AfterFire(e, i), most) + 1 <= Left(e, most)
    ensures e.activities[i].limit == most ==> Left(AfterFire(e, i), most) + 1 == Left(e, most)
  {
    hide Measure, RankedAlike;
    var e' := AfterFire(e, i);
    OthersRankedAlike(e, i, most);
    if Resends(e.channel, e.activities[i].sequence, e.activities[i].limit) {
      Replacing(e.channel, e'.channel, e.activities, i, e'.activities[i], most);
    } else {
      Removing(e.channel, e'.channel, e.activities, i, most);
    }
  }

  lemma SubmitGrants(e: Endpoint, p: Packet, most: Attempts)
    requires SenderInv(e) && Enabled(e, Submit(p)) && |e.submitted| + 1 < RANGE && most >= 1
    ensures Left(Apply(e, Submit(p)), most) == Left(e, most) + 3 * most
  {
    hide Measure, Copies, Budgeted, Accounted;
    var e' := Apply(e, Submit(p));
    var s := NextSequence(e.channel);
    var a := Transmitting(s, Stamped(e.channel, p));
    assert forall k :: 0 <= k < |e.activities| ==> e.activities[k].sequence != s;
    MeasureConcat(e'.channel, e.activities, [a], most);
    MeasureOfOne(e'.channel, a, most);
    SameMeasure(e.channel, e'.channel, e.activities, most);
  }

  lemma MeasureOfOne(c: ChannelState, a: Activity, most: Attempts)
    ensures Measure(c, [a], most) == Rank(c, a, most)
  {
    hide Rank;
    assert [a][1..] == [];
    assert Measure(c, [], most) == 0;
  }

  lemma HearingLowers(e: Endpoint, h: Header, most: Attempts)
    ensures Left(Apply(e, HearAck(h)), most) <= Left(e, most)
    ensures AckedBy(e.channel, h) == {} ==> Left(Apply(e, HearAck(h)), most) == Left(e, most)
  {
    hide Measure, IsSequenceAcked;
    var c := OnAck(e.channel, h);
    LowerMeasure(e.channel, c, e.activities, most);
    if AckedBy(e.channel, h) == {} {
      assert forall s :: s in e.channel.pending ==> s !in AckedBy(e.channel, h);
      assert c.pending == e.channel.pending;
      SameMeasure(e.channel, c, e.activities, most);
    }
  }

  lemma ReceivingKeepsMeasure(e: Endpoint, ev: Event, most: Attempts)
    requires Enabled(e, ev) && (ev.Configure? || ev.HearData? || ev.EmitAck?)
    ensures Left(Apply(e, ev), most) == Left(e, most)
  {
    hide Measure, Advance, Classify;
    SameMeasure(e.channel, Apply(e, ev).channel, e.activities, most);
  }

  /** What one event does to the measure: work costs a step, a submission grants some, the rest is free. */
  lemma EventMeasure(e: Endpoint, ev: Event, most: Attempts)
    requires SenderInv(e) && Enabled(e, ev) && Within(e, most) && |Apply(e, ev).submitted| < RANGE
    ensures Left(Apply(e, ev), most) + Cost(ev) <= Left(e, most) + Grant(ev, most)
    ensures Exactly(e, most) && Unheard(e, ev, most) ==>
              Left(Apply(e, ev), most) + Cost(ev) == Left(e, most) + Grant(ev, most)
  {
    LimitIsPositive(e);
    match ev {
      case Submit(p) =>
        GrowsByOne(e, p);
        hide SenderInv, Apply, Left;
        SubmitGrants(e, p, most);
      case Transmit(_) => hide SenderInv, Apply, Left; HandOverLowers(e, ev, most);
      case Arm(_) => hide SenderInv, Apply, Left; HandOverLowers(e, ev, most);
      case Fire(i) => hide Copies, Budgeted, Accounted, Numbered, AfterFire, Left; FireLowers(e, i, most);
      case HearAck(h) => hide SenderInv, Apply, Left; HearingLowers(e, h, most);
      case _ => hide SenderInv, Apply, Left; ReceivingKeepsMeasure(e, ev, most);
    }
  }

  lemma LimitIsPositive(e: Endpoint)
    requires SenderInv(e)
    ensures e.limit >= 1
  {
  }

  lemma GrowsByOne(e: Endpoint, p: Packet)
    requires Enabled(e, Submit(p))
    ensures |Apply(e, Submit(p)).submitted| == |e.submitted| + 1
  {
  }

  // ---------------------------------------------------------------- whole runs

  function WorkCount(evs: seq<Event>): nat {
    if evs == [] then 0 else Cost(evs[0]) + WorkCount(evs[1..])
  }

  /** What the submissions of a run grant. */
  function Granted(evs: seq<Event>, most: Attempts): nat {
    if evs == [] then 0 else Grant(evs[0], most) + Granted(evs[1..], most)
  }

  /** Nothing is struck off in the run, and every limit it configures is `most`. */
  predicate UnheardRun(e: Endpoint, evs: seq<Event>, most: Attempts)
    requires Runs(e, evs)
    decreases |evs|
  {
    evs == [] || (Unheard(e, evs[0], most) && UnheardRun(Apply(e, evs[0]), evs[1..], most))
  }

  /**
   The cost of any run, new packets, acknowledgements and changes of the limit included: the steps
   of the send path never exceed what the run started with and what its submissions grant.  Without
   acknowledgements and with one limit throughout, they account for it to the step.
   */
  lemma {:induction false} WorkIsBounded(e: Endpoint, evs: seq<Event>, most: Attempts)
    requires SenderInv(e) && Runs(e, evs) && Within(e, most) && LimitsWithin(evs, most)
    requires |Run(e, evs).submitted| < RANGE
    ensures WorkCount(evs) + Left(Run(e, evs), most) <= Left(e, most) + Granted(evs, most)
    ensures Exactly(e, most) && UnheardRun(e, evs, most) ==>
              WorkCount(evs) + Left(Run(e, evs), most) == Left(e, most) + Granted(evs, most)
    decreases |evs|
  {
    hide SenderInv, Enabled, Left, Apply, Cost, Grant, Within, Exactly, Unheard;
    if evs != [] {
      assert LimitAtMost(evs[0], most);
      SubmittedGrows(Apply(e, evs[0]), evs[1..]);
      EventKeepsBooks(e, evs[0]);
      EventMeasure(e, evs[0], most);
      StaysWithin(e, evs[0], most);
      if Exactly(e, most) && Unheard(e, evs[0], most) { StaysExactly(e, evs[0], most); }
      assert forall k :: 0 <= k < |evs[1..]| ==> evs[1..][k] == evs[k + 1];
      WorkIsBounded(Apply(e, evs[0]), evs[1..], most);
    }
  }

  lemma {:induction false} GrantedPerPacket(e: Endpoint, evs: seq<Event>, most: Attempts)
    requires Runs(e, evs)
    ensures Granted(evs, most) + 3 * most * |e.submitted| == 3 * most * |Run(e, evs).submitted|
    decreases |evs|
  {
    hide Apply, Enabled;
    if evs != [] {
      GrantedPerPacket(Apply(e, evs[0]), evs[1..], most);
      if evs[0].Submit? {
        GrowsByOne(e, evs[0].packet);
        var n := |e.submitted|;
        assert 3 * most * (n + 1) == 3 * most * n + 3 * most;
      } else {
        SameSubmitted(e, evs[0]);
      }
    }
  }

  /** With limits of at most `most`, a channel spends at most three steps for each permitted transmission. */
  lemma ThreeStepsATransmission(port: Port, limit: Attempts, evs: seq<Event>, most: Attempts)
    requires 1 <= limit <= most && Runs(Initial(port, limit), evs) && LimitsWithin(evs, most)
    requires |Run(Initial(port, limit), evs).submitted| < RANGE
    ensures WorkCount(evs) <= 3 * most * |Run(Initial(port, limit), evs).submitted|
  {
    hide Run, Runs, SenderInv;
    InitialSender(port, limit);
    WorkIsBounded(Initial(port, limit), evs, most);
    GrantedPerPacket(Initial(port, limit), evs, most);
  }

  // ---------------------------------------------------------------- the end of the drain

  /** No packet is pending, and no send or timer is under way. */
  predicate Drained(e: Endpoint) {
    e.channel.pending == map[] && e.activities == []
  }

  /** The next step of the oldest coroutine. */
  function FirstWork(e: Endpoint): Event
    requires e.activities != []
  {
    match e.activities[0]
    case Transmitting(_, _) => Transmit(0)
    case Queued(_) => Arm(0)
    case Armed(_, _) => Fire(0)
  }

  /** While a packet is pending, some step of the send path can be taken. */
  lemma PendingIsNeverStuck(e: Endpoint)
    requires SenderInv(e) && e.channel.pending != map[]
    ensures e.activities != [] && IsWork(FirstWork(e)) && Enabled(e, FirstWork(e))
  {
    hide Copies, Budgeted, Accounted, Numbered;
    var s :| s in e.channel.pending;
    assert Works(e.activities, s);
  }

  /** The send path has come to a stop exactly when nothing is pending and nothing is under way. */
  lemma StoppedIffDrained(e: Endpoint)
    requires SenderInv(e)
    ensures (forall ev :: IsWork(ev) ==> !Enabled(e, ev)) <==> Drained(e)
  {
    hide SenderInv;
    if e.channel.pending != map[] { PendingIsNeverStuck(e); }
    if e.activities != [] { assert IsWork(FirstWork(e)) && Enabled(e, FirstWork(e)); }
  }

  lemma NothingLeft(e: Endpoint, most: Attempts)
    requires SenderInv(e)
    ensures Drained(e) <==> Left(e, most) == 0
  {
    hide SenderInv;
    if e.channel.pending != map[] { PendingIsNeverStuck(e); }
  }

  predicate AllWork(evs: seq<Event>) {
    forall k :: 0 <= k < |evs| ==> IsWork(evs[k])
  }

  /** Taking step after step of the send path leads to its end. */
  lemma DrainingRun(e: Endpoint) returns (more: seq<Event>)
    requires SenderInv(e) && |e.submitted| < RANGE
    ensures Runs(e, more) && AllWork(more) && Drained(Run(e, more)) && Run(e, more).submitted == e.submitted
    decreases Left(e, 255)
  {
    hide SenderInv, Left, Apply, Enabled;
    more := [];
    if !Drained(e) {
      if e.channel.pending != map[] { PendingIsNeverStuck(e); }
      var ev := FirstWork(e);
      FirstIsWork(e);
      SameSubmitted(e, ev);
      EventKeepsBooks(e, ev);
      EventMeasure(e, ev, 255);
      var rest := DrainingRun(Apply(e, ev));
      more := [ev] + rest;
      assert more[1..] == rest;
    }
  }

  lemma FirstIsWork(e: Endpoint)
    requires e.activities != []
    ensures IsWork(FirstWork(e)) && Enabled(e, FirstWork(e)) && !FirstWork(e).Submit?
  {
  }

  predicate NoSubmit(evs: seq<Event>) {
    forall k :: 0 <= k < |evs| ==> !evs[k].Submit?
  }

  lemma {:induction false} NothingGranted(e: Endpoint, evs: seq<Event>, most: Attempts)
    requires Runs(e, evs) && NoSubmit(evs)
    ensures Granted(evs, most) == 0 && Run(e, evs).submitted == e.submitted
    decreases |evs|
  {
    hide Apply, Enabled;
    if evs != [] {
      SameSubmitted(e, evs[0]);
      assert forall k :: 0 <= k < |evs[1..]| ==> evs[1..][k] == evs[k + 1];
      NothingGranted(Apply(e, evs[0]), evs[1..], most);
    }
  }

  lemma {:induction false} RunsConcat(e: Endpoint, evs: seq<Event>, more: seq<Event>)
    requires Runs(e, evs) && Runs(Run(e, evs), more)
    ensures Runs(e, evs + more) && Run(e, evs + more) == Run(Run(e, evs), more)
    decreases |evs|
  {
    hide Apply, Enabled;
    if evs == [] {
      assert evs + more == more;
    } else {
      RunsConcat(Apply(e, evs[0]), evs[1..], more);
      assert (evs + more)[0] == evs[0] && (evs + more)[1..] == evs[1..] + more;
    }
  }

  /**
   The drain: without new sends, whatever is lost, acknowledged or reconfigured meanwhile, the send
   path takes at most `Left` steps; it has stopped if and only if no packet is pending and no timer
   is left; and every run can be continued until it stops.
   */
  lemma PendingDrains(e: Endpoint, evs: seq<Event>, most: Attempts)
    requires SenderInv(e) && Runs(e, evs) && NoSubmit(evs) && |e.submitted| < RANGE
    requires Within(e, most) && LimitsWithin(evs, most)
    ensures WorkCount(evs) <= Left(e, most)
    ensures (forall ev :: IsWork(ev) ==> !Enabled(Run(e, evs), ev)) <==> Drained(Run(e, evs))
    ensures exists more :: AllWork(more) && Runs(e, evs + more) && Drained(Run(e, evs + more))
  {
    hide SenderInv, Enabled, Run, Runs, Left, IsWork, Drained;
    NothingGranted(e, evs, most);
    WorkIsBounded(e, evs, most);
    RunKeepsBooks(e, evs);
    StoppedIffDrained(Run(e, evs));
    var more := DrainingRun(Run(e, evs));
    RunsConcat(e, evs, more);
  }

  // ---------------------------------------------------------------- the bound is attained

  lemma UnheardAcked(e: Endpoint, ev: Event, most: Attempts)
    requires Enabled(e, ev) && Unheard(e, ev, most)
    ensures Apply(e, ev).acked == e.acked
  {
  }

  lemma {:induction false} UnheardRunAcked(e: Endpoint, evs: seq<Event>, most: Attempts)
    requires Runs(e, evs) && UnheardRun(e, evs, most)
    ensures Run(e, evs).acked == e.acked
    decreases |evs|
  {
    hide Apply, Enabled, Unheard;
    if evs != [] {
      UnheardAcked(e, evs[0], most);
      UnheardRunAcked(Apply(e, evs[0]), evs[1..], most);
    }
  }

  lemma DrainedExpires(e: Endpoint)
    requires SenderInv(e) && Drained(e)
    ensures forall s: Word :: s in e.expired <==> 1 <= s <= |e.submitted| && s !in e.acked
  {
    hide OneActivityEach, Copies, Budgeted, Numbered;
  }

  /**
   A run under one limit in which nothing is struck off takes exactly the steps it has been granted
   when it has drained, and fewer before; and then everything not acknowledged earlier has expired.
   */
  lemma UnheardTakesAll(e: Endpoint, evs: seq<Event>, most: Attempts)
    requires SenderInv(e) && Exactly(e, most) && Runs(e, evs) && LimitsWithin(evs, most)
    requires UnheardRun(e, evs, most) && |Run(e, evs).submitted| < RANGE
    ensures Drained(Run(e, evs)) <==> WorkCount(evs) == Left(e, most) + Granted(evs, most)
    ensures Drained(Run(e, evs)) ==>
              forall s: Word :: s in Run(e, evs).expired <==> 1 <= s <= |Run(e, evs).submitted| && s !in e.acked
  {
    hide SenderInv, Run, Runs, Left, Drained, UnheardRun;
    assert Within(e, most);
    WorkIsBounded(e, evs, most);
    RunKeepsBooks(e, evs);
    NothingLeft(Run(e, evs), most);
    UnheardRunAcked(e, evs, most);
    if Drained(Run(e, evs)) { DrainedExpires(Run(e, evs)); }
  }

  lemma {:induction false} WorkIsUnheard(e: Endpoint, evs: seq<Event>, most: Attempts)
    requires Runs(e, evs) && AllWork(evs)
    ensures UnheardRun(e, evs, most) && LimitsWithin(evs, most) && NoSubmit(evs) && WorkCount(evs) == |evs|
    decreases |evs|
  {
    hide Apply, Enabled;
    if evs != [] {
      assert forall k :: 0 <= k < |evs[1..]| ==> evs[1..][k] == evs[k + 1];
      WorkIsUnheard(Apply(e, evs[0]), evs[1..], most);
    }
  }

  /** So the bound of `PendingDrains` is attained: from every state some run takes all its steps. */
  lemma BoundIsAttained(e: Endpoint, most: Attempts)
    requires SenderInv(e) && Exactly(e, most) && |e.submitted| < RANGE
    ensures exists evs ::
              && AllWork(evs) && Runs(e, evs) && |evs| == Left(e, most)
              && Drained(Run(e, evs)) && Run(e, evs).expired == e.expired + e.channel.pending.Keys
  {
    hide Run, Runs, Left, UnheardRun, SenderInv, Drained;
    var evs := DrainingRun(e);
    WorkIsUnheard(e, evs, most);
    UnheardTakesAll(e, evs, most);
    NothingGranted(e, evs, most);
    PendingOrSettled(e);
    assert Run(e, evs).expired == e.expired + e.channel.pending.Keys;
  }

  lemma PendingOrSettled(e: Endpoint)
    requires SenderInv(e)
    ensures forall s: Word ::
              s in e.expired || s in e.channel.pending <==> 1 <= s <= |e.submitted| && s !in e.acked
  {
    hide OneActivityEach, Copies, Budgeted, Numbered;
  }
}
