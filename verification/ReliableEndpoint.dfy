/**
 One end of a reliable channel as a state machine.  Every lock-protected section of the manager
 is one event, so sends, timers and any number of receives interleave freely.  An activity is a
 coroutine of the send path: handing a packet to the transport, waiting to start its timer, or
 asleep in the timer with the retry limit it read when it started.
 */
module ReliableEndpoint {
  import opened Serial
  import opened ReceiveWindow
  import opened ReliableChannel

  datatype Activity =
    | Transmitting(sequence: Word, packet: Packet)
    | Queued(sequence: Word)
    | Armed(sequence: Word, limit: Attempts)

  /** The fields after `limit` are history: they record the run and influence nothing. */
  datatype Endpoint = Endpoint(
    port: Port,
    channel: ChannelState,
    activities: seq<Activity>,
    limit: Attempts,
    highestLimit: Attempts,
    submitted: seq<Packet>,
    acked: set<Word>,
    expired: set<Word>,
    transmitted: multiset<Word>,
    arrivals: seq<Packet>,
    accepted: set<Word>)

  /** A channel nothing was sent on yet, with the retry limit configured so far. */
  function Initial(port: Port, limit: Attempts): Endpoint {
    Endpoint(port, FreshChannel, [], limit, limit, [], {}, {}, multiset{}, [], {})
  }

  datatype Event =
    | Submit(packet: Packet)
    | Transmit(index: nat)
    | Arm(index: nat)
    | Fire(index: nat)
    | Configure(maxAttempts: Attempts)
    | HearAck(header: Header)
    | HearData(packet: Packet)
    | EmitAck

  predicate Enabled(e: Endpoint, ev: Event) {
    match ev
    case Submit(p) => !AckOnly(p)
    case Transmit(i) => i < |e.activities| && e.activities[i].Transmitting?
    case Arm(i) => i < |e.activities| && e.activities[i].Queued?
    case Fire(i) => i < |e.activities| && e.activities[i].Armed?
    case Configure(_) => true
    case HearAck(_) => true
    case HearData(p) => !AckOnly(p)
    case EmitAck => e.channel.pendingAck
  }

  function AtLeastOne(n: Attempts): Attempts {
    if n < 1 then 1 else n
  }

  function Higher(m: Attempts, n: Attempts): Attempts {
    if m < n then n else m
  }

  function Without<T>(s: seq<T>, i: nat): seq<T>
    requires i < |s|
  {
    s[..i] + s[i + 1..]
  }

  function AckedBy(c: ChannelState, h: Header): set<Word> {
    set s | s in c.pending && IsSequenceAcked(s, h.acknowledgment, h.acknowledgmentMask)
  }

  function AfterFire(e: Endpoint, i: nat): Endpoint
    requires Enabled(e, Fire(i))
  {
    var Armed(s, limit) := e.activities[i];
    var channel := OnTimer(e.channel, s, limit);
    if Resends(e.channel, s, limit) then
      e.(channel := channel, activities := e.activities[i := Transmitting(s, channel.pending[s].packet)])
    else
      e.(channel := channel,
         activities := Without(e.activities, i),
         expired := if s in e.channel.pending then e.expired + {s} else e.expired)
  }

  function Apply(e: Endpoint, ev: Event): Endpoint
    requires Enabled(e, ev)
  {
    match ev
    case Submit(p) =>
      e.(channel := OnSend(e.channel, p),
         activities := e.activities + [Transmitting(NextSequence(e.channel), Stamped(e.channel, p))],
         submitted := e.submitted + [p])
    case Transmit(i) =>
      var s := e.activities[i].sequence;
      e.(activities := e.activities[i := Queued(s)], transmitted := e.transmitted + multiset{s})
    case Arm(i) =>
      e.(activities := e.activities[i := Armed(e.activities[i].sequence, e.limit)])
    case Fire(i) => AfterFire(e, i)
    case Configure(n) =>
      e.(limit := AtLeastOne(n), highestLimit := Higher(e.highestLimit, AtLeastOne(n)))
    case HearAck(h) =>
      e.(channel := OnAck(e.channel, h), acked := e.acked + AckedBy(e.channel, h))
    case HearData(p) =>
      e.(channel := OnSequence(e.channel, p.header),
         arrivals := e.arrivals + [p],
         accepted := if Classify(e.channel.window, p.header.sequence) == Duplicate then e.accepted
                     else e.accepted + {p.header.sequence})
    case EmitAck => e.(channel := OnAckDue(e.channel))
  }

  /** What an event puts on the wire. */
  function Emits(e: Endpoint, ev: Event): set<Packet>
    requires Enabled(e, ev)
  {
    match ev
    case Transmit(i) => {e.activities[i].packet}
    case EmitAck => {AckPacket(e.channel, e.port)}
    case _ => {}
  }

  // ---------------------------------------------------------------- runs

  predicate Runs(e: Endpoint, evs: seq<Event>)
    decreases |evs|
  {
    evs == [] || (Enabled(e, evs[0]) && Runs(Apply(e, evs[0]), evs[1..]))
  }

  function Run(e: Endpoint, evs: seq<Event>): Endpoint
    requires Runs(e, evs)
    decreases |evs|
  {
    if evs == [] then e else Run(Apply(e, evs[0]), evs[1..])
  }

  // ---------------------------------------------------------------- the sender's books

  /** Sequences are handed out as 1, 2, 3, …; the counter has not wrapped. */
  ghost predicate Numbered(e: Endpoint) {
    e.channel.nextOutgoing == |e.submitted|
  }

  /** Every sequence handed out is in exactly one of pending, acknowledged and expired. */
  ghost predicate Accounted(e: Endpoint) {
    && (forall s: Word ::
          1 <= s <= |e.submitted| <==> s in e.channel.pending || s in e.acked || s in e.expired)
    && e.channel.pending.Keys !! e.acked !! e.expired
  }

  ghost predicate Works(activities: seq<Activity>, s: Word) {
    exists i :: 0 <= i < |activities| && activities[i].sequence == s
  }

  ghost predicate Distinct(activities: seq<Activity>) {
    forall i, j :: 0 <= i < j < |activities| ==> activities[i].sequence != activities[j].sequence
  }

  /** A pending packet has exactly one send or timer under way; no sequence has two. */
  ghost predicate OneActivityEach(e: Endpoint) {
    && Distinct(e.activities)
    && (forall i :: 0 <= i < |e.activities| ==> 1 <= e.activities[i].sequence <= |e.submitted|)
    && (forall s :: s in e.channel.pending ==> Works(e.activities, s))
  }

  /** The packet carries sequence `s` and what was submitted under that number. */
  predicate CopyOf(p: Packet, s: Word, submitted: seq<Packet>) {
    && 1 <= s <= |submitted|
    && p.header.sequence == s
    && p.header.flags == submitted[s - 1].header.flags
    && p.header.guarantee == submitted[s - 1].header.guarantee
    && p.header.channel == submitted[s - 1].header.channel
    && p.payload == submitted[s - 1].payload
    && !AckOnly(p)
  }

  ghost predicate Copies(e: Endpoint) {
    && (forall s :: s in e.channel.pending ==> CopyOf(e.channel.pending[s].packet, s, e.submitted))
    && (forall i :: 0 <= i < |e.activities| && e.activities[i].Transmitting? ==>
          CopyOf(e.activities[i].packet, e.activities[i].sequence, e.submitted))
  }

  ghost predicate OnItsWay(activities: seq<Activity>, s: Word) {
    exists i :: 0 <= i < |activities| && activities[i].Transmitting? && activities[i].sequence == s
  }

  /** Copies of `s` given to the transport, counting one that is just being handed over. */
  ghost function Copied(e: Endpoint, s: Word): nat {
    e.transmitted[s] + if OnItsWay(e.activities, s) then 1 else 0
  }

  /** A pending packet with `k` retries was given to the transport `k + 1` times. */
  ghost predicate Budgeted(e: Endpoint) {
    && 1 <= e.limit <= e.highestLimit
    && (forall i :: 0 <= i < |e.activities| && e.activities[i].Armed? ==> e.activities[i].limit <= e.highestLimit)
    && (forall s: Word :: Copied(e, s) <= e.highestLimit)
    && (forall s: Word :: s > |e.submitted| ==> Copied(e, s) == 0)
    && (forall s :: s in e.channel.pending ==> Copied(e, s) == e.channel.pending[s].attempts + 1)
  }

  ghost predicate SenderInv(e: Endpoint) {
    Numbered(e) && Accounted(e) && OneActivityEach(e) && Copies(e) && Budgeted(e)
  }

  lemma InitialSender(port: Port, limit: Attempts)
    requires limit >= 1
    ensures SenderInv(Initial(port, limit))
  {
  }

  /** Replacing an activity by one for the same sequence. */
  lemma ReplacedActivity(activities: seq<Activity>, i: nat, a: Activity, s: Word)
    requires i < |activities| && a.sequence == activities[i].sequence && Distinct(activities)
    ensures Distinct(activities[i := a])
    ensures Works(activities[i := a], s) <==> Works(activities, s)
    ensures s != a.sequence ==> (OnItsWay(activities[i := a], s) <==> OnItsWay(activities, s))
    ensures OnItsWay(activities[i := a], a.sequence) <==> a.Transmitting?
    ensures OnItsWay(activities, a.sequence) <==> activities[i].Transmitting?
  {
    var after := activities[i := a];
    assert forall k :: 0 <= k < |after| ==> after[k].sequence == activities[k].sequence;
    forall k | 0 <= k < |after| && k != i ensures after[k] == activities[k] && after[k].sequence != a.sequence {
    }
    assert after[i] == a;
  }

  lemma RemovedActivity(activities: seq<Activity>, i: nat, s: Word)
    requires i < |activities| && Distinct(activities)
    ensures Distinct(Without(activities, i))
    ensures Works(Without(activities, i), s) <==> s != activities[i].sequence && Works(activities, s)
    ensures s != activities[i].sequence ==> (OnItsWay(Without(activities, i), s) <==> OnItsWay(activities, s))
    ensures !OnItsWay(Without(activities, i), activities[i].sequence)
  {
    var after := Without(activities, i);
    forall k | 0 <= k < |activities| && k != i
      ensures activities[k] == after[if k < i then k else k - 1]
    {
    }
    forall k | 0 <= k < |after| ensures after[k] == activities[if k < i then k else k + 1] {
    }
  }

  lemma AppendedActivity(activities: seq<Activity>, a: Activity, s: Word)
    requires Distinct(activities) && !Works(activities, a.sequence)
    ensures Distinct(activities + [a])
    ensures Works(activities + [a], s) <==> s == a.sequence || Works(activities, s)
    ensures OnItsWay(activities + [a], s) <==> (s == a.sequence && a.Transmitting?) || OnItsWay(activities, s)
  {
    var after := activities + [a];
    assert after[|activities|] == a;
    assert forall k :: 0 <= k < |activities| ==> after[k] == activities[k];
  }
}
