/**
 Two ends of a reliable channel joined by a network that may lose, copy, delay and reorder.  The
 network is the set of all packets ever put on the wire; any of them may be received at any time,
 any number of times, or never.
 */
module ReliableSystem {
  import opened Serial
  import opened ReceiveWindow
  import opened ReliableChannel
  import opened ReliableEndpoint
  import opened SenderBooks

  datatype System = System(a: Endpoint, b: Endpoint, toA: set<Packet>, toB: set<Packet>)

  datatype Step = AtA(event: Event) | AtB(event: Event)

  function Start(port: Port, limitA: Attempts, limitB: Attempts): System {
    System(Initial(port, limitA), Initial(port, limitB), {}, {})
  }

  /** An event that receives a packet needs that packet to be on the wire. */
  predicate Supplied(ev: Event, wire: set<Packet>) {
    && (ev.HearAck? ==> exists p :: p in wire && p.header == ev.header)
    && (ev.HearData? ==> ev.packet in wire)
  }

  predicate CanStep(s: System, st: Step) {
    match st
    case AtA(ev) => Enabled(s.a, ev) && Supplied(ev, s.toA)
    case AtB(ev) => Enabled(s.b, ev) && Supplied(ev, s.toB)
  }

  function Next(s: System, st: Step): System
    requires CanStep(s, st)
  {
    match st
    case AtA(ev) => s.(a := Apply(s.a, ev), toB := s.toB + Emits(s.a, ev))
    case AtB(ev) => s.(b := Apply(s.b, ev), toA := s.toA + Emits(s.b, ev))
  }

  predicate CanRun(s: System, steps: seq<Step>)
    decreases |steps|
  {
    steps == [] || (CanStep(s, steps[0]) && CanRun(Next(s, steps[0]), steps[1..]))
  }

  function After(s: System, steps: seq<Step>): System
    requires CanRun(s, steps)
    decreases |steps|
  {
    if steps == [] then s else After(Next(s, steps[0]), steps[1..])
  }

  /** Neither side's sequence counter has wrapped. */
  predicate Unwrapped(s: System) {
    |s.a.submitted| < RANGE && |s.b.submitted| < RANGE
  }

  // ---------------------------------------------------------------- the invariant, one direction

  /** Everything `header` acknowledges was accepted; word 0 is never handed out. */
  ghost predicate HonestHeader(header: Header, accepted: set<Word>) {
    forall s: Word ::
      IsSequenceAcked(s, header.acknowledgment, header.acknowledgmentMask) ==> s == 0 || s in accepted
  }

  ghost predicate HonestWindow(w: Window, accepted: set<Word>) {
    forall s: Word :: Covers(w, s) ==> s == 0 || s in accepted
  }

  /** All headers a side has put, or is about to put, on the wire. */
  ghost predicate HonestSide(receiver: Endpoint, wire: set<Packet>) {
    && HonestWindow(receiver.channel.window, receiver.accepted)
    && (forall p :: p in wire ==> HonestHeader(p.header, receiver.accepted))
    && (forall i :: 0 <= i < |receiver.activities| && receiver.activities[i].Transmitting? ==>
          HonestHeader(receiver.activities[i].packet.header, receiver.accepted))
  }

  /** Data on the wire is what the sender submitted under its sequence. */
  ghost predicate TrueCopies(sender: Endpoint, wire: set<Packet>) {
    forall p :: p in wire && !AckOnly(p) ==> CopyOf(p, p.header.sequence, sender.submitted)
  }

  ghost predicate TrueArrivals(sender: Endpoint, receiver: Endpoint) {
    && (forall i :: 0 <= i < |receiver.arrivals| ==>
          CopyOf(receiver.arrivals[i], receiver.arrivals[i].header.sequence, sender.submitted))
    && (forall s :: s in receiver.accepted ==> 1 <= s <= |sender.submitted|)
  }

  /** `forward` carries the sender's packets, `back` the receiver's. */
  ghost predicate Direction(sender: Endpoint, receiver: Endpoint, forward: set<Packet>, back: set<Packet>) {
    && TrueCopies(sender, forward)
    && TrueArrivals(sender, receiver)
    && HonestSide(receiver, back)
    && sender.acked <= receiver.accepted
  }

  ghost predicate SystemInv(s: System) {
    && SenderInv(s.a) && SenderInv(s.b)
    && Direction(s.a, s.b, s.toB, s.toA)
    && Direction(s.b, s.a, s.toA, s.toB)
  }

  lemma EmptyWindowIsHonest()
    ensures HonestWindow(EmptyWindow, {})
  {
    forall s: Word | Covers(EmptyWindow, s) ensures s == 0 {
    }
  }

  lemma StartInv(port: Port, limitA: Attempts, limitB: Attempts)
    requires limitA >= 1 && limitB >= 1
    ensures SystemInv(Start(port, limitA, limitB))
  {
    EmptyWindowIsHonest();
    InitialSender(port, limitA);
    InitialSender(port, limitB);
  }

  lemma HonestHeaderGrows(header: Header, accepted: set<Word>, more: set<Word>)
    requires HonestHeader(header, accepted) && accepted <= more
    ensures HonestHeader(header, more)
  {
    hide IsSequenceAcked;
  }

  lemma StampIsHonest(h: Header, w: Window, accepted: set<Word>)
    requires HonestWindow(w, accepted) && h.acknowledgment == w.last && h.acknowledgmentMask == w.mask
    ensures HonestHeader(h, accepted)
  {
    hide IsSequenceAcked;
  }

  /** Accepting an arrival keeps the window honest about what was accepted. */
  lemma ArrivalKeepsWindowHonest(w: Window, s: Word, accepted: set<Word>)
    requires HonestWindow(w, accepted)
    ensures HonestWindow(Advance(w, s), if Classify(w, s) == Duplicate then accepted else accepted + {s})
  {
    forall t: Word | Covers(Advance(w, s), t)
      ensures t == 0 || t in if Classify(w, s) == Duplicate then accepted else accepted + {s}
    {
      CoverageGrowsByArrival(w, s, t);
    }
  }

  // ---------------------------------------------------------------- an event on the sending side

  lemma SenderSubmits(x: Endpoint, y: Endpoint, forward: set<Packet>, back: set<Packet>, p: Packet)
    requires SenderInv(x) && Direction(x, y, forward, back) && Enabled(x, Submit(p))
    ensures Direction(Apply(x, Submit(p)), y, forward, back)
  {
    hide SenderInv, HonestSide;
    var x' := Apply(x, Submit(p));
    forall s: Word, q: Packet | CopyOf(q, s, x.submitted) ensures CopyOf(q, s, x'.submitted) {
      assert x'.submitted[s - 1] == x.submitted[s - 1];
    }
  }

  lemma SenderHearsAck(x: Endpoint, y: Endpoint, forward: set<Packet>, back: set<Packet>, h: Header)
    requires SenderInv(x) && Direction(x, y, forward, back) && Supplied(HearAck(h), back)
    ensures Direction(Apply(x, HearAck(h)), y, forward, back)
    ensures AckedBy(x.channel, h) <= y.accepted
  {
    hide IsSequenceAcked, OneActivityEach, Budgeted, CopyOf;
    var p :| p in back && p.header == h;
    assert HonestHeader(h, y.accepted);
    forall s | s in AckedBy(x.channel, h) ensures s in y.accepted {
      assert IsSequenceAcked(s, h.acknowledgment, h.acknowledgmentMask);
      assert s in x.channel.pending;
      assert 1 <= s;
    }
  }

  lemma SenderEvent(x: Endpoint, y: Endpoint, forward: set<Packet>, back: set<Packet>, ev: Event)
    requires SenderInv(x) && Direction(x, y, forward, back) && Enabled(x, ev) && Supplied(ev, back)
    ensures Direction(Apply(x, ev), y, forward + Emits(x, ev), back)
  {
    hide CopyOf, HonestSide;
    match ev
    case Submit(p) =>
      SenderSubmits(x, y, forward, back, p);
      assert forward + {} == forward;
    case HearAck(h) =>
      SenderHearsAck(x, y, forward, back, h);
      assert forward + {} == forward;
    case _ =>
      SameSubmitted(x, ev);
      EmittedIsTrue(x, ev);
  }

  lemma EmittedIsTrue(x: Endpoint, ev: Event)
    requires SenderInv(x) && Enabled(x, ev)
    ensures forall p :: p in Emits(x, ev) && !AckOnly(p) ==> CopyOf(p, p.header.sequence, x.submitted)
  {
  }

  // ---------------------------------------------------------------- an event on the receiving side

  lemma ReceiverHearsData(x: Endpoint, y: Endpoint, forward: set<Packet>, back: set<Packet>, p: Packet)
    requires Direction(x, y, forward, back) && Enabled(y, HearData(p)) && p in forward
    ensures Direction(x, Apply(y, HearData(p)), forward, back)
  {
    hide IsSequenceAcked, Covers, Advance, Classify;
    var y' := Apply(y, HearData(p));
    ArrivalKeepsWindowHonest(y.channel.window, p.header.sequence, y.accepted);
    assert CopyOf(p, p.header.sequence, x.submitted);
    forall h | HonestHeader(h, y.accepted) ensures HonestHeader(h, y'.accepted) {
      HonestHeaderGrows(h, y.accepted, y'.accepted);
    }
    hide HonestHeader, HonestWindow, CopyOf;
  }

  /** Headers stamped by a send, refreshed by a retry or put into an acknowledgement. */
  lemma ReceiverStamps(y: Endpoint, back: set<Packet>, ev: Event)
    requires HonestSide(y, back) && Enabled(y, ev) && !ev.HearData?
    ensures HonestSide(Apply(y, ev), back + Emits(y, ev))
  {
    hide IsSequenceAcked, Covers, HonestWindow;
    var y' := Apply(y, ev);
    forall h: Header | h.acknowledgment == y.channel.window.last && h.acknowledgmentMask == y.channel.window.mask
      ensures HonestHeader(h, y.accepted)
    {
      StampIsHonest(h, y.channel.window, y.accepted);
    }
    hide HonestHeader;
    match ev
    case Fire(i) =>
      if !Resends(y.channel, y.activities[i].sequence, y.activities[i].limit) {
        forall k | 0 <= k < |y'.activities|
          ensures y'.activities[k] == y.activities[if k < i then k else k + 1]
        {
        }
      }
    case _ =>
  }

  lemma ReceiverEvent(x: Endpoint, y: Endpoint, forward: set<Packet>, back: set<Packet>, ev: Event)
    requires Direction(x, y, forward, back) && Enabled(y, ev) && Supplied(ev, forward)
    ensures Direction(x, Apply(y, ev), forward, back + Emits(y, ev))
  {
    hide CopyOf, HonestHeader;
    match ev
    case HearData(p) =>
      ReceiverHearsData(x, y, forward, back, p);
      assert back + {} == back;
    case _ =>
      ReceiverStamps(y, back, ev);
      hide HonestSide;
  }

  // ---------------------------------------------------------------- whole runs

  lemma StepKeepsInv(s: System, st: Step)
    requires SystemInv(s) && CanStep(s, st) && Unwrapped(Next(s, st))
    ensures SystemInv(Next(s, st))
  {
    hide SenderInv, Direction, Apply, Enabled, Supplied, Emits;
    match st
    case AtA(ev) =>
      EventKeepsBooks(s.a, ev);
      SenderEvent(s.a, s.b, s.toB, s.toA, ev);
      ReceiverEvent(s.b, s.a, s.toA, s.toB, ev);
    case AtB(ev) =>
      EventKeepsBooks(s.b, ev);
      SenderEvent(s.b, s.a, s.toA, s.toB, ev);
      ReceiverEvent(s.a, s.b, s.toB, s.toA, ev);
  }

  lemma {:induction false} RunStaysUnwrapped(s: System, steps: seq<Step>)
    requires CanRun(s, steps) && Unwrapped(After(s, steps))
    ensures Unwrapped(s)
    decreases |steps|
  {
    hide Enabled, Supplied, Emits, Apply;
    if steps != [] {
      RunStaysUnwrapped(Next(s, steps[0]), steps[1..]);
      StepOnlySubmits(s, steps[0]);
    }
  }

  lemma StepOnlySubmits(s: System, st: Step)
    requires CanStep(s, st)
    ensures |s.a.submitted| <= |Next(s, st).a.submitted|
    ensures |s.b.submitted| <= |Next(s, st).b.submitted|
  {
    hide Advance, Classify, OnTimer, OnAck, OnSend, Supplied;
  }

  lemma {:induction false} RunKeepsInv(s: System, steps: seq<Step>)
    requires SystemInv(s) && CanRun(s, steps) && Unwrapped(After(s, steps))
    ensures SystemInv(After(s, steps))
    decreases |steps|
  {
    hide SystemInv, CanStep, Next;
    if steps != [] {
      RunStaysUnwrapped(Next(s, steps[0]), steps[1..]);
      StepKeepsInv(s, steps[0]);
      RunKeepsInv(Next(s, steps[0]), steps[1..]);
    }
  }

  // ---------------------------------------------------------------- what every run guarantees

  lemma DirectionAcked(s: System)
    requires SystemInv(s)
    ensures s.a.acked <= s.b.accepted && s.b.acked <= s.a.accepted
  {
  }

  /** Integrity: what arrives at a peer is what the other side submitted under that number. */
  lemma ArrivalsAreGenuine(port: Port, limitA: Attempts, limitB: Attempts, steps: seq<Step>, i: nat)
    requires limitA >= 1 && limitB >= 1 && CanRun(Start(port, limitA, limitB), steps)
    requires Unwrapped(After(Start(port, limitA, limitB), steps))
    requires i < |After(Start(port, limitA, limitB), steps).b.arrivals|
    ensures var end := After(Start(port, limitA, limitB), steps);
            var p := end.b.arrivals[i];
            1 <= p.header.sequence <= |end.a.submitted| &&
            var q := end.a.submitted[p.header.sequence - 1];
            && p.payload == q.payload && p.header.flags == q.header.flags
            && p.header.guarantee == q.header.guarantee && p.header.channel == q.header.channel
  {
    StartInv(port, limitA, limitB);
    RunKeepsInv(Start(port, limitA, limitB), steps);
    var end := After(Start(port, limitA, limitB), steps);
    ArrivalCopy(end, i);
  }

  lemma ArrivalCopy(s: System, i: nat)
    requires SystemInv(s) && i < |s.b.arrivals|
    ensures CopyOf(s.b.arrivals[i], s.b.arrivals[i].header.sequence, s.a.submitted)
  {
    hide CopyOf, SenderInv, HonestSide, TrueCopies;
  }

  // ---------------------------------------------------------------- how often a packet is delivered

  function Sequences(arrivals: seq<Packet>): (words: seq<int>)
    ensures |words| == |arrivals|
    ensures forall i :: 0 <= i < |words| ==> words[i] == arrivals[i].header.sequence
  {
    seq(|arrivals|, i requires 0 <= i < |arrivals| => arrivals[i].header.sequence as int)
  }

  /** `receive` handed the `i`-th arrival to the application. */
  predicate Delivered(e: Endpoint, i: nat)
    requires i < |e.arrivals|
  {
    VerdictAt(WrapAll(Sequences(e.arrivals)), i) != Duplicate
  }

  ghost predicate DeliveredSomewhere(e: Endpoint, s: Word) {
    exists i :: 0 <= i < |e.arrivals| && e.arrivals[i].header.sequence == s && Delivered(e, i)
  }

  /** The window of an endpoint, and the record of what it accepted, are those of its arrivals. */
  ghost predicate FollowsArrivals(e: Endpoint) {
    && e.channel.window == WindowAfter(WrapAll(Sequences(e.arrivals)))
    && (forall s: Word :: s in e.accepted <==> DeliveredSomewhere(e, s))
  }

  lemma OneMoreArrival(e: Endpoint, p: Packet, e': Endpoint)
    requires e.channel.window == WindowAfter(WrapAll(Sequences(e.arrivals)))
    requires e'.arrivals == e.arrivals + [p]
    ensures WindowAfter(WrapAll(Sequences(e'.arrivals))) == Advance(e.channel.window, p.header.sequence)
    ensures Delivered(e', |e.arrivals|) <==> Classify(e.channel.window, p.header.sequence) != Duplicate
    ensures forall i :: 0 <= i < |e.arrivals| ==> (Delivered(e', i) <==> Delivered(e, i))
  {
    hide Advance, Classify;
    var m := |e.arrivals|;
    var words, words' := WrapAll(Sequences(e.arrivals)), WrapAll(Sequences(e'.arrivals));
    assert words'[..m] == words;
    assert words'[m] == p.header.sequence;
    forall i | 0 <= i < m ensures Delivered(e', i) <==> Delivered(e, i) {
      assert words'[..i] == words[..i];
    }
  }

  lemma DeliveredAfterOneMore(e: Endpoint, p: Packet, e': Endpoint, s: Word)
    requires e.channel.window == WindowAfter(WrapAll(Sequences(e.arrivals)))
    requires e'.arrivals == e.arrivals + [p]
    ensures DeliveredSomewhere(e', s) <==>
            DeliveredSomewhere(e, s) || (s == p.header.sequence && Classify(e.channel.window, s) != Duplicate)
  {
    OneMoreArrival(e, p, e');
    hide Delivered, Classify, WindowAfter;
    var m := |e.arrivals|;
    assert e'.arrivals[m] == p;
    if DeliveredSomewhere(e, s) {
      var i :| 0 <= i < m && e.arrivals[i].header.sequence == s && Delivered(e, i);
      assert e'.arrivals[i].header.sequence == s && Delivered(e', i);
    }
    if DeliveredSomewhere(e', s) {
      var i :| 0 <= i < m + 1 && e'.arrivals[i].header.sequence == s && Delivered(e', i);
      if i < m { assert e.arrivals[i].header.sequence == s && Delivered(e, i); }
    }
  }

  lemma EventFollows(e: Endpoint, ev: Event)
    requires FollowsArrivals(e) && Enabled(e, ev)
    ensures FollowsArrivals(Apply(e, ev))
  {
    hide Advance, Classify;
    var e' := Apply(e, ev);
    if ev.HearData? {
      OneMoreArrival(e, ev.packet, e');
      forall s: Word
        ensures DeliveredSomewhere(e', s) <==>
                || DeliveredSomewhere(e, s)
                || (s == ev.packet.header.sequence && Classify(e.channel.window, s) != Duplicate)
      {
        DeliveredAfterOneMore(e, ev.packet, e', s);
      }
      hide DeliveredSomewhere, WindowAfter;
    }
  }

  lemma {:induction false} RunFollows(s: System, steps: seq<Step>)
    requires FollowsArrivals(s.a) && FollowsArrivals(s.b) && CanRun(s, steps)
    ensures FollowsArrivals(After(s, steps).a) && FollowsArrivals(After(s, steps).b)
    decreases |steps|
  {
    hide FollowsArrivals, Enabled, Supplied, Apply, Emits;
    if steps != [] {
      match steps[0] {
        case AtA(ev) => EventFollows(s.a, ev);
        case AtB(ev) => EventFollows(s.b, ev);
      }
      RunFollows(Next(s, steps[0]), steps[1..]);
    }
  }

  lemma SmallNumbersAreInReach(numbers: seq<int>)
    requires forall i :: 0 <= i < |numbers| ==> 0 < numbers[i] < HALF
    ensures AllInReach(numbers)
  {
    forall i | 0 <= i < |numbers| ensures InReach(RefRun(numbers[..i]), numbers[i]) {
      if i > 0 {
        HeadIsMax(numbers[..i]);
        assert RefRun(numbers[..i]).last in numbers[..i];
      }
    }
  }

  /**
   End to end: with fewer than 2^31 packets submitted by the sender, whatever the network does, no
   packet is delivered more than twice; and if it is delivered at two arrivals, then it was the
   newest packet at the first of them.
   */
  lemma DeliveredAtMostTwice(
    port: Port, limitA: Attempts, limitB: Attempts, steps: seq<Step>, i: nat, j: nat, k: nat)
    requires limitA >= 1 && limitB >= 1 && CanRun(Start(port, limitA, limitB), steps)
    requires var end := After(Start(port, limitA, limitB), steps);
             && |end.a.submitted| < HALF && |end.b.submitted| < RANGE
             && i < j < |end.b.arrivals| && Delivered(end.b, i) && Delivered(end.b, j)
             && end.b.arrivals[i].header.sequence == end.b.arrivals[j].header.sequence
    ensures var end := After(Start(port, limitA, limitB), steps);
            var words := WrapAll(Sequences(end.b.arrivals));
            && VerdictAt(words, i) == Newest && VerdictAt(words, j) == Late
            && (j < k < |end.b.arrivals| && end.b.arrivals[k].header.sequence == end.b.arrivals[j].header.sequence
                ==> !Delivered(end.b, k))
  {
    StartInv(port, limitA, limitB);
    RunKeepsInv(Start(port, limitA, limitB), steps);
    var end := After(Start(port, limitA, limitB), steps);
    var numbers := Sequences(end.b.arrivals);
    forall m | 0 <= m < |numbers| ensures 0 < numbers[m] < HALF { ArrivalCopy(end, m); }
    hide SystemInv, CanRun, After, VerdictAt;
    SmallNumbersAreInReach(numbers);
    AcceptedTwiceShape(numbers, i, j);
    if j < k < |end.b.arrivals| && numbers[k] == numbers[j] { NeverAcceptedThrice(numbers, i, j, k); }
  }

  /**
   Acknowledgement soundness: in every run over any network, a packet the sender has struck off
   as acknowledged was delivered to the application at the other end.
   */
  lemma AcknowledgedWasDelivered(port: Port, limitA: Attempts, limitB: Attempts, steps: seq<Step>, s: Word)
    requires limitA >= 1 && limitB >= 1 && CanRun(Start(port, limitA, limitB), steps)
    requires Unwrapped(After(Start(port, limitA, limitB), steps))
    ensures var end := After(Start(port, limitA, limitB), steps);
            && (s in end.a.acked ==> DeliveredSomewhere(end.b, s))
            && (s in end.b.acked ==> DeliveredSomewhere(end.a, s))
  {
    StartInv(port, limitA, limitB);
    RunKeepsInv(Start(port, limitA, limitB), steps);
    assert FollowsArrivals(Start(port, limitA, limitB).a);
    RunFollows(Start(port, limitA, limitB), steps);
    hide SystemInv, CanRun, After, DeliveredSomewhere;
    DirectionAcked(After(Start(port, limitA, limitB), steps));
  }

  /** The same at the moment it matters: what one `record_ack` strikes off was delivered before. */
  lemma StruckOffWasDelivered(port: Port, limitA: Attempts, limitB: Attempts, steps: seq<Step>, h: Header, s: Word)
    requires limitA >= 1 && limitB >= 1 && CanRun(Start(port, limitA, limitB), steps)
    requires Unwrapped(After(Start(port, limitA, limitB), steps))
    requires CanStep(After(Start(port, limitA, limitB), steps), AtA(HearAck(h)))
    requires var end := After(Start(port, limitA, limitB), steps);
             s in end.a.channel.pending && s !in OnAck(end.a.channel, h).pending
    ensures DeliveredSomewhere(After(Start(port, limitA, limitB), steps).b, s)
  {
    StartInv(port, limitA, limitB);
    RunKeepsInv(Start(port, limitA, limitB), steps);
    assert FollowsArrivals(Start(port, limitA, limitB).a);
    RunFollows(Start(port, limitA, limitB), steps);
    var end := After(Start(port, limitA, limitB), steps);
    hide CanRun, After, DeliveredSomewhere, Direction, SenderInv;
    SenderHearsAck(end.a, end.b, end.toB, end.toA, h);
    assert s in AckedBy(end.a.channel, h);
  }

  lemma StepThenRun(s: System, st: Step, rest: seq<Step>)
    requires CanStep(s, st) && CanRun(Next(s, st), rest)
    ensures CanRun(s, [st] + rest) && After(s, [st] + rest) == After(Next(s, st), rest)
  {
    hide CanStep, Next;
    assert ([st] + rest)[0] == st && ([st] + rest)[1..] == rest;
  }

  lemma DeliverUnanswered(port: Port, p: Packet) returns (s: System)
    requires !AckOnly(p)
    ensures var q := Stamped(FreshChannel, p);
            var steps := [AtA(Submit(p))] + ([AtA(Transmit(0))] + ([AtB(HearData(q))] + []));
            CanRun(Start(port, 1, 1), steps) && After(Start(port, 1, 1), steps) == s
    ensures s.a.activities == [Queued(1)] && s.a.limit == 1
    ensures 1 in s.a.channel.pending && s.a.channel.pending[1].attempts == 0
    ensures 1 in s.b.accepted
  {
    var q := Stamped(FreshChannel, p);
    var s1 := Next(Start(port, 1, 1), AtA(Submit(p)));
    assert s1.a.activities == [Transmitting(1, q)];
    var s2 := Next(s1, AtA(Transmit(0)));
    assert s2.a.activities == [Queued(1)] && q in s2.toB;
    s := Next(s2, AtB(HearData(q)));
    StepThenRun(s2, AtB(HearData(q)), []);
    StepThenRun(s1, AtA(Transmit(0)), [AtB(HearData(q))] + []);
    StepThenRun(Start(port, 1, 1), AtA(Submit(p)), [AtA(Transmit(0))] + ([AtB(HearData(q))] + []));
  }

  lemma GiveUp(s: System)
    requires s.a.activities == [Queued(1)] && s.a.limit == 1
    requires 1 in s.a.channel.pending && s.a.channel.pending[1].attempts == 0
    ensures CanRun(s, [AtA(Arm(0))] + ([AtA(Fire(0))] + []))
    ensures var end := After(s, [AtA(Arm(0))] + ([AtA(Fire(0))] + []));
            1 in end.a.expired && end.b == s.b
  {
    var s1 := Next(s, AtA(Arm(0)));
    assert s1.a.activities == [Armed(1, 1)];
    StepThenRun(s1, AtA(Fire(0)), []);
    StepThenRun(s, AtA(Arm(0)), [AtA(Fire(0))] + []);
  }

  lemma {:induction false} RunsCompose(s: System, first: seq<Step>, second: seq<Step>)
    requires CanRun(s, first) && CanRun(After(s, first), second)
    ensures CanRun(s, first + second) && After(s, first + second) == After(After(s, first), second)
    decreases |first|
  {
    hide CanStep, Next;
    if first == [] {
      assert first + second == second;
    } else {
      RunsCompose(Next(s, first[0]), first[1..], second);
      assert (first + second)[0] == first[0] && (first + second)[1..] == first[1..] + second;
    }
  }

  /**
   Expiry does not mean loss: a packet may be delivered and still be dropped from the pending
   table as undeliverable, when its acknowledgement does not arrive in time.
   */
  lemma ExpiredMayBeDelivered(port: Port, p: Packet)
    requires !AckOnly(p)
    ensures exists steps ::
              && CanRun(Start(port, 1, 1), steps)
              && 1 in After(Start(port, 1, 1), steps).a.expired
              && 1 in After(Start(port, 1, 1), steps).b.accepted
  {
    hide *;
    var s := DeliverUnanswered(port, p);
    GiveUp(s);
    var q := Stamped(FreshChannel, p);
    RunsCompose(Start(port, 1, 1), [AtA(Submit(p))] + ([AtA(Transmit(0))] + ([AtB(HearData(q))] + [])),
                [AtA(Arm(0))] + ([AtA(Fire(0))] + []));
  }
}
