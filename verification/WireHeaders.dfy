/**
 What is on the wire.  Every packet of a channel stays on that channel, data is what was submitted
 but for its sequence and its acknowledgement, anything else is a bare acknowledgement; and each
 header speaks for the window its side had when it was made.
 */
module WireHeaders {
  import opened Serial
  import opened ReceiveWindow
  import opened ReliableChannel
  import opened ReliableEndpoint
  import opened ReliableSystem

  /** Everything the run submits is meant for the channel `port`. */
  predicate SubmitsOn(steps: seq<Step>, port: Port) {
    forall k :: 0 <= k < |steps| && steps[k].event.Submit? ==> steps[k].event.packet.header.channel == port
  }

  /** An acknowledgement of its own: sequence 0, unreliable, flagged, empty. */
  predicate BareAck(p: Packet, port: Port) {
    && p.header.sequence == 0 && p.header.guarantee == Unreliable && p.header.flags == 1
    && p.header.channel == port && p.payload == []
  }

  predicate SubmittedOn(e: Endpoint, port: Port) {
    e.port == port && forall i :: 0 <= i < |e.submitted| ==> e.submitted[i].header.channel == port
  }

  predicate AcksAreBare(wire: set<Packet>, port: Port) {
    forall p :: p in wire && AckOnly(p) ==> BareAck(p, port)
  }

  predicate OnPort(s: System, port: Port) {
    SubmittedOn(s.a, port) && SubmittedOn(s.b, port) && AcksAreBare(s.toA, port) && AcksAreBare(s.toB, port)
  }

  lemma EmitsBareAcks(e: Endpoint, ev: Event)
    requires SenderInv(e) && Enabled(e, ev)
    ensures AcksAreBare(Emits(e, ev), e.port)
  {
    hide OneActivityEach, Budgeted, Accounted, Numbered;
  }

  lemma SubmittedOnStep(e: Endpoint, ev: Event, port: Port)
    requires SubmittedOn(e, port) && Enabled(e, ev) && (ev.Submit? ==> ev.packet.header.channel == port)
    ensures SubmittedOn(Apply(e, ev), port)
  {
    hide OnSend, OnTimer, OnAck, OnSequence;
  }

  lemma OnPortStep(s: System, st: Step, port: Port)
    requires SystemInv(s) && OnPort(s, port) && CanStep(s, st)
    requires st.event.Submit? ==> st.event.packet.header.channel == port
    ensures OnPort(Next(s, st), port)
  {
    hide Direction, SenderInv, BareAck, AckOnly, Apply, Emits, Enabled, Supplied;
    match st
    case AtA(ev) =>
      EmitsBareAcks(s.a, ev);
      SubmittedOnStep(s.a, ev, port);
    case AtB(ev) =>
      EmitsBareAcks(s.b, ev);
      SubmittedOnStep(s.b, ev, port);
  }

  lemma {:induction false} RunOnPort(s: System, steps: seq<Step>, port: Port)
    requires SystemInv(s) && OnPort(s, port) && CanRun(s, steps) && SubmitsOn(steps, port)
    requires Unwrapped(After(s, steps))
    ensures OnPort(After(s, steps), port)
    decreases |steps|
  {
    hide SystemInv, OnPort, CanStep, Next;
    if steps != [] {
      assert forall k :: 0 <= k < |steps[1..]| ==> steps[1..][k] == steps[k + 1];
      RunStaysUnwrapped(Next(s, steps[0]), steps[1..]);
      StepKeepsInv(s, steps[0]);
      OnPortStep(s, steps[0], port);
      RunOnPort(Next(s, steps[0]), steps[1..], port);
    }
  }

  /** What one of `submitted` looks like under way, but for its acknowledgement; or a bare acknowledgement. */
  predicate Sent(p: Packet, submitted: seq<Packet>, port: Port) {
    && p.header.channel == port
    && (if p.header.flags & 1 != 0 && p.payload == [] then BareAck(p, port)
        else
          && 1 <= p.header.sequence <= |submitted|
          && p.header.guarantee == submitted[p.header.sequence - 1].header.guarantee
          && p.header.flags == submitted[p.header.sequence - 1].header.flags
          && p.payload == submitted[p.header.sequence - 1].payload)
  }

  /**
   The wire of a channel: whatever the run, every packet is on the channel of the two sides, and is
   either what was submitted under its sequence, guarantee and flags included, or a bare
   acknowledgement.
   */
  lemma WireStaysOnChannel(port: Port, limitA: Attempts, limitB: Attempts, steps: seq<Step>)
    requires limitA >= 1 && limitB >= 1 && CanRun(Start(port, limitA, limitB), steps) && SubmitsOn(steps, port)
    requires Unwrapped(After(Start(port, limitA, limitB), steps))
    ensures var end := After(Start(port, limitA, limitB), steps);
            && (forall p :: p in end.toB ==> Sent(p, end.a.submitted, port))
            && (forall p :: p in end.toA ==> Sent(p, end.b.submitted, port))
  {
    var start := Start(port, limitA, limitB);
    var end := After(start, steps);
    StartInv(port, limitA, limitB);
    assert OnPort(start, port);
    RunOnPort(start, steps, port);
    RunKeepsInv(start, steps);
    hide CanRun, After, SenderInv, HonestSide, TrueArrivals;
    assert Direction(end.a, end.b, end.toB, end.toA) && Direction(end.b, end.a, end.toA, end.toB);
    forall p | p in end.toB ensures Sent(p, end.a.submitted, port) { PacketIsSent(p, end.a, port); }
    forall p | p in end.toA ensures Sent(p, end.b.submitted, port) { PacketIsSent(p, end.b, port); }
  }

  lemma PacketIsSent(p: Packet, e: Endpoint, port: Port)
    requires SubmittedOn(e, port) && (AckOnly(p) ==> BareAck(p, port))
    requires !AckOnly(p) ==> CopyOf(p, p.header.sequence, e.submitted)
    ensures Sent(p, e.submitted, port)
  {
  }

  // ---------------------------------------------------------------- what the headers speak for

  /** A header is made at a send, a retry or an acknowledgement, and then speaks for the window there is. */
  lemma MadeHeadersSpeak(e: Endpoint, ev: Event)
    requires Enabled(e, ev)
    ensures ev.Submit? ==>
              var a := Apply(e, ev).activities[|e.activities|];
              a.Transmitting? && Speaks(a.packet.header, e.channel.window) && a.packet.payload == ev.packet.payload
    ensures ev.Fire? && Resends(e.channel, e.activities[ev.index].sequence, e.activities[ev.index].limit) ==>
              var a := Apply(e, ev).activities[ev.index];
              && a.Transmitting? && Speaks(a.packet.header, e.channel.window)
              && a.packet.payload == e.channel.pending[a.sequence].packet.payload
    ensures ev.EmitAck? ==> forall p :: p in Emits(e, ev) ==> Speaks(p.header, e.channel.window)
    ensures ev.EmitAck? ==> exists p :: p in Emits(e, ev)
  {
    hide IsSequenceAcked;
    if ev.EmitAck? { assert AckPacket(e.channel, e.port) in Emits(e, ev); }
  }

  /** The four steps in which B takes in `p`, sends `q`, and A hears the header of `q`. */
  function RoundTrip(s: System, p: Packet, q: Packet, h: Header): seq<Step> {
    [AtB(HearData(p))] + ([AtB(Submit(q))] + ([AtB(Transmit(|s.b.activities|))] + ([AtA(HearAck(h))] + [])))
  }

  lemma AcceptCovers(e: Endpoint, p: Packet)
    requires !AckOnly(p) && Classify(e.channel.window, p.header.sequence) != Duplicate
    ensures Covers(Apply(e, HearData(p)).channel.window, p.header.sequence)
    ensures Apply(e, HearData(p)).activities == e.activities
  {
    hide IsSequenceAcked, Classify, AckOnly, Advance;
    AcceptIsAcknowledged(e.channel.window, p.header.sequence);
  }

  lemma SubmitSpeaks(e: Endpoint, q: Packet)
    requires !AckOnly(q)
    ensures var c := Apply(e, Submit(q));
            && |c.activities| == |e.activities| + 1 && c.activities[|e.activities|].Transmitting?
            && c.channel.window == e.channel.window
            && Speaks(c.activities[|e.activities|].packet.header, c.channel.window)
            && c.activities[|e.activities|].packet.header.channel == q.header.channel
  {
    hide Speaks, AckOnly;
    MadeHeadersSpeak(e, Submit(q));
  }

  /** B takes in `p` and submits `q`: the packet made speaks for a window that covers `p`. */
  lemma AcceptThenSubmit(s: System, p: Packet, q: Packet) returns (made: Packet, t: System)
    requires p in s.toB && !AckOnly(p) && !AckOnly(q)
    requires Classify(s.b.channel.window, p.header.sequence) != Duplicate
    ensures CanStep(s, AtB(HearData(p))) && CanStep(Next(s, AtB(HearData(p))), AtB(Submit(q)))
    ensures t == Next(Next(s, AtB(HearData(p))), AtB(Submit(q))) && t.a == s.a
    ensures |t.b.activities| == |s.b.activities| + 1 && t.b.activities[|s.b.activities|].Transmitting?
    ensures t.b.activities[|s.b.activities|].packet == made && made.header.channel == q.header.channel
    ensures Speaks(made.header, t.b.channel.window) && Covers(t.b.channel.window, p.header.sequence)
  {
    hide Classify, Covers, Speaks, AckOnly, Apply, Emits;
    AcceptCovers(s.b, p);
    var s1 := Next(s, AtB(HearData(p)));
    SubmitSpeaks(s1.b, q);
    t := Next(s1, AtB(Submit(q)));
    made := t.b.activities[|s.b.activities|].packet;
  }

  /** B hands the packet to its transport and A hears its header. */
  lemma TransmitThenHear(s: System, i: nat) returns (t: System)
    requires i < |s.b.activities| && s.b.activities[i].Transmitting?
    requires Speaks(s.b.activities[i].packet.header, s.b.channel.window)
    ensures var h := s.b.activities[i].packet.header;
            && CanStep(s, AtB(Transmit(i))) && CanStep(Next(s, AtB(Transmit(i))), AtA(HearAck(h)))
            && t == Next(Next(s, AtB(Transmit(i))), AtA(HearAck(h)))
    ensures t.b.channel == s.b.channel
    ensures forall n: Word :: n in t.a.channel.pending <==>
              n in s.a.channel.pending && !Covers(s.b.channel.window, n)
  {
    hide IsSequenceAcked, Covers;
    var p := s.b.activities[i].packet;
    var s1 := Next(s, AtB(Transmit(i)));
    assert p in s1.toA;
    t := Next(s1, AtA(HearAck(p.header)));
    forall n: Word ensures n in t.a.channel.pending <==> n in s.a.channel.pending && !Covers(s.b.channel.window, n) {
      SpokenIsStruckOff(s.a.channel, p.header, s.b.channel.window, n);
    }
  }

  /**
   Acknowledgement on the back of data, over the wire: after B has accepted `p`, its next data
   packet settles `p` at A.
   */
  lemma DataAcknowledges(s: System, p: Packet, q: Packet) returns (h: Header)
    requires p in s.toB && !AckOnly(p) && !AckOnly(q)
    requires Classify(s.b.channel.window, p.header.sequence) != Duplicate
    ensures h.channel == q.header.channel && CanRun(s, RoundTrip(s, p, q, h))
    ensures var t := After(s, RoundTrip(s, p, q, h));
            && p.header.sequence !in t.a.channel.pending
            && (forall n: Word :: n in t.a.channel.pending <==>
                  n in s.a.channel.pending && !Covers(t.b.channel.window, n))
  {
    hide Classify, Covers, Speaks, CanStep, Next, AckOnly, CanRun, After;
    var i := |s.b.activities|;
    var made, s2 := AcceptThenSubmit(s, p, q);
    h := made.header;
    var s4 := TransmitThenHear(s2, i);
    var s1 := Next(s, AtB(HearData(p)));
    var s3 := Next(s2, AtB(Transmit(i)));
    NothingMore(s4);
    StepThenRun(s3, AtA(HearAck(h)), []);
    StepThenRun(s2, AtB(Transmit(i)), [AtA(HearAck(h))] + []);
    StepThenRun(s1, AtB(Submit(q)), [AtB(Transmit(i))] + ([AtA(HearAck(h))] + []));
    StepThenRun(s, AtB(HearData(p)), [AtB(Submit(q))] + ([AtB(Transmit(i))] + ([AtA(HearAck(h))] + [])));
  }

  lemma NothingMore(s: System)
    ensures CanRun(s, []) && After(s, []) == s
  {
  }
}
