/**
 What becomes of a lost acknowledgement.  A side with nothing due that accepts nothing new and sends
 nothing of its own puts nothing on the wire, however many duplicates it receives; so its peer can
 strike a packet off only by a header that was there before.
 */
module Silence {
  import opened Serial
  import opened ReceiveWindow
  import opened ReliableChannel
  import opened ReliableEndpoint
  import opened ReliableSystem
  import opened SenderDrain

  /** B hands no packet to its transport and receives no number that is new to it. */
  predicate SilentStep(s: System, st: Step) {
    st.AtB? ==>
      && !st.event.Transmit?
      && (st.event.HearData? ==> Classify(s.b.channel.window, st.event.packet.header.sequence) == Duplicate)
  }

  predicate SilentRun(s: System, steps: seq<Step>)
    requires CanRun(s, steps)
    decreases |steps|
  {
    steps == [] || (SilentStep(s, steps[0]) && SilentRun(Next(s, steps[0]), steps[1..]))
  }

  /** Some packet on the wire has a header that acknowledges `n`. */
  predicate Announced(wire: set<Packet>, n: Word) {
    exists p :: p in wire && IsSequenceAcked(n, p.header.acknowledgment, p.header.acknowledgmentMask)
  }

  lemma DuplicateChangesNoWindow(w: Window, n: Word)
    requires Classify(w, n) == Duplicate
    ensures Advance(w, n) == w
  {
  }

  lemma SilentKeeps(s: System, st: Step)
    requires CanStep(s, st) && SilentStep(s, st) && !s.b.channel.pendingAck
    ensures var t := Next(s, st);
            t.toA == s.toA && !t.b.channel.pendingAck && t.b.channel.window == s.b.channel.window
            && t.b.accepted == s.b.accepted
  {
    hide Classify, Advance, IsSequenceAcked;
    if st.AtB? && st.event.HearData? {
      DuplicateChangesNoWindow(s.b.channel.window, st.event.packet.header.sequence);
    }
  }

  lemma StruckByWire(s: System, st: Step, n: Word)
    requires CanStep(s, st) && n in Next(s, st).a.acked && n !in s.a.acked
    ensures Announced(s.toA, n)
  {
    hide Classify, Advance, IsSequenceAcked;
    var p :| p in s.toA && p.header == st.event.header;
    assert IsSequenceAcked(n, p.header.acknowledgment, p.header.acknowledgmentMask);
  }

  /** A silent side leaves the wire as it is, and the peer learns only what is on it. */
  lemma {:induction false} SilenceSaysNothing(s: System, steps: seq<Step>, n: Word)
    requires CanRun(s, steps) && SilentRun(s, steps) && !s.b.channel.pendingAck
    ensures var t := After(s, steps);
            && t.toA == s.toA && !t.b.channel.pendingAck && t.b.channel.window == s.b.channel.window
            && t.b.accepted == s.b.accepted
            && (n in t.a.acked ==> n in s.a.acked || Announced(s.toA, n))
    decreases |steps|
  {
    hide CanStep, Next, SilentStep, Announced;
    if steps != [] {
      SilentKeeps(s, steps[0]);
      SilenceSaysNothing(Next(s, steps[0]), steps[1..], n);
      if n in Next(s, steps[0]).a.acked && n !in s.a.acked { StruckByWire(s, steps[0], n); }
    }
  }

  /** The step is the arrival at A of a header of `wire` that acknowledges `n`. */
  predicate Arrives(wire: set<Packet>, st: Step, n: Word) {
    && st.AtA? && st.event.HearAck?
    && IsSequenceAcked(n, st.event.header.acknowledgment, st.event.header.acknowledgmentMask)
    && exists p :: p in wire && p.header == st.event.header
  }

  /** Every header of `wire` that acknowledges `n` is lost, or so late that the run is over. */
  predicate AllLost(wire: set<Packet>, steps: seq<Step>, n: Word) {
    forall k :: 0 <= k < |steps| ==> !Arrives(wire, steps[k], n)
  }

  lemma StruckByArrival(s: System, st: Step, n: Word)
    requires CanStep(s, st) && n in Next(s, st).a.acked && n !in s.a.acked
    ensures Arrives(s.toA, st, n)
  {
    hide Classify, Advance, IsSequenceAcked;
  }

  lemma {:induction false} UnrepeatedIsNotStruck(s: System, steps: seq<Step>, n: Word)
    requires CanRun(s, steps) && SilentRun(s, steps) && !s.b.channel.pendingAck
    requires n !in s.a.acked && AllLost(s.toA, steps, n)
    ensures n !in After(s, steps).a.acked
    decreases |steps|
  {
    hide CanStep, Next, SilentStep, Arrives;
    if steps != [] {
      SilentKeeps(s, steps[0]);
      if n in Next(s, steps[0]).a.acked { StruckByArrival(s, steps[0], n); }
      assert forall k :: 0 <= k < |steps[1..]| ==> steps[1..][k] == steps[k + 1];
      UnrepeatedIsNotStruck(Next(s, steps[0]), steps[1..], n);
    }
  }

  /**
   The lost acknowledgement: when all headers on the wire that acknowledge a pending packet are lost,
   retransmitting it to a silent peer brings no other; when the send path stops, the packet has
   expired, though it may have been delivered long ago.
   */
  lemma LostAckIsNotRepeated(
    port: Port, limitA: Attempts, limitB: Attempts, before: seq<Step>, steps: seq<Step>, n: Word)
    requires limitA >= 1 && limitB >= 1 && CanRun(Start(port, limitA, limitB), before)
    requires var s := After(Start(port, limitA, limitB), before);
             && n in s.a.channel.pending && !s.b.channel.pendingAck
             && CanRun(s, steps) && SilentRun(s, steps) && AllLost(s.toA, steps, n) && Unwrapped(After(s, steps))
    ensures var t := After(After(Start(port, limitA, limitB), before), steps);
            && n !in t.a.acked
            && (Drained(t.a) ==> n in t.a.expired)
  {
    var start := Start(port, limitA, limitB);
    var s := After(start, before);
    var t := After(s, steps);
    hide CanRun, After, SilentRun, AllLost, SystemInv, Start;
    StartInv(port, limitA, limitB);
    RunStaysUnwrapped(s, steps);
    RunKeepsInv(start, before);
    RunKeepsInv(s, steps);
    Outcomes(s, n);
    UnrepeatedIsNotStruck(s, steps, n);
    SubmittedStays(s, steps);
    Outcomes(t, n);
  }

  lemma {:induction false} SubmittedStays(s: System, steps: seq<Step>)
    requires CanRun(s, steps)
    ensures |s.a.submitted| <= |After(s, steps).a.submitted|
    decreases |steps|
  {
    hide Advance, Classify, OnTimer, OnAck, OnSend;
    if steps != [] { SubmittedStays(Next(s, steps[0]), steps[1..]); }
  }

  lemma Outcomes(s: System, n: Word)
    requires SystemInv(s)
    ensures n in s.a.channel.pending ==> 1 <= n <= |s.a.submitted| && n !in s.a.acked
    ensures 1 <= n <= |s.a.submitted| && Drained(s.a) ==> n in s.a.acked || n in s.a.expired
  {
    hide Direction, OneActivityEach, Copies, Budgeted, Numbered;
  }
}
