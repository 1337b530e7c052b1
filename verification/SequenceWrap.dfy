/**
 What happens at the 2^32-th send.  A side that has received nothing puts acknowledgement 0 and
 mask 0 into every header, which acknowledges word 0 and nothing else; and word 0 is the word of
 the packet that makes the sequence counter wrap.  So acknowledgements are sound up to that packet
 and not beyond.
 */
module SequenceWrap {
  import opened Serial
  import opened ReceiveWindow
  import opened ReliableChannel
  import opened ReliableEndpoint
  import opened SenderBooks
  import opened ReliableSystem

  /** The header of a side that has received nothing acknowledges the 2^32-th packet and none before it. */
  lemma FreshHeaderAcksOnlyWordZero(n: nat)
    requires 1 <= n <= RANGE
    ensures Covers(FreshChannel.window, Wrap(n)) <==> n == RANGE
  {
    EmptyWindowIsHonest();
    assert HonestWindow(EmptyWindow, {});
  }

  function Submits(p: Packet, n: nat): (steps: seq<Step>)
    ensures |steps| == n
  {
    if n == 0 then [] else Submits(p, n - 1) + [AtA(Submit(p))]
  }

  /** A has submitted `n` packets; nothing was transmitted or received anywhere. */
  predicate OnlySubmitted(s: System, port: Port, n: nat) {
    && s.b == Initial(port, 1) && s.toA == {} && s.toB == {}
    && s.a.channel.nextOutgoing == Wrap(n) && |s.a.submitted| == n
    && (n > 0 ==> Wrap(n) in s.a.channel.pending)
  }

  lemma OneStep(s: System, st: Step)
    requires CanStep(s, st)
    ensures CanRun(s, [st]) && After(s, [st]) == Next(s, st)
  {
    hide CanStep, Next;
    assert [st][1..] == [];
  }

  lemma OneSubmit(s: System, port: Port, p: Packet, n: nat)
    requires OnlySubmitted(s, port, n) && !AckOnly(p)
    ensures CanStep(s, AtA(Submit(p))) && OnlySubmitted(Next(s, AtA(Submit(p))), port, n + 1)
  {
    hide AckOnly;
    assert Wrap(Wrap(n) + 1) == Wrap(n + 1);
  }

  lemma {:induction false} ManySubmits(port: Port, p: Packet, n: nat)
    requires !AckOnly(p)
    ensures CanRun(Start(port, 1, 1), Submits(p, n))
    ensures OnlySubmitted(After(Start(port, 1, 1), Submits(p, n)), port, n)
  {
    var start := Start(port, 1, 1);
    if n > 0 {
      ManySubmits(port, p, n - 1);
      hide OnlySubmitted, CanStep, Next, AckOnly;
      var s := After(start, Submits(p, n - 1));
      OneSubmit(s, port, p, n - 1);
      OneStep(s, AtA(Submit(p)));
      RunsCompose(start, Submits(p, n - 1), [AtA(Submit(p))]);
    }
  }

  /** B sends one packet of its own, with nothing received; A hears its header. */
  lemma FirstHeader(s: System, port: Port, p: Packet, n: nat) returns (t: System)
    requires OnlySubmitted(s, port, n) && !AckOnly(p)
    ensures CanRun(s, [AtB(Submit(p))] + ([AtB(Transmit(0))] + []))
    ensures After(s, [AtB(Submit(p))] + ([AtB(Transmit(0))] + [])) == t
    ensures t.a == s.a && t.b.accepted == {}
    ensures CanStep(t, AtA(HearAck(Stamped(FreshChannel, p).header)))
  {
    var q := Stamped(FreshChannel, p);
    var s1 := Next(s, AtB(Submit(p)));
    assert s1.b.activities == [Transmitting(1, q)];
    t := Next(s1, AtB(Transmit(0)));
    assert q in t.toA;
    StepThenRun(s1, AtB(Transmit(0)), []);
    StepThenRun(s, AtB(Submit(p)), [AtB(Transmit(0))] + []);
  }

  lemma FreshHeaderStrikesZero(c: ChannelState, p: Packet)
    requires 0 in c.pending
    ensures 0 !in OnAck(c, Stamped(FreshChannel, p).header).pending
  {
  }

  /**
   The bound on the number of sends cannot be raised: there is a run with 2^32 sends at A in which a
   header from B strikes a packet off A's pending table although B has accepted nothing at all.
   */
  lemma UndeliveredIsStruckOff(port: Port, p: Packet)
    requires !AckOnly(p)
    ensures exists steps, h: Header ::
              && CanRun(Start(port, 1, 1), steps)
              && var end := After(Start(port, 1, 1), steps);
                 && |end.a.submitted| == RANGE && end.b.accepted == {} && CanStep(end, AtA(HearAck(h)))
                 && 0 in end.a.channel.pending && 0 !in OnAck(end.a.channel, h).pending
  {
    hide CanRun, After, CanStep, OnAck, AckOnly;
    ManySubmits(port, p, RANGE);
    var start := Start(port, 1, 1);
    var s := After(start, Submits(p, RANGE));
    assert Wrap(RANGE) == 0;
    var t := FirstHeader(s, port, p, RANGE);
    RunsCompose(start, Submits(p, RANGE), [AtB(Submit(p))] + ([AtB(Transmit(0))] + []));
    FreshHeaderStrikesZero(t.a.channel, p);
  }
}
