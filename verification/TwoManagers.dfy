/**
 Two managers and what passes between them.  One receives a packet and answers it, by an
 acknowledgement of its own or by the next data it sends or sends again; the other receives that
 answer and forgets the packet, on the channel it was sent on and on no other.
 */
module TwoManagers {
  import opened Options
  import opened Serial
  import opened ReceiveWindow
  import opened ReliableChannel
  import opened NetworkManager

  /** What the channel record `before` has become once a header speaking for `w` was heard. */
  ghost predicate Struck(before: ChannelState, after: ChannelState, w: Window) {
    && (forall s: Word :: s in after.pending <==> s in before.pending && !Covers(w, s))
    && (forall s: Word :: s in after.pending ==> after.pending[s] == before.pending[s])
  }

  lemma StruckBy(before: ChannelState, h: Header, w: Window)
    requires h.acknowledgment == w.last && h.acknowledgmentMask == w.mask
    ensures Struck(before, OnAck(before, h), w)
  {
    hide IsSequenceAcked;
  }

  lemma SequenceKeepsPending(c: ChannelState, p: Packet)
    ensures OnReceive(c, p).pending == OnAck(c, p.header).pending
  {
    hide IsSequenceAcked, Advance, Classify;
  }

  /** Hearing data whose header speaks for `w`, whether it is delivered or not. */
  lemma HeardInReceive(before: ChannelState, p: Packet, w: Window)
    requires p.header.acknowledgment == w.last && p.header.acknowledgmentMask == w.mask
    ensures Struck(before, OnReceive(before, p), w)
  {
    hide IsSequenceAcked, Covers, Advance, Classify;
    StruckBy(before, p.header, w);
    SequenceKeepsPending(before, p);
  }

  /**
   A delivery on a channel is answered on that channel: the one datagram `b` sends, given to `a`,
   settles the packet there, hands nothing to the application and touches no other channel of `a`.
   */
  method AnswerSettles(a: Manager, b: Manager, peerA: Peer, peerB: Peer, packet: Packet)
    returns (delivered: Option<Packet>, silent: Option<Packet>)
    requires a != b && a.IsReliable(packet.header.channel) && b.IsReliable(packet.header.channel)
    requires packet.header.flags & 1 == 0 || packet.payload != []
    requires Classify(b.At(peerA, packet.header.channel).window, packet.header.sequence) != Duplicate
    modifies a, b
    ensures delivered == Some(packet) && silent == None
    ensures |b.udp| == |old(b.udp)| + 1
    ensures b.udp[..|b.udp| - 1] == old(b.udp) && b.udp[|b.udp| - 1].0 == peerA
    ensures packet.header.sequence !in a.At(peerB, packet.header.channel).pending
    ensures Struck(old(a.At(peerB, packet.header.channel)), a.At(peerB, packet.header.channel),
                   b.At(peerA, packet.header.channel).window)
    ensures a.OthersAsIn(old(a.connections), peerB, packet.header.channel) && a.udp == old(a.udp)
  {
    hide IsSequenceAcked, Covers, Advance, Classify, Channel, AckOnly;
    var channel := packet.header.channel;
    ghost var receiver := b.At(peerA, channel);
    ghost var sender := a.At(peerB, channel);
    WithheldIff(receiver, packet);
    DeliveryIsAnswered(receiver, packet);
    AcceptIsCovered(receiver, packet);
    delivered := b.ReceiveDatagram(peerA, packet);
    var (to, ack) := b.udp[|b.udp| - 1];
    StruckBy(sender, ack.header, b.At(peerA, channel).window);
    AcksAreAlone(sender, ack);
    silent := a.ReceiveDatagram(peerB, ack);
  }

  lemma AcceptIsCovered(c: ChannelState, p: Packet)
    requires Delivers(c, p)
    ensures Reply(c, p).Some?
    ensures var h := Reply(c, p).value.header;
            && h.channel == p.header.channel
            && h.acknowledgment == OnReceive(c, p).window.last && h.acknowledgmentMask == OnReceive(c, p).window.mask
    ensures Covers(OnReceive(c, p).window, p.header.sequence)
  {
    AcceptIsAcknowledged(c.window, p.header.sequence);
    hide IsSequenceAcked, Advance;
  }

  /** An acknowledgement of its own is neither delivered nor answered. */
  lemma AcksAreAlone(c: ChannelState, ack: Packet)
    requires AckOnly(ack)
    ensures OnReceive(c, ack) == OnAck(c, ack.header) && Reply(c, ack) == None && !Delivers(c, ack)
  {
  }

  /** Instead of that answer, the next data packet `b` sends on the channel does. */
  method DataSettles(a: Manager, b: Manager, peerA: Peer, peerB: Peer, packet: Packet, data: Packet)
    requires a != b && a.IsReliable(packet.header.channel) && b.IsReliable(packet.header.channel)
    requires packet.header.flags & 1 == 0 || packet.payload != []
    requires Classify(b.At(peerA, packet.header.channel).window, packet.header.sequence) != Duplicate
    requires data.header.channel == packet.header.channel && data.header.guarantee == Reliable
    modifies a, b
    ensures packet.header.sequence !in a.At(peerB, packet.header.channel).pending
    ensures Struck(old(a.At(peerB, packet.header.channel)), a.At(peerB, packet.header.channel),
                   b.At(peerA, packet.header.channel).window)
    ensures a.OthersAsIn(old(a.connections), peerB, packet.header.channel)
  {
    hide IsSequenceAcked, Covers, Advance, Classify, Channel, AckOnly;
    var channel := packet.header.channel;
    ghost var receiver := b.At(peerA, channel);
    ghost var sender := a.At(peerB, channel);
    WithheldIff(receiver, packet);
    AcceptIsCovered(receiver, packet);
    var delivered := b.ReceiveDatagram(peerA, packet);
    b.Send(peerA, data);
    var (to, answer) := b.udp[|b.udp| - 1];
    HeardInReceive(sender, answer, b.At(peerA, channel).window);
    var heard := a.ReceiveDatagram(peerB, answer);
  }

  /** And so does the next data packet `b` sends again. */
  method RetrySettles(
    a: Manager, b: Manager, peerA: Peer, peerB: Peer, packet: Packet, sequence: Word, limit: Attempts)
    requires a != b && a.IsReliable(packet.header.channel) && b.IsReliable(packet.header.channel)
    requires packet.header.flags & 1 == 0 || packet.payload != []
    requires Classify(b.At(peerA, packet.header.channel).window, packet.header.sequence) != Duplicate
    modifies a, b
    ensures var waiting := old(OnAck(b.At(peerA, packet.header.channel), packet.header)).pending;
            sequence in waiting && waiting[sequence].attempts + 1 < limit
            && waiting[sequence].packet.header.channel == packet.header.channel ==>
              && packet.header.sequence !in a.At(peerB, packet.header.channel).pending
              && Struck(old(a.At(peerB, packet.header.channel)), a.At(peerB, packet.header.channel),
                        b.At(peerA, packet.header.channel).window)
    ensures a.OthersAsIn(old(a.connections), peerB, packet.header.channel)
  {
    hide IsSequenceAcked, Covers, Advance, Classify, Channel, AckOnly;
    var channel := packet.header.channel;
    ghost var receiver := b.At(peerA, channel);
    ghost var sender := a.At(peerB, channel);
    WithheldIff(receiver, packet);
    AcceptIsCovered(receiver, packet);
    SequenceKeepsPending(receiver, packet);
    var delivered := b.ReceiveDatagram(peerA, packet);
    var sent := |b.udp|;
    b.RetransmitAfter(Timer(peerA, channel, sequence), limit);
    if |b.udp| > sent && b.udp[sent].1.header.channel == channel {
      var (to, answer) := b.udp[sent];
      HeardInReceive(sender, answer, b.At(peerA, channel).window);
      var heard := a.ReceiveDatagram(peerB, answer);
    }
  }
}
