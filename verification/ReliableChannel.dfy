/**
 One reliable-UDP channel towards one peer: the per-channel record of the network manager and
 what each lock-protected section of the manager does to it.
 */
module ReliableChannel {
  import opened Options
  import opened Serial
  import opened ReceiveWindow

  datatype Guarantee = Unreliable | Reliable

  const FLAG_NONE: bv8 := 0
  const FLAG_ACK: bv8 := 1

  type Port = n: int | 0 <= n < 0x1_0000
  type Attempts = n: int | 0 <= n < 0x100

  datatype Header = Header(
    sequence: Word,
    acknowledgment: Word,
    acknowledgmentMask: Word,
    guarantee: Guarantee,
    flags: bv8,
    channel: Port)

  datatype Packet = Packet(header: Header, payload: seq<bv8>)

  predicate AckOnly(p: Packet) {
    p.header.flags & FLAG_ACK != FLAG_NONE && p.payload == []
  }

  datatype Pending = Pending(packet: Packet, attempts: Attempts)

  /** `nextOutgoing` is the last sequence given out; `window` holds the three receive fields. */
  datatype ChannelState = ChannelState(
    nextOutgoing: Word,
    window: Window,
    pending: map<Word, Pending>,
    pendingAck: bool)

  const FreshChannel := ChannelState(0, EmptyWindow, map[], false)

  function Acknowledging(p: Packet, w: Window): Packet {
    p.(header := p.header.(acknowledgment := w.last, acknowledgmentMask := w.mask))
  }

  // ---------------------------------------------------------------- the sections

  function NextSequence(c: ChannelState): Word {
    Wrap(c.nextOutgoing + 1)
  }

  function Stamped(c: ChannelState, p: Packet): Packet {
    Acknowledging(p.(header := p.header.(sequence := NextSequence(c))), c.window)
  }

  /** `send_reliable_udp` up to the hand-over to the transport. */
  function OnSend(c: ChannelState, p: Packet): ChannelState {
    c.(nextOutgoing := NextSequence(c), pending := c.pending[NextSequence(c) := Pending(Stamped(c, p), 0)])
  }

  /** `record_ack` */
  function OnAck(c: ChannelState, h: Header): ChannelState {
    c.(pending := map s | s in c.pending && !IsSequenceAcked(s, h.acknowledgment, h.acknowledgmentMask) :: c.pending[s])
  }

  /** `handle_incoming_sequence`; the packet is a duplicate when the verdict says so. */
  function OnSequence(c: ChannelState, h: Header): ChannelState {
    c.(window := Advance(c.window, h.sequence),
       pendingAck := c.pendingAck || Classify(c.window, h.sequence) != Duplicate)
  }

  function AckPacket(c: ChannelState, channel: Port): Packet {
    Packet(Header(0, c.window.last, c.window.mask, Unreliable, FLAG_ACK, channel), [])
  }

  /** `maybe_send_ack`: sends `AckPacket` when an acknowledgement is due. */
  function OnAckDue(c: ChannelState): ChannelState {
    c.(pendingAck := false)
  }

  predicate Exhausted(entry: Pending, limit: Attempts) {
    entry.attempts + 1 >= limit
  }

  function Retried(entry: Pending, w: Window): Pending
    requires entry.attempts + 1 < 0x100
  {
    Pending(Acknowledging(entry.packet, w), entry.attempts + 1)
  }

  /** The section of `retransmit_after` that follows the sleep. */
  function OnTimer(c: ChannelState, s: Word, limit: Attempts): ChannelState {
    if s !in c.pending then c
    else if Exhausted(c.pending[s], limit) then c.(pending := c.pending - {s})
    else c.(pending := c.pending[s := Retried(c.pending[s], c.window)])
  }

  predicate Resends(c: ChannelState, s: Word, limit: Attempts) {
    s in c.pending && !Exhausted(c.pending[s], limit)
  }

  // ---------------------------------------------------------------- what the headers say

  /** The header `h` acknowledges what the window `w` covers, neither more nor less. */
  ghost predicate Speaks(h: Header, w: Window) {
    forall s: Word :: IsSequenceAcked(s, h.acknowledgment, h.acknowledgmentMask) <==> Covers(w, s)
  }

  /**
   Whatever leaves a side carries its window: data when it is first sent and again each time it is
   retried, and acknowledgements of their own.  Nothing else about a packet changes on the way.
   */
  lemma HeadersSpeakForTheWindow(c: ChannelState, p: Packet, entry: Pending, channel: Port)
    requires entry.attempts + 1 < 0x100
    ensures Speaks(Stamped(c, p).header, c.window)
    ensures Speaks(Retried(entry, c.window).packet.header, c.window)
    ensures Speaks(AckPacket(c, channel).header, c.window)
    ensures Stamped(c, p).payload == p.payload && Retried(entry, c.window).packet.payload == entry.packet.payload
    ensures Stamped(c, p).header.(sequence := 0, acknowledgment := 0, acknowledgmentMask := 0)
         == p.header.(sequence := 0, acknowledgment := 0, acknowledgmentMask := 0)
    ensures Retried(entry, c.window).packet.header.(acknowledgment := 0, acknowledgmentMask := 0)
         == entry.packet.header.(acknowledgment := 0, acknowledgmentMask := 0)
  {
    hide IsSequenceAcked;
  }

  /** What a header removes at the other side: all that the window it was made from covers. */
  lemma SpokenIsStruckOff(sender: ChannelState, h: Header, w: Window, s: Word)
    requires Speaks(h, w)
    ensures s in OnAck(sender, h).pending <==> s in sender.pending && !Covers(w, s)
    ensures s in OnAck(sender, h).pending ==> OnAck(sender, h).pending[s] == sender.pending[s]
  {
    hide IsSequenceAcked, Covers;
  }

  // ---------------------------------------------------------------- receive, as a whole

  /** The channel after one undisturbed `receive` of `p`. */
  function OnReceive(c: ChannelState, p: Packet): ChannelState {
    var heard := OnAck(c, p.header);
    if AckOnly(p) then heard
    else
      var sequenced := OnSequence(heard, p.header);
      if sequenced.pendingAck then OnAckDue(sequenced) else sequenced
  }

  predicate Delivers(c: ChannelState, p: Packet) {
    !AckOnly(p) && Classify(c.window, p.header.sequence) != Duplicate
  }

  /** The acknowledgement sent during one undisturbed `receive` of `p`, if any. */
  function Reply(c: ChannelState, p: Packet): Option<Packet> {
    var sequenced := OnSequence(OnAck(c, p.header), p.header);
    if !AckOnly(p) && sequenced.pendingAck then Some(AckPacket(sequenced, p.header.channel)) else None
  }

  /**
   Every delivery is answered in the same `receive` by an acknowledgement that covers it, as the
   sender will read it; and when nothing was due before, only deliveries are answered.
   */
  lemma DeliveryIsAnswered(c: ChannelState, p: Packet)
    ensures Delivers(c, p) ==> Reply(c, p).Some?
    ensures !c.pendingAck ==> (Reply(c, p).Some? <==> Delivers(c, p))
    ensures Delivers(c, p) ==>
              var h := Reply(c, p).value.header;
              IsSequenceAcked(p.header.sequence, h.acknowledgment, h.acknowledgmentMask)
    ensures Reply(c, p).Some? ==> AckOnly(Reply(c, p).value)
    ensures !AckOnly(p) ==> !OnReceive(c, p).pendingAck
  {
    if Delivers(c, p) { AcceptIsAcknowledged(c.window, p.header.sequence); }
  }

  /** The two peers close the loop: the reply makes the sender forget the packet it answers. */
  lemma ReplyClearsPending(sender: ChannelState, receiver: ChannelState, p: Packet)
    requires Delivers(receiver, p)
    ensures p.header.sequence !in OnReceive(sender, Reply(receiver, p).value).pending
  {
    DeliveryIsAnswered(receiver, p);
  }

  /**
   So does the next data packet: what the receiver sends or sends again after a delivery makes the
   sender forget the packet delivered.
   */
  lemma DataClearsPending(sender: ChannelState, receiver: ChannelState, p: Packet, q: Packet, entry: Pending)
    requires Delivers(receiver, p) && entry.attempts + 1 < 0x100
    ensures var after := OnReceive(receiver, p);
            && p.header.sequence !in OnAck(sender, Stamped(after, q).header).pending
            && p.header.sequence !in OnAck(sender, Retried(entry, after.window).packet.header).pending
  {
    hide IsSequenceAcked, Advance, Classify;
    var after := OnReceive(receiver, p);
    AcceptIsAcknowledged(receiver.window, p.header.sequence);
    HeadersSpeakForTheWindow(after, q, entry, p.header.channel);
    SpokenIsStruckOff(sender, Stamped(after, q).header, after.window, p.header.sequence);
    SpokenIsStruckOff(sender, Retried(entry, after.window).packet.header, after.window, p.header.sequence);
  }

  /** Only an empty packet with the Ack flag is withheld as such; anything else reaches the caller when it is new. */
  lemma WithheldIff(c: ChannelState, p: Packet)
    ensures AckOnly(p) <==> p.header.flags & 1 == 1 && p.payload == []
    ensures p.header.flags & 1 == 0 || p.payload != [] ==>
              (Delivers(c, p) <==> Classify(c.window, p.header.sequence) != Duplicate)
  {
    FlagDigit(p.header.flags);
  }

  lemma FlagDigit(flags: bv8)
    ensures flags & 1 == 0 || flags & 1 == 1
  {
  }

  /** A duplicate is not answered, so a lost acknowledgement is not repeated by a later copy. */
  lemma DuplicateIsSilent(c: ChannelState, p: Packet)
    requires !AckOnly(p) && !Delivers(c, p) && !c.pendingAck
    ensures Reply(c, p) == None && OnReceive(c, p) == OnAck(c, p.header)
  {
  }
}
