/**
 The network manager: a table of connections keyed by peer, each a table of channels, updated in
 place by every operation.  The transports appear as the logs of what was handed to them, and the
 scheduler as the log of the retransmission timers started.
 */
module NetworkManager {
  import opened Options
  import opened Bits
  import opened Serial
  import opened ReceiveWindow
  import opened ReliableChannel

  type Address = n: int | 0 <= n < RANGE

  datatype Peer = Peer(address: Address, port: Port)

  datatype Timer = Timer(peer: Peer, channel: Port, sequence: Word)

  type Key = nat

  /** `(address << 16) | port` on 64-bit words. */
  function ConnectionKey(peer: Peer): Key {
    Or(ShiftLeft(peer.address, 16, 64), peer.port)
  }

  lemma {:induction false} OrBelow(x: nat, k: nat, y: nat)
    requires y < Pow2(k)
    ensures Or(x * Pow2(k), y) == x * Pow2(k) + y
  {
    if k > 0 {
      var high := x * Pow2(k - 1);
      assert x * Pow2(k) == 2 * high;
      assert (2 * high) / 2 == high && (2 * high) % 2 == 0;
      OrBelow(x, k - 1, y / 2);
      assert y == 2 * (y / 2) + y % 2;
    } else {
      assert y == 0;
    }
  }

  lemma KeyValue(peer: Peer)
    ensures ConnectionKey(peer) == peer.address * 0x1_0000 + peer.port
  {
    hide Pow2, Or;
    Pow2Values();
    OrBelow(peer.address, 16, peer.port);
    assert peer.address * 0x1_0000 < 0x1_0000_0000_0000_0000;
  }

  /** Distinct peers never share a connection record. */
  lemma KeyInjective(p: Peer, q: Peer)
    ensures ConnectionKey(p) == ConnectionKey(q) <==> p == q
  {
    KeyValue(p);
    KeyValue(q);
    hide ConnectionKey;
  }

  type Connections = map<Key, map<Port, ChannelState>>

  predicate Known(connections: Connections, key: Key, channel: Port) {
    key in connections && channel in connections[key]
  }

  /** The channel towards a peer; one that was never touched is a fresh one. */
  function Channel(connections: Connections, peer: Peer, channel: Port): ChannelState {
    var key := ConnectionKey(peer);
    if Known(connections, key, channel) then connections[key][channel] else FreshChannel
  }

  /** Writing one channel record, creating the connection when needed. */
  function Stored(connections: Connections, peer: Peer, channel: Port, c: ChannelState): Connections {
    var key := ConnectionKey(peer);
    var channels := if key in connections then connections[key] else map[];
    connections[key := channels[channel := c]]
  }

  lemma StoredIsolates(connections: Connections, peer: Peer, channel: Port, c: ChannelState)
    ensures forall p, k :: Channel(Stored(connections, peer, channel, c), p, k)
                        == if p == peer && k == channel then c else Channel(connections, p, k)
  {
    forall p: Peer, k: Port
      ensures Channel(Stored(connections, peer, channel, c), p, k)
           == if p == peer && k == channel then c else Channel(connections, p, k)
    {
      KeyInjective(p, peer);
      hide ConnectionKey;
    }
  }

  class Manager {
    var connections: Connections
    var reliableChannels: map<Port, bool>
    var maxAttempts: Attempts
    var udp: seq<(Peer, Packet)>
    var tcp: seq<(Peer, Packet)>
    var timers: seq<Timer>

    constructor ()
      ensures connections == map[] && reliableChannels == map[] && maxAttempts == 5
      ensures udp == [] && tcp == [] && timers == []
      ensures forall p, k :: At(p, k) == ChannelState(0, Window(false, 0, 0), map[], false)
    {
      connections, reliableChannels, maxAttempts := map[], map[], 5;
      udp, tcp, timers := [], [], [];
    }

    predicate IsReliable(channel: Port)
      reads this
    {
      channel in reliableChannels && reliableChannels[channel]
    }

    ghost function At(peer: Peer, channel: Port): ChannelState
      reads this
    {
      Channel(connections, peer, channel)
    }

    /** Only the channel towards `peer` may differ from the table `before`. */
    ghost predicate OthersAsIn(before: Connections, peer: Peer, channel: Port)
      reads this
    {
      forall p, k :: p != peer || k != channel ==> Channel(connections, p, k) == Channel(before, p, k)
    }

    method EnableUdpReliability(channel: Port, enabled: bool)
      modifies this`reliableChannels
      ensures IsReliable(channel) == enabled
      ensures forall c: Port :: c != channel ==> IsReliable(c) == old(IsReliable(c))
    {
      reliableChannels := reliableChannels[channel := enabled];
    }

    method ConfigureUdpRetransmission(limit: Attempts)
      modifies this`maxAttempts
      ensures maxAttempts >= 1 && (limit >= 1 ==> maxAttempts == limit)
      ensures limit == 0 ==> maxAttempts == 1
    {
      maxAttempts := if limit < 1 then 1 else limit;
    }

    /** Reliable packets ride on UDP when their channel is enabled, on TCP otherwise. */
    method Send(peer: Peer, packet: Packet)
      modifies this`connections, this`udp, this`tcp, this`timers
      ensures packet.header.guarantee == Reliable && IsReliable(packet.header.channel) ==>
                && At(peer, packet.header.channel) == OnSend(old(At(peer, packet.header.channel)), packet)
                && OthersAsIn(old(connections), peer, packet.header.channel)
                && udp == old(udp) + [(peer, Stamped(old(At(peer, packet.header.channel)), packet))]
                && timers == old(timers)
                     + [Timer(peer, packet.header.channel, NextSequence(old(At(peer, packet.header.channel))))]
                && udp[|udp| - 1].1.header.acknowledgment == old(At(peer, packet.header.channel)).window.last
                && udp[|udp| - 1].1.header.acknowledgmentMask == old(At(peer, packet.header.channel)).window.mask
                && tcp == old(tcp)
      ensures !(packet.header.guarantee == Reliable && IsReliable(packet.header.channel)) ==>
                && connections == old(connections) && timers == old(timers)
                && (packet.header.guarantee == Reliable ==> tcp == old(tcp) + [(peer, packet)] && udp == old(udp))
                && (packet.header.guarantee == Unreliable ==> udp == old(udp) + [(peer, packet)] && tcp == old(tcp))
    {
      if packet.header.guarantee == Reliable && IsReliable(packet.header.channel) {
        SendReliableUdp(peer, packet);
      } else if packet.header.guarantee == Reliable {
        tcp := tcp + [(peer, packet)];
      } else {
        udp := udp + [(peer, packet)];
      }
    }

    method SendReliableUdp(peer: Peer, packet: Packet)
      modifies this`connections, this`udp, this`timers
      ensures At(peer, packet.header.channel) == OnSend(old(At(peer, packet.header.channel)), packet)
      ensures OthersAsIn(old(connections), peer, packet.header.channel)
      ensures udp == old(udp) + [(peer, Stamped(old(At(peer, packet.header.channel)), packet))]
      ensures timers == old(timers)
                + [Timer(peer, packet.header.channel, NextSequence(old(At(peer, packet.header.channel))))]
      ensures var before := old(At(peer, packet.header.channel));
              var sent := udp[|udp| - 1].1;
              && sent == Packet(
                   Header(if before.nextOutgoing + 1 == RANGE then 0 else before.nextOutgoing + 1,
                          before.window.last, before.window.mask,
                          packet.header.guarantee, packet.header.flags, packet.header.channel),
                   packet.payload)
              && At(peer, packet.header.channel) == ChannelState(
                   sent.header.sequence, before.window,
                   before.pending[sent.header.sequence := Pending(sent, 0)], before.pendingAck)
              && timers[|timers| - 1].sequence == sent.header.sequence
    {
      hide ConnectionKey;
      var channel := packet.header.channel;
      var state := Channel(connections, peer, channel);
      var sequence := NextSequence(state);
      state := state.(nextOutgoing := sequence);
      var header := packet.header.(sequence := sequence, acknowledgment := state.window.last,
                                   acknowledgmentMask := state.window.mask);
      var outgoing := packet.(header := header);
      state := state.(pending := state.pending[sequence := Pending(outgoing, 0)]);
      StoredIsolates(connections, peer, channel, state);
      connections := Stored(connections, peer, channel, state);
      udp := udp + [(peer, outgoing)];
      timers := timers + [Timer(peer, channel, sequence)];
    }

    /** Collects the acknowledged sequences, then erases them from the pending table. */
    method RecordAck(peer: Peer, header: Header)
      modifies this`connections
      ensures At(peer, header.channel) == OnAck(old(At(peer, header.channel)), header)
      ensures var before := old(At(peer, header.channel));
              At(peer, header.channel) == before.(pending := map s |
                s in before.pending && !IsSequenceAcked(s, header.acknowledgment, header.acknowledgmentMask)
                :: before.pending[s])
      ensures OthersAsIn(old(connections), peer, header.channel)
    {
      hide ConnectionKey, IsSequenceAcked;
      if !Known(connections, ConnectionKey(peer), header.channel) {
        assert OnAck(FreshChannel, header).pending == map[];
        return;
      }
      var state := connections[ConnectionKey(peer)][header.channel];
      var acked := CollectAcked(state.pending, header);
      var pending := EraseAll(state.pending, acked);
      var after := state.(pending := pending);
      assert pending == OnAck(state, header).pending;
      StoredIsolates(connections, peer, header.channel, after);
      connections := Stored(connections, peer, header.channel, after);
    }

    /** The code's branches, one field update at a time. */
    method HandleIncomingSequence(peer: Peer, header: Header) returns (duplicate: bool)
      modifies this`connections
      ensures duplicate <==> Classify(old(At(peer, header.channel)).window, header.sequence) == Duplicate
      ensures At(peer, header.channel) == OnSequence(old(At(peer, header.channel)), header)
      ensures var before := old(At(peer, header.channel));
              At(peer, header.channel) == ChannelState(
                before.nextOutgoing, Advance(before.window, header.sequence), before.pending,
                before.pendingAck || !duplicate)
      ensures OthersAsIn(old(connections), peer, header.channel)
    {
      hide ConnectionKey, And, Or, Pow2, Bit;
      var state := Channel(connections, peer, header.channel);
      var w := state.window;
      if !w.hasReceived {
        w := Window(true, header.sequence, 0);
        state := state.(window := w, pendingAck := true);
        duplicate := false;
      } else if SequenceGreater(header.sequence, w.last) {
        var diff := Minus(header.sequence, w.last);
        if diff >= 32 {
          w := w.(mask := 0);
        } else {
          WordWidth();
          w := w.(mask := ShiftLeft(w.mask, diff, 32));
        }
        w := w.(last := header.sequence);
        state := state.(window := w, pendingAck := true);
        duplicate := false;
      } else {
        var diff := Minus(w.last, header.sequence);
        if diff == 0 || diff > 32 {
          duplicate := true;
        } else {
          var bit := Flag(diff);
          if And(w.mask, bit) != 0 {
            duplicate := true;
          } else {
            WordWidth();
            OrBound(w.mask, bit, 32);
            w := w.(mask := Or(w.mask, bit));
            state := state.(window := w, pendingAck := true);
            duplicate := false;
          }
        }
      }
      StoredIsolates(connections, peer, header.channel, state);
      connections := Stored(connections, peer, header.channel, state);
    }

    method MaybeSendAck(peer: Peer, channel: Port)
      modifies this`connections, this`udp
      ensures old(At(peer, channel)).pendingAck ==>
                && At(peer, channel) == OnAckDue(old(At(peer, channel)))
                && udp == old(udp) + [(peer, AckPacket(old(At(peer, channel)), channel))]
      ensures old(At(peer, channel)).pendingAck ==>
                var before := old(At(peer, channel));
                && At(peer, channel) == before.(pendingAck := false)
                && udp == old(udp) + [(peer, Packet(
                     Header(0, before.window.last, before.window.mask, Unreliable, 1, channel), []))]
      ensures !old(At(peer, channel)).pendingAck ==> connections == old(connections) && udp == old(udp)
      ensures OthersAsIn(old(connections), peer, channel)
    {
      hide ConnectionKey;
      if !Known(connections, ConnectionKey(peer), channel) {
        return;
      }
      var state := connections[ConnectionKey(peer)][channel];
      if !state.pendingAck {
        return;
      }
      StoredIsolates(connections, peer, channel, state.(pendingAck := false));
      connections := Stored(connections, peer, channel, state.(pendingAck := false));
      var header := Header(0, state.window.last, state.window.mask, Unreliable, FLAG_ACK, channel);
      udp := udp + [(peer, Packet(header, []))];
    }

    /**
     `receive`, given what the two transports answer when they are polled: a TCP packet goes to the
     caller as it is and leaves the datagram for later; without either there is nothing.
     */
    method Receive(tcpPacket: Option<(Peer, Packet)>, udpPacket: Option<(Peer, Packet)>)
      returns (result: Option<(Peer, Packet)>)
      modifies this`connections, this`udp
      ensures tcpPacket.Some? || udpPacket.None? ==>
                result == tcpPacket && connections == old(connections) && udp == old(udp)
      ensures tcpPacket.None? && udpPacket.Some? ==>
                var (peer, packet) := udpPacket.value;
                var channel := packet.header.channel;
                var before := old(Channel(connections, udpPacket.value.0, udpPacket.value.1.header.channel));
                && OthersAsIn(old(connections), peer, channel)
                && (!IsReliable(channel) ==>
                      result == udpPacket && connections == old(connections) && udp == old(udp))
                && (IsReliable(channel) ==>
                      && result == (if Delivers(before, packet) then udpPacket else None)
                      && At(peer, channel) == OnReceive(before, packet)
                      && udp == old(udp)
                                + (match Reply(before, packet) case Some(ack) => [(peer, ack)] case None => []))
    {
      hide ConnectionKey, Classify, Advance, IsSequenceAcked, Channel, AckOnly;
      if tcpPacket.Some? {
        return tcpPacket;
      }
      if udpPacket.None? {
        return None;
      }
      var (peer, packet) := udpPacket.value;
      var delivered := ReceiveDatagram(peer, packet);
      result := if delivered.Some? then udpPacket else None;
    }

    /** What `receive` does with a datagram from `peer`; `None` when nothing reaches the caller. */
    method ReceiveDatagram(peer: Peer, packet: Packet) returns (result: Option<Packet>)
      modifies this`connections, this`udp
      ensures !IsReliable(packet.header.channel) ==>
                result == Some(packet) && connections == old(connections) && udp == old(udp)
      ensures IsReliable(packet.header.channel) ==>
                var before := old(At(peer, packet.header.channel));
                && result == (if Delivers(before, packet) then Some(packet) else None)
                && At(peer, packet.header.channel) == OnReceive(before, packet)
                && udp == old(udp) + (match Reply(before, packet) case Some(ack) => [(peer, ack)] case None => [])
      ensures IsReliable(packet.header.channel) ==>
                (result.Some? <==>
                   && !(packet.header.flags & 1 == 1 && packet.payload == [])
                   && Classify(old(At(peer, packet.header.channel)).window, packet.header.sequence) != Duplicate)
      ensures OthersAsIn(old(connections), peer, packet.header.channel)
    {
      hide ConnectionKey, Classify, Advance, IsSequenceAcked, Channel;
      WithheldIff(FreshChannel, packet);
      if !IsReliable(packet.header.channel) {
        return Some(packet);
      }
      var ackOnly := AckOnly(packet);
      RecordAck(peer, packet.header);
      var duplicate := false;
      if !ackOnly {
        duplicate := HandleIncomingSequence(peer, packet.header);
        MaybeSendAck(peer, packet.header.channel);
      }
      result := if duplicate || ackOnly then None else Some(packet);
    }

    /** The part of `retransmit_after` that follows the sleep, with the limit read before it. */
    method RetransmitAfter(timer: Timer, limit: Attempts)
      modifies this`connections, this`udp, this`timers
      ensures At(timer.peer, timer.channel) == OnTimer(old(At(timer.peer, timer.channel)), timer.sequence, limit)
      ensures OthersAsIn(old(connections), timer.peer, timer.channel)
      ensures Resends(old(At(timer.peer, timer.channel)), timer.sequence, limit) ==>
                && timer.sequence in At(timer.peer, timer.channel).pending
                && udp == old(udp) + [(timer.peer, At(timer.peer, timer.channel).pending[timer.sequence].packet)]
                && timers == old(timers) + [timer]
      ensures !Resends(old(At(timer.peer, timer.channel)), timer.sequence, limit) ==>
                udp == old(udp) && timers == old(timers)
      ensures var before := old(At(timer.peer, timer.channel));
              var s := timer.sequence;
              if s !in before.pending then
                At(timer.peer, timer.channel) == before && udp == old(udp)
              else if before.pending[s].attempts + 1 >= limit then
                At(timer.peer, timer.channel) == before.(pending := before.pending - {s}) && udp == old(udp)
              else
                var again := before.pending[s].packet.(header := before.pending[s].packet.header.(
                  acknowledgment := before.window.last, acknowledgmentMask := before.window.mask));
                && udp == old(udp) + [(timer.peer, again)]
                && At(timer.peer, timer.channel) ==
                     before.(pending := before.pending[s := Pending(again, before.pending[s].attempts + 1)])
    {
      hide ConnectionKey;
      if !Known(connections, ConnectionKey(timer.peer), timer.channel) {
        return;
      }
      var state := connections[ConnectionKey(timer.peer)][timer.channel];
      if timer.sequence !in state.pending {
        return;
      }
      var entry := state.pending[timer.sequence];
      if entry.attempts + 1 >= limit {
        state := state.(pending := state.pending - {timer.sequence});
        StoredIsolates(connections, timer.peer, timer.channel, state);
        connections := Stored(connections, timer.peer, timer.channel, state);
        return;
      }
      var header := entry.packet.header.(acknowledgment := state.window.last, acknowledgmentMask := state.window.mask);
      entry := Pending(entry.packet.(header := header), entry.attempts + 1);
      state := state.(pending := state.pending[timer.sequence := entry]);
      StoredIsolates(connections, timer.peer, timer.channel, state);
      connections := Stored(connections, timer.peer, timer.channel, state);
      udp := udp + [(timer.peer, entry.packet)];
      timers := timers + [timer];
    }
  }

  method CollectAcked(pending: map<Word, Pending>, header: Header) returns (acked: set<Word>)
    ensures forall s :: s in acked <==>
              s in pending && IsSequenceAcked(s, header.acknowledgment, header.acknowledgmentMask)
  {
    hide IsSequenceAcked;
    var unseen := pending.Keys;
    acked := {};
    while unseen != {}
      invariant unseen <= pending.Keys
      invariant forall s :: s in acked <==>
                  s in pending && s !in unseen && IsSequenceAcked(s, header.acknowledgment, header.acknowledgmentMask)
      decreases unseen
    {
      var s :| s in unseen;
      if IsSequenceAcked(s, header.acknowledgment, header.acknowledgmentMask) {
        acked := acked + {s};
      }
      unseen := unseen - {s};
    }
  }

  method EraseAll(pending: map<Word, Pending>, doomed: set<Word>) returns (rest: map<Word, Pending>)
    ensures rest == pending - doomed
  {
    var todo := doomed;
    rest := pending;
    while todo != {}
      invariant todo <= doomed
      invariant rest == pending - (doomed - todo)
      decreases todo
    {
      var s :| s in todo;
      rest := rest - {s};
      todo := todo - {s};
    }
  }
}
