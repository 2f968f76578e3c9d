// Client code driving the transport through whole connection lifecycles,
// using only the contracts of its methods.
module TransportScenarios {
  import opened Models
  import opened Framing
  import opened Transport

  /** A started transport whose first accept and handshake have both
      succeeded: the peer's socket is in the slot, untouched, and the next
      accept is armed. */
  method Connected() returns (t: BoostAsioSslTransport, socket: SslSocket)
    ensures fresh(t) && fresh(socket)
    ensures t.Valid() && t.running && t.listening
    ensures t.active == Some(socket) && socket.Unused()
    ensures |t.accepting| == 1 && socket !in t.accepting && t.handshaking == {}
    ensures forall s <- t.accepting :: fresh(s) && s.Unused()
  {
    t := new BoostAsioSslTransport();
    var started := t.Start(true);
    socket :| socket in t.accepting;
    assert socket.Unused();
    t.OnAccept(socket, true);
    t.OnHandshake(socket, true);
  }

  /** Receives are answered from the peer's frames in order, the empty
      frame included, and nothing is left over. */
  method FramesReceivedInOrder(incoming: seq<byte>)
    returns (received: Status<seq<byte>>, emptyReceived: Status<seq<byte>>, leftOver: seq<byte>)
    requires |incoming| < TwoTo32
    ensures received == Ok(incoming)
    ensures emptyReceived == Ok([])
    ensures leftOver == []
  {
    var t, socket := Connected();
    socket.Deliver(Frame(incoming) + Frame([]));
    assert socket.inbound == Frame(incoming) + Frame([]);
    ReadFrameOfFrame(incoming, Frame([]));
    received := t.Receive();
    assert socket.inbound == Frame([]) + [];
    ReadFrameOfFrame([], []);
    emptyReceived := t.Receive();
    leftOver := socket.inbound;
  }

  /** Round trip through the connection: the bytes a send writes, fed back
      as the peer's input, are read by the next receive as the same buffer,
      the empty buffer included, and nothing is left over. */
  method Loopback(buffer: seq<byte>) returns (received: Status<seq<byte>>, leftOver: seq<byte>)
    requires |buffer| < TwoTo32
    ensures received == Ok(buffer)
    ensures leftOver == []
  {
    var t, socket := Connected();
    var sent := t.Send(buffer);
    socket.Deliver(socket.outbound);
    assert socket.inbound == Frame(buffer) + [];
    ReadFrameOfFrame(buffer, []);
    received := t.Receive();
    leftOver := socket.inbound;
  }

  /** After `stop` the slot is empty: send and receive both report that
      there is no connection, and the peer's socket is closed. */
  method SessionAfterStop(outgoing: seq<byte>)
    returns (sent: Status<()>, received: Status<seq<byte>>, peerOpen: bool)
    ensures sent == Err(NoActiveConnection) && received == Err(NoActiveConnection)
    ensures !peerOpen
  {
    var t, socket := Connected();
    t.Stop();
    sent := t.Send(outgoing);
    received := t.Receive();
    peerOpen := socket.open;
  }

  /** A second successful handshake replaces the first connection in the
      slot and closes it; the first socket is no longer written to. */
  method SecondClientReplacesFirst(outgoing: seq<byte>)
    returns (firstSees: seq<byte>, firstOpen: bool, secondSees: seq<byte>)
    ensures firstSees == [] && !firstOpen
    ensures secondSees == Frame(outgoing)
  {
    var t, first := Connected();
    var second :| second in t.accepting;
    assert second.Unused();
    t.OnAccept(second, true);
    t.OnHandshake(second, true);
    var sent := t.Send(outgoing);
    firstSees, firstOpen, secondSees := first.outbound, first.open, second.outbound;
  }

  /** A failed handshake closes the socket it was made on, leaves the active
      connection in place and usable, and arms the next accept. */
  method FailedHandshakeKeepsConnection(outgoing: seq<byte>) returns (sent: Status<()>, secondOpen: bool, armed: nat)
    ensures sent == Ok(())
    ensures !secondOpen
    ensures armed == 1
  {
    var t, first := Connected();
    var second :| second in t.accepting;
    t.OnAccept(second, true);
    t.OnHandshake(second, false);
    sent := t.Send(outgoing);
    secondOpen := second.open;
    armed := |t.accepting|;
  }

  /** When the peer goes away, the bytes it sent before stay readable, while
      a send now fails and writes nothing. */
  method PeerGoneAway(incoming: seq<byte>, outgoing: seq<byte>)
    returns (received: Status<seq<byte>>, sent: Status<()>, peerSees: seq<byte>)
    requires |incoming| < TwoTo32
    ensures received == Ok(incoming)
    ensures sent == Err(SendFailed)
    ensures peerSees == []
  {
    var t, socket := Connected();
    socket.Deliver(Frame(incoming));
    socket.PeerDisconnect();
    assert socket.inbound == Frame(incoming) + [];
    ReadFrameOfFrame(incoming, []);
    received := t.Receive();
    sent := t.Send(outgoing);
    peerSees := socket.outbound;
  }

  /** An accept that completes with an error is not re-armed: the transport
      keeps running and listening with no accept outstanding. */
  method AcceptErrorEndsAcceptCycle() returns (running: bool, listening: bool, outstanding: nat)
    ensures running && listening
    ensures outstanding == 0
  {
    var t := new BoostAsioSslTransport();
    var started := t.Start(true);
    var socket :| socket in t.accepting;
    t.OnAccept(socket, false);
    running, listening := t.running, t.listening;
    outstanding := |t.accepting| + |t.handshaking|;
  }

  /** A handshake handler that runs while `stop` is in progress, after the
      flag is cleared and the slot emptied, still installs its socket, and
      arms no accept since the flag is clear. */
  method HandshakeCompletingAfterStop() returns (running: bool, slotFilled: bool, armed: nat)
    ensures !running && slotFilled
    ensures armed == 0
  {
    var t := new BoostAsioSslTransport();
    var started := t.Start(true);
    var socket :| socket in t.accepting;
    t.OnAccept(socket, true);
    t.Stop();
    t.OnHandshake(socket, true);
    running, slotFilled, armed := t.running, t.active.Some?, |t.accepting|;
  }

  /** A failed bind leaves the flag set, so a second `start` is a no-op
      and nothing is ever accepted until `stop`. */
  method StartAfterFailedBind() returns (first: Status<()>, second: Status<()>, listening: bool, armed: nat)
    ensures first == Err(BindFailed) && second == Ok(())
    ensures !listening && armed == 0
  {
    var t := new BoostAsioSslTransport();
    first := t.Start(false);
    second := t.Start(true);
    listening, armed := t.listening, |t.accepting|;
  }
}
