// The framed TLS transport: a running flag, a listening acceptor, the
// sockets waiting for an accept or a handshake to complete, and the single
// active-socket slot that send and receive use. The TLS library and the
// network are abstracted: a socket is a pair of byte streams, and the
// completion of an asynchronous accept or handshake is a method call the
// environment may make, in any order, for any operation still outstanding.
module Transport {
  import opened Models
  import opened Framing

  datatype Option<T> = None | Some(value: T)

  /** The errors the transport reports to its caller. */
  datatype TransportError =
    | NoActiveConnection
    | BindFailed
    | SendFailed
    | ReceiveFailed(error: ReadError)

  datatype Status<T> = Ok(value: T) | Err(error: TransportError)

  /** How a frame read off the stream is reported by `receive`. */
  function ReceiveStatus(read: ReadResult): (s: Status<seq<byte>>)
    ensures s.Ok? <==> read.Payload?
  {
    match read
    case Payload(bytes) => Ok(bytes)
    case ReadFailed(e) => Err(ReceiveFailed(e))
  }

  /** An SSL socket, seen as the bytes the peer has sent and not yet been
      read, the bytes written to the peer, and whether the connection is
      still up. */
  class SslSocket {
    var inbound: seq<byte>
    var outbound: seq<byte>
    var open: bool

    constructor ()
      ensures Unused()
    {
      inbound, outbound, open := [], [], true;
    }

    /** A connection nothing has been sent or received on yet. */
    ghost predicate Unused()
      reads this
    {
      open && inbound == [] && outbound == []
    }

    /** The peer sends bytes. */
    method Deliver(bytes: seq<byte>)
      modifies this
      ensures inbound == old(inbound) + bytes && outbound == old(outbound) && open == old(open)
    {
      inbound := inbound + bytes;
    }

    /** The peer goes away; bytes it sent before stay readable. */
    method PeerDisconnect()
      modifies this
      ensures !open && inbound == old(inbound) && outbound == old(outbound)
    {
      open := false;
    }

    /** `cancel` then `close` on the underlying socket. */
    method Close()
      modifies this
      ensures !open && inbound == old(inbound) && outbound == old(outbound)
    {
      open := false;
    }

    /** `boost::asio::write`: the whole sequence is written, or an error is
      reported and nothing is. */
    method Write(bytes: seq<byte>) returns (ok: bool)
      modifies this
      ensures ok == old(open)
      ensures outbound == (if ok then old(outbound) + bytes else old(outbound))
      ensures inbound == old(inbound) && open == old(open)
    {
      ok := open;
      if ok {
        outbound := outbound + bytes;
      }
    }

    /** `boost::asio::read` with `transfer_exactly(buf.Length)`: fills `buf`
      from the stream, or reports an error when the stream runs out first,
      having consumed what there was. */
    method ReadExactly(buf: array<byte>) returns (ok: bool)
      modifies this, buf
      ensures ok == (buf.Length <= |old(inbound)|)
      ensures ok ==> buf[..] == old(inbound)[..buf.Length] && inbound == old(inbound)[buf.Length..]
      ensures !ok ==> inbound == []
      ensures outbound == old(outbound) && open == old(open)
    {
      ok := buf.Length <= |inbound|;
      if !ok {
        inbound := [];
        return;
      }
      forall i | 0 <= i < buf.Length {
        buf[i] := inbound[i];
      }
      inbound := inbound[buf.Length..];
    }
  }

  class BoostAsioSslTransport {
    /** `m_running`. */
    var running: bool
    /** The acceptor is open, bound and listening. */
    var listening: bool
    /** `m_activeSocket`: the one connection send and receive use. */
    var active: Option<SslSocket>
    /** Sockets with an outstanding `async_accept`. */
    var accepting: set<SslSocket>
    /** Accepted sockets with an outstanding `async_handshake`. */
    var handshaking: set<SslSocket>

    /** A socket is in at most one stage of its life (waiting for an accept,
        handshaking, active), and only a running transport listens. */
    ghost predicate Valid()
      reads this
    {
      && (listening ==> running)
      && accepting !! handshaking
      && (active.Some? ==> active.value !in accepting && active.value !in handshaking)
    }

    /** The objects send, receive and stop may change besides the transport. */
    ghost function Slot(): set<SslSocket>
      reads this
    {
      if active.Some? then {active.value} else {}
    }

    constructor ()
      ensures Valid()
      ensures !running && !listening && active == None && accepting == {} && handshaking == {}
    {
      running, listening, active := false, false, None;
      accepting, handshaking := {}, {};
    }

    /** `start()`: a no-op when already running. Otherwise the flag is set
        first; binding may then fail, which leaves the flag set and no accept
        outstanding; when it succeeds the acceptor listens and one accept is
        armed. */
    method Start(bindOk: bool) returns (r: Status<()>)
      requires Valid()
      modifies this
      ensures Valid()
      ensures old(running) ==> r == Ok(()) && unchanged(this)
      ensures !old(running) ==> running && active == old(active) && handshaking == old(handshaking)
      ensures !old(running) && !bindOk ==> r == Err(BindFailed) && !listening && accepting == old(accepting)
      ensures !old(running) && bindOk ==>
        && r == Ok(())
        && listening
        && accepting > old(accepting) && |accepting - old(accepting)| == 1 && fresh(accepting - old(accepting))
        && forall s <- accepting - old(accepting) :: s.Unused()
    {
      var wasRunning := running;
      running := true;
      if wasRunning {
        return Ok(());
      }
      if !bindOk {
        return Err(BindFailed);
      }
      listening := true;
      var _ := AcceptNextConnection();
      r := Ok(());
    }

    /** `stop()`: a no-op when already stopped. Otherwise the flag is cleared,
        the acceptor closed, and the active socket closed and removed from
        the slot. */
    method Stop()
      requires Valid()
      modifies this, Slot()
      ensures Valid()
      ensures !running && !listening
      ensures accepting == old(accepting) && handshaking == old(handshaking)
      ensures !old(running) ==> unchanged(this) && unchanged(old(Slot()))
      ensures old(running) ==> active == None
      ensures old(running) && old(active).Some? ==>
        && !old(active).value.open
        && old(active).value.inbound == old(active.value.inbound)
        && old(active).value.outbound == old(active.value.outbound)
    {
      var wasRunning := running;
      running := false;
      if !wasRunning {
        return;
      }
      listening := false;
      if active.Some? {
        active.value.Close();
        active := None;
      }
    }

    /** `send()`: with no active connection, fails and touches no stream;
        otherwise writes the length header and the buffer in one write. */
    method Send(buffer: seq<byte>) returns (r: Status<()>)
      modifies Slot()
      ensures old(active).None? ==> r == Err(NoActiveConnection)
      ensures active.Some? ==>
        var socket := active.value;
        && r == (if old(socket.open) then Ok(()) else Err(SendFailed))
        && socket.outbound == (if old(socket.open) then old(socket.outbound) + Frame(buffer) else old(socket.outbound))
        && socket.inbound == old(socket.inbound) && socket.open == old(socket.open)
    {
      if active.None? {
        return Err(NoActiveConnection);
      }
      var header := EncodeBE32(|buffer| % TwoTo32);
      var ok := active.value.Write(header + buffer);
      r := if ok then Ok(()) else Err(SendFailed);
    }

    /** `receive()`: with no active connection, fails and touches no stream;
        otherwise reads one frame off the active socket's stream. */
    method Receive() returns (r: Status<seq<byte>>)
      modifies Slot()
      ensures old(active).None? ==> r == Err(NoActiveConnection)
      ensures active.Some? ==>
        var socket := active.value;
        var read := ReadFrame(old(socket.inbound));
        && r == ReceiveStatus(read.payload)
        && socket.inbound == read.rest
        && socket.outbound == old(socket.outbound) && socket.open == old(socket.open)
    {
      if active.None? {
        return Err(NoActiveConnection);
      }
      var socket := active.value;
      ghost var stream := socket.inbound;
      var header := new byte[4];
      var ok := socket.ReadExactly(header);
      if !ok {
        return Err(ReceiveFailed(HeaderReadFailed));
      }
      assert header[..] == stream[..4];
      var payloadLen := DecodeBE32(header[..]);
      if payloadLen == 0 {
        return Ok([]);
      }
      var payload := new byte[payloadLen];
      ok := socket.ReadExactly(payload);
      if !ok {
        return Err(ReceiveFailed(PayloadReadFailed));
      }
      assert stream[4..][..payloadLen] == stream[4..4 + payloadLen];
      assert stream[4..][payloadLen..] == stream[4 + payloadLen..];
      r := Ok(payload[..]);
    }

    /** `acceptNextConnection()`: a new socket and an outstanding accept on it. */
    method AcceptNextConnection() returns (socket: SslSocket)
      requires Valid()
      modifies this
      ensures Valid()
      ensures fresh(socket) && socket.Unused() && accepting == old(accepting) + {socket}
      ensures running == old(running) && listening == old(listening)
      ensures active == old(active) && handshaking == old(handshaking)
    {
      socket := new SslSocket();
      accepting := accepting + {socket};
    }

    /** `doHandshake()`: an outstanding handshake on an accepted socket. */
    method DoHandshake(socket: SslSocket)
      requires Valid() && socket !in accepting && socket !in handshaking
      requires active.Some? ==> active.value != socket
      modifies this
      ensures Valid()
      ensures handshaking == old(handshaking) + {socket}
      ensures running == old(running) && listening == old(listening)
      ensures active == old(active) && accepting == old(accepting)
    {
      handshaking := handshaking + {socket};
    }

    /** The accept handler. Any error, an aborted accept included, ends the
        accept cycle without re-arming, and the handler's reference to the
        socket, its last one, goes away with it; success starts the handshake. */
    method OnAccept(socket: SslSocket, ok: bool)
      requires Valid() && socket in accepting
      modifies this, socket
      ensures Valid()
      ensures accepting == old(accepting) - {socket}
      ensures handshaking == (if ok then old(handshaking) + {socket} else old(handshaking))
      ensures running == old(running) && listening == old(listening) && active == old(active)
      ensures socket.open == (ok && old(socket.open))
      ensures socket.inbound == old(socket.inbound) && socket.outbound == old(socket.outbound)
    {
      accepting := accepting - {socket};
      if !ok {
        socket.Close();
        return;
      }
      DoHandshake(socket);
    }

    /** The handshake handler. Success installs the socket in the slot; the
        socket it replaces loses its last reference and is closed. Failure
        leaves the slot alone and closes the socket whose handshake failed.
        Either way a new accept is armed exactly when the transport is
        running. */
    method OnHandshake(socket: SslSocket, ok: bool)
      requires Valid() && socket in handshaking
      modifies this, Slot(), socket
      ensures Valid()
      ensures handshaking == old(handshaking) - {socket}
      ensures active == (if ok then Some(socket) else old(active))
      ensures running == old(running) && listening == old(listening)
      ensures old(running) ==>
        && accepting > old(accepting) && |accepting - old(accepting)| == 1 && fresh(accepting - old(accepting))
        && forall s <- accepting - old(accepting) :: s.Unused()
      ensures !old(running) ==> accepting == old(accepting)
      ensures ok ==> unchanged(socket)
      ensures ok && old(active).Some? ==>
        && !old(active).value.open
        && old(active).value.inbound == old(active.value.inbound)
        && old(active).value.outbound == old(active.value.outbound)
      ensures !ok ==>
        && !socket.open && socket.inbound == old(socket.inbound) && socket.outbound == old(socket.outbound)
        && unchanged(old(Slot()))
    {
      SettleHandshake(socket, ok);
      if running {
        var _ := AcceptNextConnection();
      }
    }

    /** The part of the handshake handler that settles the socket: it is
        installed in the slot, closing the one it replaces, or closed. */
    method SettleHandshake(socket: SslSocket, ok: bool)
      requires Valid() && socket in handshaking
      modifies this, Slot(), socket
      ensures Valid()
      ensures handshaking == old(handshaking) - {socket}
      ensures active == (if ok then Some(socket) else old(active))
      ensures running == old(running) && listening == old(listening) && accepting == old(accepting)
      ensures ok ==> unchanged(socket)
      ensures ok && old(active).Some? ==>
        && !old(active).value.open
        && old(active).value.inbound == old(active.value.inbound)
        && old(active).value.outbound == old(active.value.outbound)
      ensures !ok ==>
        && !socket.open && socket.inbound == old(socket.inbound) && socket.outbound == old(socket.outbound)
        && unchanged(old(Slot()))
    {
      handshaking := handshaking - {socket};
      if ok {
        if active.Some? {
          active.value.Close();
        }
        active := Some(socket);
      } else {
        socket.Close();
      }
    }
  }
}
