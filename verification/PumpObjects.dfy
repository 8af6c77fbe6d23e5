/** The pump's shared objects in the form the tasks use them: updated in place, with
    the loops that drain, feed and read the connection. */
module PumpObjects {
  import opened Basics
  import opened Pump
  import opened PumpInvariants

  class Connection {
    var handshaking: bool
    var pending: seq<Byte>
    var plaintext: seq<Byte>
    var peerClosed: bool
    ghost var produced: seq<Byte>
    ghost var decrypted: seq<Byte>

    ghost function View(): Conn
      reads this
    {
      Conn(handshaking, pending, plaintext, peerClosed, produced, decrypted)
    }

    constructor (flight: seq<Byte>)
      ensures View() == Conn(true, flight, [], false, flight, [])
    {
      handshaking, pending, plaintext, peerClosed := true, flight, [], false;
      produced, decrypted := flight, [];
    }

    method ProcessNewPackets(p: Packets)
      modifies this
      ensures View() == Process(old(View()), p)
    {
      pending := pending + p.out;
      plaintext := plaintext + p.plain;
      if p.completes {
        handshaking := false;
      }
      if p.closes {
        peerClosed := true;
      }
      produced := produced + p.out;
      decrypted := decrypted + p.plain;
    }
  }

  class TransmitQueue {
    var chunks: seq<seq<Byte>>

    constructor ()
      ensures chunks == []
    {
      chunks := [];
    }
  }

  ghost function LinkOf(conn: Connection, sink: TransmitQueue): Link
    reads conn, sink
  {
    Link(conn.View(), sink.chunks)
  }

  /** Drains in order and without loss, whatever pieces `write_tls` hands out. */
  method DrainTlsWrites(conn: Connection, sink: TransmitQueue, sizes: seq<nat>)
    modifies conn`pending, sink
    ensures LinkOf(conn, sink) == DrainLink(old(LinkOf(conn, sink)), sizes)
    ensures Flat(sink.chunks) + conn.pending == old(Flat(sink.chunks) + conn.pending)
  {
    DrainKeeps(conn.pending, sink.chunks, sizes);
    var i := 0;
    while conn.pending != []
      invariant 0 <= i <= |sizes|
      invariant Drain(conn.pending, sink.chunks, sizes[i..]) ==
                Drain(old(conn.pending), old(sink.chunks), sizes)
      decreases |sizes| - i
    {
      if i == |sizes| || sizes[i] == 0 {
        break;
      }
      var n := if sizes[i] <= |conn.pending| then sizes[i] else |conn.pending|;
      assert sizes[i..][1..] == sizes[i + 1..];
      sink.chunks := sink.chunks + [conn.pending[..n]];
      conn.pending := conn.pending[n..];
      i := i + 1;
    }
  }

  /** How the last read of plaintext ended. */
  datatype ReadEnd = ZeroRead | WouldBlock | UnexpectedEof | OtherError

  /** Reads everything decrypted, however it is split, and reports an end of file only
      when the peer closed. */
  method ReadAvailablePlaintext(conn: Connection, end: ReadEnd, splits: seq<nat>)
    returns (plaintext: seq<Byte>, eof: bool)
    modifies conn`plaintext
    ensures plaintext == old(conn.plaintext) && conn.plaintext == []
    ensures eof <==> end == ZeroRead && conn.peerClosed
  {
    plaintext := [];
    var i := 0;
    while conn.plaintext != []
      invariant plaintext + conn.plaintext == old(conn.plaintext)
      decreases |conn.plaintext|
    {
      var n := if i < |splits| && 0 < splits[i] <= |conn.plaintext| then splits[i] else |conn.plaintext|;
      plaintext := plaintext + conn.plaintext[..n];
      conn.plaintext := conn.plaintext[n..];
      i := i + 1;
    }
    eof := end == ZeroRead && conn.peerClosed;
  }

  /** Feeds one received buffer: the loop stops at the first empty or failed read and
      at the first packet error, after flushing the alert. */
  method FeedBuffer(conn: Connection, sink: TransmitQueue, passes: seq<Pass>, flag: bool)
    returns (failed: bool, clean: bool)
    modifies conn, sink
    ensures Fed(LinkOf(conn, sink), failed, clean) == Feed(old(LinkOf(conn, sink)), passes, flag)
    ensures failed <==> BufferFails(passes)
    ensures Became(old(conn.View()), Ran(passes), conn.View())
  {
    FeedFails(LinkOf(conn, sink), passes, flag);
    FeedBecomes(LinkOf(conn, sink), passes, flag);
    failed, clean := false, flag;
    var i := 0;
    while i < |passes|
      invariant 0 <= i <= |passes| && !failed
      invariant Feed(LinkOf(conn, sink), passes[i..], clean) == Feed(old(LinkOf(conn, sink)), passes, flag)
    {
      assert passes[i..][1..] == passes[i + 1..];
      match passes[i]
      case ReadNothing => return;
      case ReadFailed =>
        failed := true;
        return;
      case Processed(p) =>
        conn.ProcessNewPackets(p);
        DrainTlsWrites(conn, sink, p.sizes);
        if conn.peerClosed {
          clean := true;
        }
        i := i + 1;
      case ProcessFailed(p) =>
        conn.ProcessNewPackets(p);
        DrainTlsWrites(conn, sink, p.sizes);
        failed := true;
        return;
    }
  }

  /** What rustls knows of the peer once the handshake is over. */
  datatype Role = Client | Server(requested: Option<string>)

  datatype Outcome = Outcome(alpn: Option<seq<Byte>>, serverName: Option<string>)

  /** The one-shot signal. */
  class Handshake {
    var sender: bool
    ghost var oks: nat
    ghost var errs: nat

    ghost function View(): Cell
      reads this
    {
      Cell(sender, oks, errs)
    }

    constructor ()
      ensures View() == Cell(true, 0, 0)
    {
      sender, oks, errs := true, 0, 0;
    }

    /** The outcome goes out the first time the handshake is found to be over, and at no
        other time; only a server reports the name the client asked for. */
    method CheckSignal(conn: Connection, alpn: Option<seq<Byte>>, role: Role) returns (sent: Option<Outcome>)
      modifies this
      ensures View() == Check(old(View()), conn.handshaking)
      ensures sent.Some? <==> !conn.handshaking && old(sender)
      ensures sent.Some? ==> sent.value.alpn == alpn
      ensures sent.Some? && role.Server? ==> sent.value.serverName == role.requested
      ensures sent.Some? && role.Client? ==> sent.value.serverName == None
      ensures conn.handshaking ==> View() == old(View())
      ensures !conn.handshaking ==> !sender
    {
      if conn.handshaking {
        return None;
      }
      sent := None;
      if sender {
        sender := false;
        oks := oks + 1;
        match role
        case Server(requested) => sent := Some(Outcome(alpn, requested));
        case Client => sent := Some(Outcome(alpn, None));
      }
    }

    method FailSignal(message: string) returns (sent: Option<string>)
      modifies this
      ensures View() == Fail(old(View())) && !sender
      ensures sent == if old(sender) then Some(message) else None
    {
      sent := None;
      if sender {
        sender := false;
        errs := errs + 1;
        sent := Some(message);
      }
    }
  }

  // ---------------------------------------------------------------- wiring

  /** A stream or future end, by identity. */
  type End = nat

  /** The two ends of a new stream or future. */
  datatype Channel = Channel(writer: End, reader: End)

  datatype Wiring = Wiring(
    cleartextIn: End, ciphertextOut: End, sendDone: End,
    ciphertextIn: End, cleartextOut: End, recvDone: End)

  class Wired {
    var cleartextIn: Option<End>
    var ciphertextOut: Option<End>
    var sendDone: Option<End>
    var ciphertextIn: Option<End>
    var cleartextOut: Option<End>
    var recvDone: Option<End>

    predicate SendWired()
      reads this
    {
      cleartextIn.Some? && ciphertextOut.Some? && sendDone.Some?
    }

    predicate ReceiveWired()
      reads this
    {
      ciphertextIn.Some? && cleartextOut.Some? && recvDone.Some?
    }

    /** Each direction is wired as a whole or not at all. */
    predicate Valid()
      reads this
    {
      && (cleartextIn.Some? || ciphertextOut.Some? || sendDone.Some? ==> SendWired())
      && (ciphertextIn.Some? || cleartextOut.Some? || recvDone.Some? ==> ReceiveWired())
    }

    constructor ()
      ensures Valid() && !SendWired() && !ReceiveWired()
    {
      cleartextIn, ciphertextOut, sendDone := None, None, None;
      ciphertextIn, cleartextOut, recvDone := None, None, None;
    }

    /** Keeps the cleartext and the writing ends of a new stream and a new future, and
        hands their reading ends to the caller. */
    method WireSend(cleartext: End, stream: Channel, done: Channel) returns (ciphertext: End, verdict: End)
      requires Valid()
      modifies this`cleartextIn, this`ciphertextOut, this`sendDone
      ensures Valid() && SendWired()
      ensures cleartextIn == Some(cleartext)
      ensures ciphertextOut.Some? && Channel(ciphertextOut.value, ciphertext) == stream
      ensures sendDone.Some? && Channel(sendDone.value, verdict) == done
    {
      cleartextIn, ciphertextOut, sendDone := Some(cleartext), Some(stream.writer), Some(done.writer);
      return stream.reader, done.reader;
    }

    method WireReceive(ciphertext: End, stream: Channel, done: Channel) returns (cleartext: End, verdict: End)
      requires Valid()
      modifies this`ciphertextIn, this`cleartextOut, this`recvDone
      ensures Valid() && ReceiveWired()
      ensures ciphertextIn == Some(ciphertext)
      ensures cleartextOut.Some? && Channel(cleartextOut.value, cleartext) == stream
      ensures recvDone.Some? && Channel(recvDone.value, verdict) == done
    {
      ciphertextIn, cleartextOut, recvDone := Some(ciphertext), Some(stream.writer), Some(done.writer);
      return stream.reader, done.reader;
    }

    /** Complete exactly when both directions are wired.  The ends are taken one by
        one, so a call made too early keeps a lone receive wiring but consumes a lone
        send wiring: its stream ends are dropped. */
    method TakeComplete() returns (r: Option<Wiring>)
      requires Valid()
      modifies this
      ensures Valid() && !SendWired()
      ensures r.Some? <==> old(SendWired()) && old(ReceiveWired())
      ensures r.Some? ==>
                && !ReceiveWired()
                && old(cleartextIn) == Some(r.value.cleartextIn) && old(ciphertextOut) == Some(r.value.ciphertextOut)
                && old(sendDone) == Some(r.value.sendDone) && old(ciphertextIn) == Some(r.value.ciphertextIn)
                && old(cleartextOut) == Some(r.value.cleartextOut) && old(recvDone) == Some(r.value.recvDone)
      ensures r.None? ==>
                ciphertextIn == old(ciphertextIn) && cleartextOut == old(cleartextOut) && recvDone == old(recvDone)
    {
      if cleartextIn.None? {
        return None;
      }
      var a := cleartextIn.value;
      cleartextIn := None;
      if ciphertextOut.None? {
        return None;
      }
      var b := ciphertextOut.value;
      ciphertextOut := None;
      if sendDone.None? {
        return None;
      }
      var c := sendDone.value;
      sendDone := None;
      if ciphertextIn.None? {
        return None;
      }
      var d := ciphertextIn.value;
      ciphertextIn := None;
      if cleartextOut.None? {
        return None;
      }
      var e := cleartextOut.value;
      cleartextOut := None;
      if recvDone.None? {
        return None;
      }
      var f := recvDone.value;
      recvDone := None;
      r := Some(Wiring(a, b, c, d, e, f));
    }
  }
}
