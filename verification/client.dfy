/** The client's receive path: `internal/client/client.go`. */
module Clients {
  import opened Bytes
  import opened History
  import opened AltScreen
  import Buffers

  const ACK_INTERVAL: nat := 0x50_0000

  /** What the client writes to the terminal when it learns that the remote program is in alt-screen. */
  const ENTER_ALT: seq<byte> := [0x1B, 0x5B, 0x3F, 0x31, 0x30, 0x34, 0x39, 0x68]

  /**
   What the client holds: its history buffer, everything written to the terminal, and where in the
   stream it inserted `ENTER_ALT` of its own accord; the watermark; the alt-screen scanner and flag.
   */
  datatype Client = Client(buf: View, term: seq<byte>, resyncs: seq<nat>, acked: nat, scan: ScanState, inAlt: bool)

  const FreshClient: Client := Client(EmptyView, [], [], 0, Fresh, false)

  /** The bytes of a frame at `off` that the client does not have yet, if it can take the frame. */
  function NewBytes(len: nat, off: nat, payload: seq<byte>): Option<seq<byte>> {
    if off + |payload| <= len then None
    else if len < off then None
    else Some(payload[len - off..])
  }

  function Absorbed(c: Config, k: Client, x: seq<byte>): Client {
    var (scan, ev) := ScanFrom(k.scan, x);
    k.(buf := Appended(c, k.buf, x), term := k.term + x, scan := scan, inAlt := Flag(k.inAlt, ev))
  }

  /** The acknowledgement due when at least `minBytes` are unacknowledged, with the new watermark. */
  function TryAck(k: Client, minBytes: nat): (Client, Option<nat>) {
    var total := |k.buf.stream|;
    if total - k.acked < minBytes then (k, None) else (k.(acked := total), Some(total))
  }

  /** An OUTPUT frame: overlap is skipped, a gap is refused, the rest is shown and maybe acknowledged. */
  function Received(c: Config, k: Client, off: nat, payload: seq<byte>): (Client, Option<nat>) {
    match NewBytes(|k.buf.stream|, off, payload)
    case None => (k, None)
    case Some(x) => TryAck(Absorbed(c, k, x), ACK_INTERVAL)
  }

  /** HELLO_ACK finds the daemon in alt-screen and this terminal not. */
  predicate Resyncs(k: Client, alt: bool) {
    alt && !k.inAlt
  }

  /** HELLO_ACK: enter alt-screen if the daemon is there and we are not; restart the watermark. */
  function Greeted(k: Client, alt: bool): Client {
    var n := |k.buf.stream|;
    if Resyncs(k, alt)
    then k.(term := k.term + ENTER_ALT, resyncs := k.resyncs + [n], inAlt := true, acked := n)
    else k.(acked := n)
  }

  // ----- What the terminal has been fed -----

  /** The stream, with `ENTER_ALT` inserted at each of these positions. */
  function WithResyncs(s: seq<byte>, at: seq<nat>): seq<byte>
    decreases |at|
  {
    if at == [] then s
    else
      var n := Min(at[|at| - 1], |s|);
      WithResyncs(s[..n], at[..|at| - 1]) + ENTER_ALT + s[n..]
  }

  /** Bytes shown after the last insertion go to the end. */
  lemma ShowMore(s: seq<byte>, x: seq<byte>, at: seq<nat>)
    requires at != [] ==> at[|at| - 1] <= |s|
    ensures WithResyncs(s + x, at) == WithResyncs(s, at) + x
  {
    if at != [] {
      var n := at[|at| - 1];
      assert (s + x)[..n] == s[..n] && (s + x)[n..] == s[n..] + x;
    }
  }

  lemma InsertHere(s: seq<byte>, at: seq<nat>)
    ensures WithResyncs(s, at + [|s|]) == WithResyncs(s, at) + ENTER_ALT
  {
    assert (at + [|s|])[..|at|] == at && s[..|s|] == s && s[|s|..] == [];
  }

  /** Each insertion costs eight bytes, so the terminal sees the bare stream only without any. */
  lemma {:induction false} ResyncsAdd(s: seq<byte>, at: seq<nat>)
    ensures |WithResyncs(s, at)| == |s| + 8 * |at|
    ensures WithResyncs(s, at) == s <==> at == []
    decreases |at|
  {
    if at != [] {
      ResyncsAdd(s[..Min(at[|at| - 1], |s|)], at[..|at| - 1]);
    }
  }

  class ClientState {
    const outputBuf: Buffers.Buffer
    const altScanner: Scanner
    var termOut: seq<byte>
    var ackedThrough: nat
    var inAltScreen: bool
    var acksSent: seq<nat>
    ghost var resyncs: seq<nat>
    ghost var greeted: nat // what was held when HELLO_ACK last arrived
    ghost var intact: bool // the watermark has not moved past a failed write since

    ghost predicate Valid()
      reads this, outputBuf, altScanner
    {
      && outputBuf.Valid() && !outputBuf.sealed
      && ackedThrough <= |outputBuf.view.stream|
      && (intact ==> Sent(ackedThrough))
    }

    /** The daemon knows that this much has arrived: HELLO said so, or the latest acknowledgement. */
    ghost predicate Sent(n: nat)
      reads this`greeted, this`acksSent
    {
      n == greeted || (acksSent != [] && acksSent[|acksSent| - 1] == n)
    }

    ghost function View(): Client
      reads this, outputBuf, altScanner
    {
      Client(outputBuf.view, termOut, resyncs, ackedThrough, altScanner.Current(), inAltScreen)
    }

    constructor (buf: Buffers.Buffer, scanner: Scanner)
      requires buf.Valid() && buf.view == EmptyView && !buf.sealed && scanner.Current() == Fresh
      ensures Valid() && View() == FreshClient && acksSent == [] && greeted == 0 && intact
      ensures outputBuf == buf && altScanner == scanner
    {
      outputBuf, altScanner := buf, scanner;
      termOut, ackedThrough, inAltScreen, acksSent, resyncs := [], 0, false, [], [];
      greeted, intact := 0, true;
    }

    /**
     Sends an acknowledgement for everything held if enough of it is unacknowledged. Without a
     connection nothing happens; if the write fails, the watermark has moved all the same.
     */
    method TryToAck(minBytes: nat, connected: bool, linkUp: bool)
      requires Valid()
      modifies this`ackedThrough, this`acksSent, this`intact
      ensures Valid()
      ensures connected ==> |outputBuf.view.stream| - ackedThrough < Max(minBytes, 1)
      ensures ackedThrough == old(ackedThrough) || minBytes <= ackedThrough - old(ackedThrough)
      ensures intact == (old(intact) && (linkUp || ackedThrough == old(ackedThrough)))
      ensures linkUp && ackedThrough != old(ackedThrough) ==> acksSent == old(acksSent) + [ackedThrough]
      ensures var (k, ack) := TryAck(old(View()), minBytes);
              if connected
              then View() == k && acksSent == old(acksSent) + (if ack.Some? && linkUp then [ack.value] else [])
              else View() == old(View()) && acksSent == old(acksSent)
    {
      if !connected {
        return;
      }
      var total := outputBuf.Len();
      if total - ackedThrough < minBytes {
        return;
      }
      intact := intact && (linkUp || ackedThrough == total);
      ackedThrough := total;
      if linkUp {
        acksSent := acksSent + [total];
      }
    }

    /** Scans, shows and stores the bytes of a frame that were not there yet. */
    method Show(newBytes: seq<byte>)
      requires Valid()
      modifies this`inAltScreen, this`termOut, outputBuf, altScanner
      ensures Valid() && View() == Absorbed(outputBuf.cfg, old(View()), newBytes)
    {
      hide Appended, ScanFrom;
      var event := altScanner.Scan(newBytes);
      if event != Quiet {
        inAltScreen := event == Enter;
      }
      termOut := termOut + newBytes;
      AppendedGrows(outputBuf.cfg, outputBuf.view, newBytes);
      var ok := outputBuf.Append(newBytes);
    }

    /**
     Takes a frame. 5 MiB of new output never go unacknowledged: on a link whose writes have not failed
     the watermark is the offset of the latest acknowledgement sent, or what HELLO announced.
     */
    method HandleOutputFrame(off: nat, payload: seq<byte>, linkUp: bool)
      requires Valid()
      modifies this, outputBuf, altScanner
      ensures Valid() && greeted == old(greeted)
      ensures |outputBuf.view.stream| > old(|outputBuf.view.stream|) ==> |outputBuf.view.stream| - ackedThrough < 0x50_0000
      ensures ackedThrough == old(ackedThrough) || 0x50_0000 <= ackedThrough - old(ackedThrough)
      ensures intact == (old(intact) && (linkUp || ackedThrough == old(ackedThrough)))
      ensures linkUp && ackedThrough != old(ackedThrough) ==> acksSent == old(acksSent) + [ackedThrough]
      ensures var (k, ack) := Received(outputBuf.cfg, old(View()), off, payload);
              View() == k && acksSent == old(acksSent) + (if ack.Some? && linkUp then [ack.value] else [])
    {
      hide Absorbed;
      var total := outputBuf.Len();
      if off + |payload| <= total {
        return;
      }
      if off > total {
        return;
      }
      var skip := total - off;
      Show(payload[skip..]);
      TryToAck(ACK_INTERVAL, true, linkUp);
    }

    /** `kick` asks for the Ctrl-L that makes the remote program redraw. */
    method OnHelloAck(alt: bool) returns (kick: bool)
      requires Valid()
      modifies this`inAltScreen, this`ackedThrough, this`termOut, this`resyncs, this`greeted, this`intact
      ensures Valid() && View() == Greeted(old(View()), alt)
      ensures kick <==> alt && !old(inAltScreen)
      ensures inAltScreen == (alt || old(inAltScreen))
      ensures greeted == ackedThrough == |outputBuf.view.stream| && intact
    {
      kick := false;
      if alt && !inAltScreen {
        termOut := termOut + ENTER_ALT;
        resyncs := resyncs + [|outputBuf.view.stream|];
        inAltScreen := true;
        kick := true;
      }
      ackedThrough := outputBuf.Len();
      greeted, intact := ackedThrough, true;
    }
  }

  /** What the client inserts is what its own scanner hears as entering alt-screen. */
  lemma EnterAltHeard(a: ScanState)
    requires a.state == 0
    ensures ScanFrom(a, ENTER_ALT).1.Enter?
  {
    var ds: seq<byte> := [0x31, 0x30, 0x34, 0x39];
    assert ENTER_ALT == [0x1B, 0x5B, 0x3F] + ds + [0x68] && ds[..Min(|ds|, 32)] == ds;
    Recognised(a, ds, 0x68);
    FieldForms(ds, [], []);
  }

  /**
   A truthful frame at any offset, with overlap, gap or neither, leaves a prefix of the stream a prefix:
   longer if it starts within the prefix and ends past it, otherwise the same.
   */
  lemma TruthfulFrame(c: Config, k: Client, all: seq<byte>, off: nat, n: nat)
    requires k.buf.stream <= all && off + n <= |all|
    ensures var len, s' := |k.buf.stream|, Received(c, k, off, all[off..off + n]).0.buf.stream;
            s' == if off <= len < off + n then all[..off + n] else k.buf.stream
  {
    var len, x := |k.buf.stream|, all[off..off + n];
    if off <= len < off + n {
      SubSlice(all, off, off + n, len, off + n - len);
      assert all[..len] + all[len..off + n] == all[..off + n];
      AppendedGrows(c, k.buf, x[len - off..]);
    }
  }

  lemma AppendedGrows(c: Config, v: View, x: seq<byte>)
    ensures Appended(c, v, x).stream == v.stream + x
  {
  }
}
