/** The daemon's sending side: handshake, live streaming, acknowledgements and segment replay. */
module Streaming {
  import opened Bytes
  import opened History
  import opened Chunks
  import opened SegmentFiles
  import Buffers
  import Proto

  /** Bytes read and sent at a time. */
  const SEND_SIZE: nat := 0x1_0000

  // ----- Live streaming -----

  /** What one read of the streamer yields: as much as fits and exists. */
  function Piece(s: seq<byte>, off: nat): (x: seq<byte>)
    requires off < |s|
    ensures 0 < |x| <= SEND_SIZE && off + |x| <= |s| && x == s[off..off + |x|]
    ensures |x| == 0x1_0000 || off + |x| == |s|
  {
    s[off..off + Min(SEND_SIZE, |s| - off)]
  }

  function OutputFrame(off: nat, x: seq<byte>): (f: Proto.Frame)
    ensures f.ftype == 0x04
  {
    Proto.Frame(Proto.OUTPUT, off, x)
  }

  /** The OUTPUT frames a streamer sends between `from` and `end`. */
  ghost predicate Chain(fs: seq<Proto.Frame>, s: seq<byte>, from: nat, end: nat)
    decreases |fs|
  {
    if fs == [] then from == end
    else
      && from < |s| && fs[0] == OutputFrame(from, Piece(s, from))
      && Chain(fs[1..], s, from + |Piece(s, from)|, end)
  }

  lemma {:induction false} ChainSnoc(fs: seq<Proto.Frame>, s: seq<byte>, from: nat, end: nat)
    requires Chain(fs, s, from, end) && end < |s|
    ensures Chain(fs + [OutputFrame(end, Piece(s, end))], s, from, end + |Piece(s, end)|)
    decreases |fs|
  {
    var g := OutputFrame(end, Piece(s, end));
    if fs == [] {
      assert [g][1..] == [];
    } else {
      ChainSnoc(fs[1..], s, from + |fs[0].payload|, end);
      assert (fs + [g])[1..] == fs[1..] + [g];
    }
  }

  /** Writes one OUTPUT frame; whether the link takes it is the environment's choice. */
  method SendOutput(conn: Proto.Conn, off: nat, payload: seq<byte>) returns (ok: bool)
    requires conn.Valid() && off < U64 && |payload| <= SEND_SIZE
    modifies conn`outbox, conn`broken, conn`sent
    ensures conn.Valid() && ok == !conn.broken
    ensures conn.sent == if ok then old(conn.sent) + [OutputFrame(off, payload)] else old(conn.sent)
  {
    var up: bool := *;
    var r := conn.WriteFrame(OutputFrame(off, payload), up);
    ok := r.Ok?;
  }

  datatype ReadEnd = More | Short | Nothing | BelowTrim | Failed

  /**
   One read and write of `streamLoop`, whatever appends and trims went before it: the next piece of
   the stream as it stands is sent, or the reason why not is returned.
   */
  method StreamStep(buf: Buffers.Buffer, conn: Proto.Conn, send: array<byte>, off: nat) returns (next: nat, r: ReadEnd)
    requires buf.Valid() && conn.Valid() && |buf.view.stream| < U64 && send.Length == SEND_SIZE
    modifies conn`outbox, conn`broken, conn`sent, send
    ensures conn.Valid()
    ensures match r
            case Nothing => |buf.view.stream| <= off == next && conn.sent == old(conn.sent)
            case BelowTrim => off == next < buf.view.trim && conn.sent == old(conn.sent)
            case Failed => conn.broken && off == next && conn.sent == old(conn.sent)
            case _ =>
              && buf.view.trim <= off < |buf.view.stream| && next == off + |Piece(buf.view.stream, off)|
              && conn.sent == old(conn.sent) + [OutputFrame(off, Piece(buf.view.stream, off))]
              && (r.Short? ==> next == |buf.view.stream|)
  {
    next := off;
    var n, err := buf.ReadAt(send, off);
    if n > 0 {
      var ok := SendOutput(conn, off, send[..n]);
      if !ok {
        return off, Failed;
      }
      next := off + n;
    }
    if err.EndOfStream? {
      return next, Nothing;
    }
    if err.BelowTrim? {
      return next, BelowTrim;
    }
    r := if n < send.Length then Short else More;
  }

  datatype RoundEnd = Drained | Parked | Starved | Broken

  /**
   One round of `streamLoop`: send until a read comes up short, then look whether to wait. On a
   sealed buffer a round is the last one, and it ends with everything up to the end sent, unless
   the link broke or the trim point had overtaken the cursor.
   */
  method StreamRound(buf: Buffers.Buffer, conn: Proto.Conn, from: nat) returns (off: nat, r: RoundEnd, ghost fs: seq<Proto.Frame>)
    requires buf.Valid() && conn.Valid() && from <= |buf.view.stream| < U64
    modifies conn`outbox, conn`broken, conn`sent
    ensures conn.Valid() && conn.sent == old(conn.sent) + fs
    ensures from <= off <= |buf.view.stream| && Chain(fs, buf.view.stream, from, off)
    ensures match r
            case Drained => buf.sealed && off == |buf.view.stream|
            case Parked => !buf.sealed && off == |buf.view.stream|
            case Starved => off == from < buf.view.trim && fs == []
            case Broken => conn.broken
  {
    off, fs := from, [];
    var send := new byte[SEND_SIZE];
    var more := true;
    while more
      invariant conn.Valid() && conn.sent == old(conn.sent) + fs
      invariant from <= off <= |buf.view.stream| && Chain(fs, buf.view.stream, from, off)
      invariant more ==> fs == [] || buf.view.trim <= off
      invariant fs == [] ==> off == from
      invariant !more ==> off == |buf.view.stream|
      decreases |buf.view.stream| - off, more
    {
      var next, e := StreamStep(buf, conn, send, off);
      if e.Failed? {
        return off, Broken, fs;
      }
      if e.BelowTrim? {
        return off, Starved, fs;
      }
      if e.More? || e.Short? {
        ChainSnoc(fs, buf.view.stream, from, off);
        fs := fs + [OutputFrame(off, Piece(buf.view.stream, off))];
      }
      off := next;
      more := e.More?;
    }
    var w := buf.Poll(off);
    r := if w.Parked? then Parked else Drained;
  }

  // ----- Handshake and acknowledgements -----

  /** The handshake of `serveAttach`: compare manifests, then clamp to what is still held. */
  method ServeHello(buf: Buffers.Buffer, peer: Manifest) returns (own: Manifest, resendFrom: nat)
    requires buf.Valid()
    ensures own == ManifestOf(buf.cfg, buf.view)
    ensures resendFrom == Max(Resend(own, peer, buf.cfg.chunkSize), buf.view.trim)
  {
    var total := buf.Len();
    var first := buf.FirstChunkIndex();
    var hashes := buf.ChunkHashes();
    own := Manifest(total, first, hashes);
    resendFrom := ResendFrom(own, peer, buf.cfg.chunkSize);
    var t := buf.TrimOffset();
    if resendFrom < t {
      resendFrom := t;
    }
  }

  /** An ACK frame: its first eight bytes are the offset to trim to; a shorter payload is ignored. */
  method OnAck(buf: Buffers.Buffer, payload: seq<byte>)
    requires buf.Valid()
    modifies buf
    ensures buf.Valid() && buf.sealed == old(buf.sealed)
    ensures buf.view == if |payload| < 8 then old(buf.view)
                        else Trimmed(buf.cfg, old(buf.view), FromBE64(payload[..8]))
  {
    if |payload| < 8 {
      return;
    }
    buf.TrimTo(FromBE64(payload[..8]));
  }

  // ----- Replay -----

  const REPLAY_OK: nat := 129
  const REPLAY_FAILED: nat := 1

  const NoFile: SegmentInfo := SegmentInfo(0, 0, [])

  /** A replay under way: segments not yet reached, the position, and the file opened last. */
  datatype Replay = Replay(rest: seq<SegmentInfo>, cursor: nat, file: SegmentInfo)

  /** Pass over a segment that lies below the cursor, open the next one, or send some of the open file. */
  datatype Move = Skip | Open | Send(n: nat)

  function StartReplay(segs: seq<SegmentInfo>, from: nat): Replay {
    Replay(segs, from, NoFile)
  }

  predicate CanMove(r: Replay, m: Move) {
    match m
    case Skip => r.file.endOff <= r.cursor && r.rest != [] && r.rest[0].endOff <= r.cursor
    case Open => r.file.endOff <= r.cursor && r.rest != [] && r.cursor < r.rest[0].endOff
    case Send(n) =>
      && 0 < n <= SEND_SIZE && r.file.startOff <= r.cursor && r.cursor + n <= r.file.endOff
      && r.cursor - r.file.startOff + n <= |r.file.data|
  }

  function Moved(r: Replay, m: Move): Replay
    requires CanMove(r, m)
  {
    match m
    case Skip => r.(rest := r.rest[1..])
    case Open => Replay(r.rest[1..], Max(r.cursor, r.rest[0].startOff), r.rest[0])
    case Send(n) => r.(cursor := r.cursor + n)
  }

  /** The bytes a move sends. */
  function Sent(r: Replay, m: Move): seq<byte>
    requires CanMove(r, m)
  {
    match m
    case Send(n) => r.file.data[r.cursor - r.file.startOff..r.cursor - r.file.startOff + n]
    case _ => []
  }

  function SentFrames(r: Replay, m: Move): seq<Proto.Frame>
    requires CanMove(r, m)
  {
    if m.Send? then [OutputFrame(r.cursor, Sent(r, m))] else []
  }

  /** Every segment has been sent or passed over. */
  predicate Finished(r: Replay) {
    r.file.endOff <= r.cursor && r.rest == []
  }

  /**
   How a replay daemon ends: without a client or a readable HELLO, without having written HELLO_ACK,
   or having streamed up to `end`, with or without an EXIT frame after it.
   */
  datatype ReplayEnd = NoHello | NotGreeted | Greeted(end: Replay, exitWritten: bool)

  /** Whether it then removes the session directory. */
  predicate Removes(e: ReplayEnd, clean: bool) {
    !e.Greeted? || (clean && Finished(e.end) && e.exitWritten)
  }

  /** These moves take `r` to `r'` and send these frames. */
  ghost predicate Moves(r: Replay, ms: seq<Move>, fs: seq<Proto.Frame>, r': Replay)
    decreases |ms|
  {
    if ms == [] then fs == [] && r' == r
    else
      && CanMove(r, ms[0])
      && |SentFrames(r, ms[0])| <= |fs| && SentFrames(r, ms[0]) == fs[..|SentFrames(r, ms[0])|]
      && Moves(Moved(r, ms[0]), ms[1..], fs[|SentFrames(r, ms[0])|..], r')
  }

  lemma {:induction false} MovesSnoc(r: Replay, ms: seq<Move>, fs: seq<Proto.Frame>, r': Replay, m: Move)
    requires Moves(r, ms, fs, r') && CanMove(r', m)
    ensures Moves(r, ms + [m], fs + SentFrames(r', m), Moved(r', m))
    decreases |ms|
  {
    hide CanMove, Moved, SentFrames;
    var x := SentFrames(r', m);
    if ms == [] {
      assert [m][1..] == [] && x[|x|..] == [] && x[..|x|] == x;
      assert fs + x == x && ms + [m] == [m];
    } else {
      var k := |SentFrames(r, ms[0])|;
      MovesSnoc(Moved(r, ms[0]), ms[1..], fs[k..], r', m);
      assert (ms + [m])[1..] == ms[1..] + [m];
      assert (fs + x)[k..] == fs[k..] + x && (fs + x)[..k] == fs[..k];
    }
  }

  /** A listing as `ScanSegments` makes it: sizes taken from the files, offsets within uint64. */
  ghost predicate Listed(segs: seq<SegmentInfo>) {
    forall g :: g in segs ==> g.endOff == g.startOff + |g.data| && g.endOff < U64
  }

  /** Sends `n` bytes of the open file. */
  method SendSome(conn: Proto.Conn, ghost start: Replay, ghost ms0: seq<Move>, ghost fs0: seq<Proto.Frame>, r0: Replay, n: nat)
    returns (ok: bool, r: Replay, ghost ms: seq<Move>, ghost fs: seq<Proto.Frame>)
    requires conn.Valid() && Moves(start, ms0, fs0, r0) && CanMove(r0, Send(n)) && r0.cursor < U64
    modifies conn`outbox, conn`broken, conn`sent
    ensures conn.Valid() && ok == !conn.broken && Moves(start, ms, fs, r)
    ensures r == if ok then r0.(cursor := r0.cursor + n) else r0
    ensures fs0 <= fs && conn.sent == old(conn.sent) + fs[|fs0|..]
  {
    r, ms, fs := r0, ms0, fs0;
    MovesSnoc(start, ms0, fs0, r0, Send(n));
    var x := r.file.data[r.cursor - r.file.startOff..r.cursor - r.file.startOff + n];
    assert SentFrames(r0, Send(n)) == [OutputFrame(r0.cursor, x)] && Moved(r0, Send(n)) == r0.(cursor := r0.cursor + n);
    assert |x| <= SEND_SIZE;
    hide Moves, Moved, CanMove, SentFrames, Sent, OutputFrame;
    ok := SendOutput(conn, r.cursor, x);
    if ok {
      r, ms, fs := r0.(cursor := r0.cursor + n), ms0 + [Send(n)], fs0 + [OutputFrame(r0.cursor, x)];
      assert fs[|fs0|..] == [OutputFrame(r0.cursor, x)];
    }
  }

  /** Sends the rest of the open file. */
  method SendFile(conn: Proto.Conn, ghost start: Replay, ghost ms0: seq<Move>, ghost fs0: seq<Proto.Frame>, r0: Replay)
    returns (ok: bool, r: Replay, ghost ms: seq<Move>, ghost fs: seq<Proto.Frame>)
    requires conn.Valid() && Moves(start, ms0, fs0, r0)
    requires r0.file.endOff == r0.file.startOff + |r0.file.data| && r0.file.endOff < U64
    requires r0.file.startOff <= r0.cursor <= r0.file.endOff
    modifies conn`outbox, conn`broken, conn`sent
    ensures conn.Valid() && fs0 <= fs && conn.sent == old(conn.sent) + fs[|fs0|..]
    ensures Moves(start, ms, fs, r) && r.rest == r0.rest
    ensures if ok then r == r0.(cursor := r0.file.endOff) else conn.broken && r.cursor < r.file.endOff
  {
    hide Moves;
    r, ms, fs := r0, ms0, fs0;
    while r.cursor < r.file.endOff
      invariant r == r0.(cursor := r.cursor) && r0.file.startOff <= r.cursor <= r0.file.endOff
      invariant conn.Valid() && fs0 <= fs && conn.sent == old(conn.sent) + fs[|fs0|..]
      invariant Moves(start, ms, fs, r)
      decreases r0.file.endOff - r.cursor
    {
      var chunkLen := SEND_SIZE;
      if r.cursor + chunkLen > r.file.endOff {
        chunkLen := r.file.endOff - r.cursor;
      }
      var n: nat :| 0 < n <= chunkLen; // a read may be short
      ghost var before := fs;
      ok, r, ms, fs := SendSome(conn, start, ms, fs, r, n);
      assert fs[|fs0|..] == before[|fs0|..] + fs[|before|..];
      if !ok {
        return;
      }
    }
    ok := true;
  }

  /** Opens the next segment, if it is still there, and sends it to its end. */
  method SendSegment(conn: Proto.Conn, ghost start: Replay, ghost ms0: seq<Move>, ghost fs0: seq<Proto.Frame>, r0: Replay)
    returns (ok: bool, r: Replay, ghost ms: seq<Move>, ghost fs: seq<Proto.Frame>)
    requires conn.Valid() && Moves(start, ms0, fs0, r0) && CanMove(r0, Open)
    requires r0.rest[0].endOff == r0.rest[0].startOff + |r0.rest[0].data| && r0.rest[0].endOff < U64
    modifies conn`outbox, conn`broken, conn`sent
    ensures conn.Valid() && fs0 <= fs && conn.sent == old(conn.sent) + fs[|fs0|..]
    ensures Moves(start, ms, fs, r)
    ensures if ok then r == Moved(r0, Open).(cursor := r0.rest[0].endOff)
            else !Finished(r) && (conn.broken || CanMove(r, Open))
  {
    r, ms, fs := r0, ms0, fs0;
    var present: bool := *;
    if !present {
      return false, r, ms, fs;
    }
    MovesSnoc(start, ms, fs, r, Open);
    hide Moves;
    assert fs + [] == fs;
    ms, r := ms + [Open], Moved(r, Open);
    ok, r, ms, fs := SendFile(conn, start, ms, fs, r);
  }

  lemma Extends<T>(a: seq<T>, before: seq<T>, now: seq<T>)
    requires before <= now
    ensures a + before + now[|before|..] == a + now
  {
    assert now == before + now[|before|..];
  }

  lemma SkipStep(start: Replay, ms: seq<Move>, fs: seq<Proto.Frame>, r: Replay)
    requires Moves(start, ms, fs, r) && CanMove(r, Skip)
    ensures Moves(start, ms + [Skip], fs, r.(rest := r.rest[1..]))
  {
    MovesSnoc(start, ms, fs, r, Skip);
    hide Moves;
    assert fs + [] == fs;
  }

  lemma ListedTail(segs: seq<SegmentInfo>)
    requires Listed(segs) && segs != []
    ensures segs[0].endOff == segs[0].startOff + |segs[0].data| && segs[0].endOff < U64
    ensures Listed(segs[1..])
  {
    assert segs[0] in segs;
    assert forall g :: g in segs[1..] ==> g in segs;
  }

  /**
   `streamSegments`: whatever the listing, each segment is passed over or opened and sent to its end,
   in order, from `from` on. Success means none is left; failure, that the link broke or that a
   segment could not be opened, which is the environment's choice.
   */
  method StreamSegments(conn: Proto.Conn, segs: seq<SegmentInfo>, from: nat)
    returns (code: nat, ghost ms: seq<Move>, ghost fs: seq<Proto.Frame>, ghost end: Replay)
    requires conn.Valid() && Listed(segs)
    modifies conn`outbox, conn`broken, conn`sent
    ensures conn.Valid() && conn.sent == old(conn.sent) + fs
    ensures Moves(StartReplay(segs, from), ms, fs, end)
    ensures code == REPLAY_OK || code == REPLAY_FAILED
    ensures code == REPLAY_OK <==> Finished(end)
    ensures code == REPLAY_FAILED ==> conn.broken || CanMove(end, Open)
  {
    ghost var start := StartReplay(segs, from);
    var r := StartReplay(segs, from);
    ms, fs := [], [];
    assert Moves(start, ms, fs, r);
    hide Moves;
    hide Listed;
    while r.rest != []
      invariant r.file.endOff <= r.cursor && Listed(r.rest)
      invariant conn.Valid() && conn.sent == old(conn.sent) + fs && Moves(start, ms, fs, r)
      decreases |r.rest|
    {
      ListedTail(r.rest);
      if r.rest[0].endOff <= r.cursor {
        SkipStep(start, ms, fs, r);
        ms, r := ms + [Skip], r.(rest := r.rest[1..]);
        continue;
      }
      ghost var before := fs;
      var ok: bool;
      ok, r, ms, fs := SendSegment(conn, start, ms, fs, r);
      Extends(old(conn.sent), before, fs);
      if !ok {
        return REPLAY_FAILED, ms, fs, r;
      }
    }
    return REPLAY_OK, ms, fs, r;
  }
}
