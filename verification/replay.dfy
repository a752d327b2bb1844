/** The replay daemon of `internal/daemon/daemon.go`, and when it removes what it was to deliver. */
module ReplayDaemon {
  import opened Bytes
  import opened Chunks
  import opened Hellos
  import opened Invariant
  import opened SegmentFiles
  import opened Streaming
  import Proto

  const MODE_ATTACH: byte := 1

  /** EXIT codes: refused, replayed, replayed after a disk-cap shutdown, failed. */
  const EXIT_REFUSED: nat := 130
  const EXIT_REPLAYED: nat := 133
  const EXIT_DISKCAP: nat := 134
  const EXIT_FAILED: nat := 1

  /** The HELLO at the head of a connection, if there is one and it can be decoded. */
  function Heard(inbox: seq<byte>): Option<Hello> {
    match Proto.ParseFrame(inbox)
    case Got(f, _) =>
      if f.ftype != Proto.HELLO then None
      else (match Decoded(f.payload)
            case Ok(h) => Some(h)
            case Err(_) => None)
    case _ => None
  }

  /** The stream's length, as the last segment tells it. */
  function TotalSize(segs: seq<SegmentInfo>): nat {
    if segs == [] then 0 else segs[|segs| - 1].endOff
  }

  function Answer(sessionID: seq<byte>, total: nat): Hello {
    Hello(0, 0, MODE_ATTACH, sessionID, Manifest(total, 0, []), false)
  }

  function AnswerFrame(sessionID: seq<byte>, total: nat): Proto.Frame
    requires |sessionID| <= 255 && total < U64
  {
    Proto.Frame(Proto.HELLO_ACK, 0, Encoded(Answer(sessionID, total)))
  }

  /** A hello is heard if it comes in a HELLO frame, and in no other. */
  lemma HeardIff(h: Hello, ftype: byte, rest: seq<byte>)
    requires Typed(h) && |h.sessionID| <= 255 && |h.output.hashes| < U32 && Fits(|h.sessionID|, |h.output.hashes|)
    ensures Proto.Sendable(Proto.Frame(ftype, 0, Encoded(h)))
    ensures Heard(Proto.EncodeFrame(Proto.Frame(ftype, 0, Encoded(h))) + rest) ==
            if ftype == 0x01 then Some(Versioned(h)) else None
  {
    HelloFitsFrame(h);
    Proto.ParseEncoded(Proto.Frame(ftype, 0, Encoded(h)), rest);
    HelloRoundTrip(h, []);
    assert Encoded(h) + [] == Encoded(h);
  }

  /** A connection that breaks within the first frame is not heard. */
  lemma CutUnheard(f: Proto.Frame, k: nat)
    requires Proto.Sendable(f) && k < |Proto.EncodeFrame(f)|
    ensures Heard(Proto.EncodeFrame(f)[..k]).None?
  {
    Proto.ParseCut(f, k);
  }

  /** What the answer tells its reader: the stream's length, no digests, not in alt-screen. */
  lemma AnswerTells(sessionID: seq<byte>, total: nat)
    requires |sessionID| <= 255 && total < U64
    ensures AnswerFrame(sessionID, total).ftype == 0x02
    ensures Decoded(AnswerFrame(sessionID, total).payload) == Ok(Hello(1, 2, 1, sessionID, Manifest(total, 0, []), false))
  {
    HelloRoundTrip(Answer(sessionID, total), []);
    assert Encoded(Answer(sessionID, total)) + [] == Encoded(Answer(sessionID, total));
  }

  /** For a listing that holds the stream to its end, the length announced is the stream's. */
  lemma {:induction false} TotalSizeIs(segs: seq<SegmentInfo>, all: seq<byte>, from: nat)
    requires Covers(segs, all, from) && segs != []
    ensures TotalSize(segs) == |all|
    decreases |segs|
  {
    if |segs| > 1 {
      TotalSizeIs(segs[1..], all, segs[0].endOff);
    } else {
      assert segs[1..] == [];
    }
  }

  function ExitFrame(code: nat): Proto.Frame
    requires code < U32
  {
    Proto.Frame(Proto.EXIT, 0, BE32(code))
  }

  /** Writes one frame; whether the link takes it is the environment's choice. */
  method Send(conn: Proto.Conn, f: Proto.Frame) returns (ok: bool)
    requires conn.Valid() && f.offset < U64 && |f.payload| <= Proto.MAX_PAYLOAD
    modifies conn`outbox, conn`broken, conn`sent
    ensures conn.Valid() && conn.sent == if ok then old(conn.sent) + [f] else old(conn.sent)
    ensures !ok ==> conn.broken
  {
    var up: bool := *;
    var r := conn.WriteFrame(f, up);
    ok := r.Ok?;
  }

  /** Reads HELLO. */
  method Listen(conn: Proto.Conn) returns (h: Option<Hello>)
    requires conn.Valid()
    modifies conn`inbox
    ensures conn.Valid() && h == Heard(old(conn.inbox))
  {
    var f := conn.ReadFrame();
    if f.Err? || f.value.ftype != Proto.HELLO {
      return None;
    }
    var r := DecodeHello(f.value.payload);
    return if r.Ok? then Some(r.value) else None;
  }

  /** Announces the stream's size; fails for an over-long session id or a broken link. */
  method Greet(conn: Proto.Conn, sessionID: seq<byte>, total: nat) returns (ok: bool)
    requires conn.Valid() && total < U64
    modifies conn`outbox, conn`broken, conn`sent
    ensures conn.Valid() && (ok ==> |sessionID| <= 255)
    ensures conn.sent == if ok then old(conn.sent) + [AnswerFrame(sessionID, total)] else old(conn.sent)
    ensures !ok ==> |sessionID| > 255 || conn.broken
  {
    var r := Encode(Answer(sessionID, total));
    if r.Err? {
      return false;
    }
    HelloFitsFrame(Answer(sessionID, total));
    ok := Send(conn, Proto.Frame(Proto.HELLO_ACK, 0, r.value));
  }

  /** What was heard of the client that connected, if one did. */
  function ClientHello(accepted: bool, inbox: seq<byte>): Option<Hello> {
    if accepted then Heard(inbox) else None
  }

  /** The EXIT code: refused, failed, or replayed after one kind of shutdown or the other. */
  function ExitCode(clean: bool, diskcap: bool, finished: bool): (code: nat)
    ensures code < U32
    ensures code == 133 || code == 134 <==> clean && finished
    ensures code == 130 <==> !clean
    ensures code == 134 ==> diskcap
    ensures code == 133 ==> !diskcap
  {
    if !clean then EXIT_REFUSED
    else if !finished then EXIT_FAILED
    else if diskcap then EXIT_DISKCAP
    else EXIT_REPLAYED
  }

  /** The frames written to a connection end with an EXIT frame that says the replay is complete. */
  predicate ToldComplete(sent: seq<Proto.Frame>) {
    sent != [] &&
    var last := sent[|sent| - 1];
    last.ftype == 0x07 && (last.payload == BE32(133) || last.payload == BE32(134))
  }

  lemma ToldIff(before: seq<Proto.Frame>, ack: Proto.Frame, fs: seq<Proto.Frame>, code: nat, exited: bool)
    requires ack.ftype == Proto.HELLO_ACK && AllOutput(fs) && code < U32
    ensures ToldComplete(before + [ack] + fs + (if exited then [ExitFrame(code)] else [])) <==> exited && (code == 133 || code == 134)
  {
    BE32RoundTrip(code);
    BE32RoundTrip(133);
    BE32RoundTrip(134);
    hide BE32;
    var sent := before + [ack] + fs + (if exited then [ExitFrame(code)] else []);
    assert sent[|sent| - 1] == if exited then ExitFrame(code) else if fs == [] then ack else fs[|fs| - 1];
  }

  /** The frames after HELLO_ACK, and the EXIT code they call for. */
  method Deliver(conn: Proto.Conn, segs: seq<SegmentInfo>, clean: bool, diskcap: bool, from: nat)
    returns (code: nat, ghost ms: seq<Move>, ghost fs: seq<Proto.Frame>, ghost end: Replay)
    requires conn.Valid() && Listed(segs)
    modifies conn`outbox, conn`broken, conn`sent
    ensures conn.Valid() && conn.sent == old(conn.sent) + fs && code < U32
    ensures if clean then Moves(StartReplay(segs, from), ms, fs, end) else fs == []
    ensures code == ExitCode(clean, diskcap, Finished(end))
  {
    ms, fs, end := [], [], StartReplay(segs, from);
    if !clean {
      return EXIT_REFUSED, ms, fs, end;
    }
    hide Moves;
    code, ms, fs, end := StreamSegments(conn, segs, from);
    if code == REPLAY_OK {
      code := if diskcap then EXIT_DISKCAP else EXIT_REPLAYED;
    }
  }

  /**
   `ReplayRun` from the scan of the segment files on. `accepted` says whether a client connected in
   time. The session directory is removed exactly if no HELLO could be read, HELLO_ACK could not be
   written, or the shutdown was clean, every segment was sent and EXIT was written after them.
   */
  method ReplayRun(conn: Proto.Conn, accepted: bool, files: map<nat, seq<byte>>, clean: bool, diskcap: bool, sessionID: seq<byte>)
    returns (removed: bool, ghost e: ReplayEnd, ghost segs: seq<SegmentInfo>, ghost ms: seq<Move>, ghost fs: seq<Proto.Frame>)
    requires conn.Valid() && forall k :: k in files ==> k + |files[k]| < U64
    modifies conn
    ensures conn.Valid() && Sorted(segs) && Lists(segs, files)
    ensures removed <==> Removes(e, clean)
    ensures e.NoHello? <==> ClientHello(accepted, old(conn.inbox)).None?
    ensures !e.Greeted? ==> conn.sent == old(conn.sent)
    ensures e.NotGreeted? ==> |sessionID| > 255 || conn.broken
    ensures e.Greeted? ==>
              var from := ClientHello(accepted, old(conn.inbox)).value.output.total;
              var total := if clean then TotalSize(segs) else from;
              && |sessionID| <= 255 && total < U64
              && (if clean then Moves(StartReplay(segs, from), ms, fs, e.end) else fs == [])
              && conn.sent == old(conn.sent) + [AnswerFrame(sessionID, total)] + fs
                              + (if e.exitWritten then [ExitFrame(ExitCode(clean, diskcap, Finished(e.end)))] else [])
              && (!e.exitWritten ==> conn.broken && !removed)
    ensures conn.sent != old(conn.sent) ==> (removed <==> clean && ToldComplete(conn.sent))
    ensures conn.sent != old(conn.sent) && removed ==>
              var from := ClientHello(accepted, old(conn.inbox)).value.output.total;
              forall g :: g in segs && g.data != [] ==> g.endOff <= Reached(fs, from)
  {
    var listing := ScanSegments(files);
    segs, ms, fs, e := listing, [], [], NoHello;
    if !accepted {
      return true, e, segs, ms, fs;
    }
    var hello := Listen(conn);
    if hello.None? {
      return true, e, segs, ms, fs;
    }
    e := NotGreeted;
    var from := hello.value.output.total;
    ListedFiles(listing, files);
    HeardTotal(old(conn.inbox));
    hide Moves;
    var greeted := Greet(conn, sessionID, if clean then TotalSize(listing) else from);
    if !greeted {
      return true, e, segs, ms, fs;
    }
    var code: nat;
    ghost var end;
    code, ms, fs, end := Deliver(conn, listing, clean, diskcap, from);
    var exited := Send(conn, ExitFrame(code));
    e := Greeted(end, exited);
    removed := clean && (code == EXIT_REPLAYED || code == EXIT_DISKCAP) && exited;
    MovesSendOutput(StartReplay(listing, from), ms, fs, end, clean);
    ToldIff(old(conn.sent), AnswerFrame(sessionID, if clean then TotalSize(listing) else from), fs, code, exited);
    if removed {
      ReplayReaches(listing, from, ms, fs, end);
    }
  }

  ghost predicate AllOutput(fs: seq<Proto.Frame>) {
    forall i :: 0 <= i < |fs| ==> fs[i].ftype == Proto.OUTPUT
  }

  lemma OutputParts(fs: seq<Proto.Frame>, k: nat)
    requires k <= |fs| && AllOutput(fs[..k]) && AllOutput(fs[k..])
    ensures AllOutput(fs)
  {
    assert fs == fs[..k] + fs[k..];
  }

  lemma SentOutput(r: Replay, m: Move)
    requires CanMove(r, m)
    ensures AllOutput(SentFrames(r, m))
  {
  }

  lemma {:induction false} MovesSendOutput(r: Replay, ms: seq<Move>, fs: seq<Proto.Frame>, r': Replay, moved: bool)
    requires if moved then Moves(r, ms, fs, r') else fs == []
    ensures AllOutput(fs)
    decreases |ms|
  {
    if moved && ms != [] {
      var k := |SentFrames(r, ms[0])|;
      hide CanMove, Moved, SentFrames, AllOutput;
      SentOutput(r, ms[0]);
      MovesSendOutput(Moved(r, ms[0]), ms[1..], fs[k..], r', true);
      OutputParts(fs, k);
    }
  }

  lemma ListedFiles(segs: seq<SegmentInfo>, files: map<nat, seq<byte>>)
    requires Lists(segs, files) && forall k :: k in files ==> k + |files[k]| < U64
    ensures Listed(segs) && TotalSize(segs) < U64
  {
    forall g | g in segs
      ensures g.endOff == g.startOff + |g.data| && g.endOff < U64
    {
      assert IsEntry(g, files);
    }
  }

  lemma HeardTotal(inbox: seq<byte>)
    requires Heard(inbox).Some?
    ensures Heard(inbox).value.output.total < U64
  {
  }

  // ----- Removed, but not read -----

  /** How far a reader gets that has everything below `from`. */
  function Reached(fs: seq<Proto.Frame>, from: nat): nat {
    if fs == [] then from
    else Reached(fs[1..], if fs[0].ftype == Proto.OUTPUT then fs[0].offset + |fs[0].payload| else from)
  }

  lemma {:induction false} ReachedConcat(fs: seq<Proto.Frame>, gs: seq<Proto.Frame>, from: nat)
    ensures Reached(fs + gs, from) == Reached(gs, Reached(fs, from))
    decreases |fs|
  {
    if fs == [] {
      assert fs + gs == gs;
    } else {
      assert (fs + gs)[1..] == fs[1..] + gs;
      ReachedConcat(fs[1..], gs, if fs[0].ftype == Proto.OUTPUT then fs[0].offset + |fs[0].payload| else from);
    }
  }

  /** A reader that has got as far as the cursor, or a gap in the listing away from it. */
  ghost predicate Abreast(r: Replay, at: nat) {
    && at <= r.cursor && (at == r.cursor || r.cursor == r.file.startOff)
    && Sorted(r.rest) && (at < r.cursor ==> forall g :: g in r.rest ==> r.cursor < g.startOff)
  }

  function Step(fs: seq<Proto.Frame>, from: nat): nat {
    if fs != [] && fs[0].ftype == Proto.OUTPUT then fs[0].offset + |fs[0].payload| else from
  }

  lemma AbreastMoves(r: Replay, m: Move, at: nat)
    requires Abreast(r, at) && CanMove(r, m) && Listed(r.rest)
    ensures Abreast(Moved(r, m), Step(SentFrames(r, m), at)) && Listed(Moved(r, m).rest)
    ensures at <= Step(SentFrames(r, m), at)
    ensures m.Skip? && r.rest[0].data != [] ==> r.rest[0].endOff <= at
    ensures m.Open? && r.file.startOff < r.file.endOff ==> r.file.endOff <= at
  {
    if !m.Send? {
      ListedTail(r.rest);
      assert r.rest[0] in r.rest;
      assert forall g :: g in r.rest[1..] ==> exists i :: 0 < i < |r.rest| && r.rest[i] == g;
    }
  }

  /** A replay that has come to its end has taken its reader past every segment that holds anything. */
  lemma {:induction false} MovesReach(r: Replay, ms: seq<Move>, fs: seq<Proto.Frame>, r': Replay, at: nat)
    requires Moves(r, ms, fs, r') && Finished(r') && Abreast(r, at) && Listed(r.rest)
    ensures at <= Reached(fs, at)
    ensures r.file.startOff < r.file.endOff ==> r.file.endOff <= Reached(fs, at)
    ensures forall g :: g in r.rest && g.data != [] ==> g.endOff <= Reached(fs, at)
    decreases |ms|
  {
    if ms != [] {
      var m, k := ms[0], |SentFrames(r, ms[0])|;
      AbreastMoves(r, m, at);
      MovesReach(Moved(r, m), ms[1..], fs[k..], r', Step(SentFrames(r, m), at));
      hide Moves, Abreast;
      SentFirst(SentFrames(r, m), fs, at);
      if !m.Send? {
        ListedTail(r.rest);
        assert forall g :: g in r.rest ==> g == r.rest[0] || g in r.rest[1..];
      }
    }
  }

  lemma SentFirst(xs: seq<Proto.Frame>, fs: seq<Proto.Frame>, at: nat)
    requires |xs| <= 1 && |xs| <= |fs| && xs == fs[..|xs|]
    ensures Reached(fs, at) == Reached(fs[|xs|..], Step(xs, at))
  {
    if xs == [] {
      assert fs[0..] == fs;
    } else {
      assert fs[0] == xs[0];
    }
  }

  lemma ReplayReaches(segs: seq<SegmentInfo>, from: nat, ms: seq<Move>, fs: seq<Proto.Frame>, end: Replay)
    requires Sorted(segs) && Listed(segs) && Moves(StartReplay(segs, from), ms, fs, end) && Finished(end)
    ensures forall g :: g in segs && g.data != [] ==> g.endOff <= Reached(fs, from)
  {
    MovesReach(StartReplay(segs, from), ms, fs, end, from);
  }

  /** OUTPUT frames, none of them empty, each where the one before it ended. */
  ghost predicate Chained(fs: seq<Proto.Frame>, from: nat, end: nat)
    decreases |fs|
  {
    if fs == [] then from == end
    else
      && fs[0].ftype == Proto.OUTPUT && fs[0].offset == from && 0 < |fs[0].payload|
      && Chained(fs[1..], from + |fs[0].payload|, end)
  }

  lemma {:induction false} ChainedReach(fs: seq<Proto.Frame>, from: nat, end: nat, j: nat)
    requires Chained(fs, from, end) && j <= |fs|
    ensures from <= Reached(fs[..j], from) <= end
    ensures Reached(fs[..j], from) == end <==> j == |fs|
    decreases |fs|
  {
    if j == 0 {
      if fs != [] {
        ChainedReach(fs[1..], from + |fs[0].payload|, end, 0);
      }
    } else {
      assert fs[..j][1..] == fs[1..][..j - 1];
      ChainedReach(fs[1..], from + |fs[0].payload|, end, j - 1);
    }
  }

  /** A replay's frames take its reader from the cursor to where it ended. */
  lemma {:induction false} MovesChained(r: Replay, ms: seq<Move>, fs: seq<Proto.Frame>, r': Replay, all: seq<byte>)
    requires Moves(r, ms, fs, r') && ReplayOk(r, all)
    ensures ReplayOk(r', all) && Chained(fs, r.cursor, r'.cursor)
    decreases |ms|
  {
    if ms != [] {
      var k := |SentFrames(r, ms[0])|;
      hide ReplayOk, CanMove, Moved, SentFrames, Chained;
      ReplayMoveOk(r, all, ms[0]);
      MoveSends(r, ms[0]);
      MovesChained(Moved(r, ms[0]), ms[1..], fs[k..], r', all);
      hide Moves;
      ChainCons(SentFrames(r, ms[0]), fs, r.cursor, Moved(r, ms[0]).cursor, r'.cursor);
    }
  }

  lemma MoveSends(r: Replay, m: Move)
    requires CanMove(r, m) && Moved(r, m).cursor == r.cursor + (if m.Send? then m.n else 0)
    ensures Chained(SentFrames(r, m), r.cursor, Moved(r, m).cursor) && |SentFrames(r, m)| <= 1
  {
    if m.Send? {
      assert SentFrames(r, m)[1..] == [];
    }
  }

  lemma ChainCons(xs: seq<Proto.Frame>, fs: seq<Proto.Frame>, from: nat, next: nat, end: nat)
    requires |xs| <= 1 && |xs| <= |fs| && xs == fs[..|xs|] && Chained(xs, from, next) && Chained(fs[|xs|..], next, end)
    ensures Chained(fs, from, end)
  {
    if xs == [] {
      assert fs[0..] == fs;
    } else {
      assert fs[0] == xs[0] && xs[1..] == [];
    }
  }

  /**
   What the reader of a replay that went through to EXIT has when the connection breaks after `k` bytes:
   everything, exactly if the cut is not before the end of the last OUTPUT frame. In all other cases the
   directory is removed all the same, with the reader short of the end.
   */
  lemma RemovedUnreadIff(segs: seq<SegmentInfo>, all: seq<byte>, from: nat, ms: seq<Move>, fs: seq<Proto.Frame>, end: Replay,
                         ack: Proto.Frame, exit: Proto.Frame, k: nat)
    requires Holds(segs, all, from) && from <= |all| && Moves(StartReplay(segs, from), ms, fs, end) && Removes(Greeted(end, true), true)
    requires ack.ftype == Proto.HELLO_ACK && exit.ftype == Proto.EXIT && Proto.AllSendable([ack] + fs + [exit])
    requires k <= |Proto.EncodeAll([ack] + fs + [exit])|
    ensures Proto.AllSendable([ack] + fs)
    ensures var got := Proto.ParseAll(Proto.EncodeAll([ack] + fs + [exit])[..k]);
            && Reached(got, from) <= |all|
            && (Reached(got, from) == |all| <==> fs == [] || |Proto.EncodeAll([ack] + fs)| <= k)
  {
    var sent := [ack] + fs + [exit];
    var n := Proto.WholeFrames(sent, k);
    Proto.CutAnywhere(sent, k);
    Proto.WholeFramesMaximal(sent, k);
    assert Proto.AllSendable([ack] + fs) by {
      assert forall f :: f in [ack] + fs ==> f in sent;
    }
    ReachedPrefix(segs, all, from, ms, fs, end, ack, exit, n);
    PrefixFits(sent, n, |fs| + 1, k);
    assert sent[..|fs| + 1] == [ack] + fs;
  }

  /** A frame more is a longer encoding, so a number of frames fits exactly if it is not too large. */
  lemma PrefixFits(sent: seq<Proto.Frame>, n: nat, m: nat, k: nat)
    requires Proto.AllSendable(sent) && n <= |sent| && m <= |sent|
    requires |Proto.EncodeAll(sent[..n])| <= k && (n < |sent| ==> k < |Proto.EncodeAll(sent[..n + 1])|)
    ensures |Proto.EncodeAll(sent[..m])| <= k <==> m <= n
  {
    if m <= n {
      EncodePrefix(sent, m, n);
    } else {
      EncodePrefix(sent, n + 1, m);
    }
  }

  lemma {:induction false} EncodePrefix(sent: seq<Proto.Frame>, m: nat, n: nat)
    requires Proto.AllSendable(sent) && m <= n <= |sent|
    ensures |Proto.EncodeAll(sent[..m])| <= |Proto.EncodeAll(sent[..n])|
    decreases |sent|
  {
    if m > 0 {
      assert sent[..m][1..] == sent[1..][..m - 1] && sent[..n][1..] == sent[1..][..n - 1];
      EncodePrefix(sent[1..], m - 1, n - 1);
    }
  }

  lemma ReachedPrefix(segs: seq<SegmentInfo>, all: seq<byte>, from: nat, ms: seq<Move>, fs: seq<Proto.Frame>, end: Replay,
                      ack: Proto.Frame, exit: Proto.Frame, n: nat)
    requires Holds(segs, all, from) && from <= |all| && Moves(StartReplay(segs, from), ms, fs, end) && Finished(end)
    requires ack.ftype == Proto.HELLO_ACK && exit.ftype == Proto.EXIT && n <= |fs| + 2
    ensures Reached(([ack] + fs + [exit])[..n], from) <= |all|
    ensures Reached(([ack] + fs + [exit])[..n], from) == |all| <==> fs == [] || |fs| + 1 <= n
  {
    var sent, j := [ack] + fs + [exit], Max(0, Min(n - 1, |fs|));
    MovesChained(StartReplay(segs, from), ms, fs, end, all);
    ReplayAtEnd(end, all);
    ChainedReach(fs, from, |all|, j);
    ChainedReach(fs, from, |all|, |fs|);
    assert fs[..|fs|] == fs;
    hide Moves, ReplayOk, Holds, Finished;
    if n == 0 {
      assert sent[..0] == [];
      assert fs == [] ==> fs[..0] == fs;
      assert fs[..0] == [];
    } else if n <= |fs| + 1 {
      assert sent[..n] == [ack] + fs[..j];
      ReachedConcat([ack], fs[..j], from);
      assert [ack][1..] == [];
    } else {
      assert sent[..n] == [ack] + fs + [exit];
      ReachedConcat([ack] + fs, [exit], from);
      ReachedConcat([ack], fs, from);
      assert [ack][1..] == [] && [exit][1..] == [];
    }
  }
}
