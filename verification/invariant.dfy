/** The invariant of the delivery protocol, and that every step keeps it. */
module Invariant {
  import opened Bytes
  import opened History
  import opened AltScreen
  import opened Chunks
  import opened Clients
  import opened SegmentFiles
  import opened Delivery
  import Hellos
  import Streaming

  /** How much of the stream the client has. */
  function Len(s: Sys): nat {
    |s.client.buf.stream|
  }

  /** The terminal's output is the stream received so far, with the insertions the client made. */
  ghost predicate TermOk(k: Client) {
    && k.term == WithResyncs(k.buf.stream, k.resyncs)
    && (k.resyncs != [] ==> k.resyncs[|k.resyncs| - 1] <= |k.buf.stream|)
  }

  /** What the client has received is a prefix of what was produced; its counters agree with it. */
  ghost predicate ClientOk(p: Params, s: Sys) {
    && |Produced(s.host)| < U64
    && s.client.buf.stream <= Produced(s.host)
    && WellFormed(p.cc, s.client.buf) && s.client.buf.first == 0
    && s.client.acked <= Len(s)
    && s.client.scan == ScanFrom(Fresh, s.client.buf.stream).0
    && TermOk(s.client)
  }

  /** Where preserved segments start. */
  function KeptFrom(segs: seq<SegmentInfo>, all: seq<byte>): nat {
    if segs == [] then |all| else segs[0].startOff
  }

  /** These segments hold everything from `from` on. */
  ghost predicate Holds(segs: seq<SegmentInfo>, all: seq<byte>, from: nat) {
    Covers(segs, all, KeptFrom(segs, all)) && KeptFrom(segs, all) <= from
  }

  /** The remote end never gives up a byte the client lacks, as long as it keeps any. */
  ghost predicate HostOk(p: Params, s: Sys) {
    match s.host
    case Live(buf, sealed, scan, alt, _, exit) =>
      && WellFormed(p.dc, buf) && buf.trim <= Len(s)
      && scan == ScanFrom(Fresh, buf.stream).0 && alt == InAlt(buf.stream)
      && (exit ==> sealed)
    case Kept(all, segs) => Holds(segs, all, Len(s))
    case Gone(_) => true
  }

  ghost predicate AcksWithin(acks: seq<nat>, top: nat) {
    forall i :: 0 <= i < |acks| ==> acks[i] <= top
  }

  /** Messages in flight: consecutive pieces of the stream from `at` to `end`, then EXIT if `fin`. */
  ghost predicate Flow(q: seq<Msg>, all: seq<byte>, at: nat, end: nat, fin: bool)
    decreases |q|
  {
    if q == [] then at == end && !fin
    else
      match q[0]
      case HelloAck(_, _) => false
      case Output(off, x) =>
        && off == at && 0 < |x| && at + |x| <= |all| && x == all[at..at + |x|]
        && Flow(q[1..], all, at + |x|, end, fin)
      case Exit => q[1..] == [] && at == end && fin
  }

  predicate Handshaking(g: Stage) {
    g.Hello? || g.GotTotal? || g.GotFirst? || g.GotHashes? || g.ReplayHello?
  }

  function Cursor(g: Stage): nat
    requires !Handshaking(g)
  {
    match g
    case Sending(c, _) => c
    case Replaying(r) => r.cursor
    case Finished(c, _) => c
    case Closed(c) => c
  }

  /** The client's manifest, as the remote side received it: its true length, and no digest past it. */
  ghost predicate PeerOk(p: Params, s: Sys, peer: Manifest) {
    peer.total == Len(s) && (peer.first + |peer.hashes|) * p.dc.chunkSize <= Len(s)
  }

  /** HELLO_ACK comes first; its alt-screen flag is that of a position which, if set, the client is not past. */
  ghost predicate GreetingOk(s: Sys, m: Msg) {
    && m.HelloAck? && m.at <= |Produced(s.host)| && m.alt == InAlt(Produced(s.host)[..m.at])
    && (m.alt ==> Len(s) <= m.at)
  }

  /** A replay's open file is a true piece of the stream, and what comes after it is still listed. */
  ghost predicate ReplayOk(r: Streaming.Replay, all: seq<byte>) {
    && r.cursor <= |all| && r.file.endOff <= |all|
    && (r.cursor < r.file.endOff ==> r.file.startOff <= r.cursor && r.file.data == all[r.file.startOff..r.file.endOff])
    && Holds(r.rest, all, Max(r.cursor, r.file.endOff))
  }

  ghost predicate StageOk(s: Sys, g: Stage) {
    match g
    case Sending(c, e) => s.host.Live? && !e.Failed? && (e.Drained? ==> s.host.sealed && c == |Produced(s.host)|)
    case ReplayHello(peer, segs) => !s.host.Live? && Holds(segs, Produced(s.host), peer.total)
    case Replaying(r) => !s.host.Live? && ReplayOk(r, Produced(s.host))
    case Finished(c, e) =>
      && !e.Open? && (e.Drained? ==> c == |Produced(s.host)|)
      && (s.host.Live? ==> s.host.exit && !e.Failed?) && (s.host.Kept? ==> !e.Starved?)
    case Closed(_) => true
    case _ => s.host.Live?
  }

  /** The stretch of the queue after HELLO_ACK. */
  function Frames(l: Link): seq<Msg>
    requires l.Up? && (l.attached || l.down != [])
  {
    if l.attached then l.down else l.down[1..]
  }

  ghost predicate HandshakeOk(p: Params, s: Sys) {
    s.link.Up? && Handshaking(s.link.stage) ==>
      PeerOk(p, s, s.link.stage.peer) && s.link.down == [] && s.link.up == [] && !s.link.attached
  }

  /** EXIT is still on its way. */
  predicate ExitPending(s: Sys)
    requires s.link.Up?
  {
    s.link.stage.Finished? && !s.fate.Exited?
  }

  /** The downstream queue continues exactly where the client's frames ended, up to the cursor. */
  ghost predicate QueueOk(s: Sys) {
    s.link.Up? && !Handshaking(s.link.stage) ==>
      && s.link.pos <= Len(s) && Cursor(s.link.stage) <= |Produced(s.host)|
      && (s.link.stage.Replaying? ==> Len(s) <= Cursor(s.link.stage))
      && (s.link.attached || (s.link.down != [] && GreetingOk(s, s.link.down[0])))
      && Flow(Frames(s.link), Produced(s.host), s.link.pos, Cursor(s.link.stage), ExitPending(s))
  }

  /** Acknowledgements in flight stay at or below both the cursor and the client's length. */
  ghost predicate UpOk(s: Sys) {
    s.link.Up? && !Handshaking(s.link.stage) ==>
      && AcksWithin(s.link.up, Min(Cursor(s.link.stage), Len(s)))
      && (if s.link.attached
          then (Len(s) <= Cursor(s.link.stage) || s.client.acked == Len(s)) && Len(s) - s.client.acked < ACK_INTERVAL
          else s.link.up == [])
  }

  ghost predicate LinkOk(p: Params, s: Sys) {
    && (s.link.Up? ==> StageOk(s, s.link.stage))
    && HandshakeOk(p, s) && QueueOk(s) && UpOk(s)
  }

  /** Once EXIT has arrived the connection is drained; a client that gave up has none. */
  ghost predicate FateOk(s: Sys) {
    match s.fate
    case Running => true
    case Exited => s.link.Up? && s.link.stage.Finished? && s.link.attached && s.link.down == []
    case GaveUp => s.link.Down?
  }

  /** The client's alt-screen flag is that of its own output, unless a resync put it ahead of it. */
  ghost predicate AltOk(s: Sys) {
    FlagOk(Produced(s.host), s.client.buf.stream, s.client.inAlt, s.sync)
  }

  /** What a process left behind knows is true: attaches belong to a live daemon, replays to kept files. */
  ghost predicate StrayOk(g: Stray, live: bool, all: seq<byte>) {
    match g
    case StrayAttach => live
    case StrayUnheard => !live
    case StrayHearing(peer, segs) => !live && peer.total <= |all| && Holds(segs, all, peer.total)
    case StraySending(r) => !live && ReplayOk(r, all)
    case StraySent(r) => !live && ReplayOk(r, all) && Streaming.Finished(r)
  }

  ghost predicate Strayed(strays: seq<Stray>, live: bool, all: seq<byte>) {
    forall i :: 0 <= i < |strays| ==> StrayOk(strays[i], live, all)
  }

  /** An acknowledgement that is still to be read has an attach to read it. */
  ghost predicate StraysOk(s: Sys) {
    && AcksWithin(s.late, Len(s)) && (s.late != [] ==> s.strays != [] && s.host.Live?)
    && Strayed(s.strays, s.host.Live?, Produced(s.host))
  }

  ghost predicate Inv(p: Params, s: Sys) {
    && p.Ok()
    && ClientOk(p, s) && HostOk(p, s) && LinkOk(p, s) && FateOk(s) && AltOk(s) && StraysOk(s)
  }

  lemma StartOk(p: Params)
    requires p.Ok()
    ensures Inv(p, Start)
  {
    assert ScanFrom(Fresh, []) == (Fresh, Quiet);
  }

  // ----- Queues -----

  lemma {:induction false} FlowOutput(q: seq<Msg>, all: seq<byte>, at: nat, end: nat, x: seq<byte>)
    requires Flow(q, all, at, end, false) && 0 < |x| && end + |x| <= |all| && x == all[end..end + |x|]
    ensures Flow(q + [Output(end, x)], all, at, end + |x|, false)
    decreases |q|
  {
    if q == [] {
      assert [Output(end, x)][1..] == [];
    } else {
      FlowOutput(q[1..], all, at + |q[0].payload|, end, x);
      assert (q + [Output(end, x)])[1..] == q[1..] + [Output(end, x)] && (q + [Output(end, x)])[0] == q[0];
    }
  }

  lemma {:induction false} FlowExit(q: seq<Msg>, all: seq<byte>, at: nat, end: nat)
    requires Flow(q, all, at, end, false)
    ensures Flow(q + [Exit], all, at, end, true)
    decreases |q|
  {
    if q == [] {
      assert [Exit][1..] == [];
    } else {
      FlowExit(q[1..], all, at + |q[0].payload|, end);
      assert (q + [Exit])[1..] == q[1..] + [Exit];
    }
  }

  lemma {:induction false} FlowGrows(q: seq<Msg>, all: seq<byte>, x: seq<byte>, at: nat, end: nat, fin: bool)
    requires Flow(q, all, at, end, fin)
    ensures Flow(q, all + x, at, end, fin)
    decreases |q|
  {
    if q != [] && q[0].Output? {
      FlowGrows(q[1..], all, x, at + |q[0].payload|, end, fin);
    }
  }

  lemma {:induction false} FlowForward(q: seq<Msg>, all: seq<byte>, at: nat, end: nat, fin: bool)
    requires Flow(q, all, at, end, fin)
    ensures at <= end
    decreases |q|
  {
    if q != [] && q[0].Output? {
      FlowForward(q[1..], all, at + |q[0].payload|, end, fin);
    }
  }

  // ----- Steps of the daemon -----

  lemma PumpKeepsHost(p: Params, s: Sys, x: seq<byte>)
    requires Inv(p, s) && Enabled(p, s, Pump(x))
    ensures var s' := Apply(p, s, Pump(x)); ClientOk(p, s') && HostOk(p, s') && AltOk(s')
  {
    var all := s.host.buf.stream;
    AppendedWellFormed(p.dc, s.host.buf, x);
    InAltAfter(all, x);
    if s.sync <= |all| {
      assert (all + x)[..s.sync] == all[..s.sync];
    }
  }

  lemma PumpKeepsLink(p: Params, s: Sys, x: seq<byte>)
    requires Inv(p, s) && Enabled(p, s, Pump(x))
    ensures LinkOk(p, Apply(p, s, Pump(x)))
  {
    hide InAlt, ScanFrom, WithResyncs, Covers;
    var all := s.host.buf.stream;
    if s.link.Up? && !Handshaking(s.link.stage) {
      FlowGrows(Frames(s.link), all, x, s.link.pos, Cursor(s.link.stage), ExitPending(s));
      if !s.link.attached {
        assert (all + x)[..s.link.down[0].at] == all[..s.link.down[0].at];
      }
    }
  }

  lemma PumpKeeps(p: Params, s: Sys, x: seq<byte>)
    requires Inv(p, s) && Enabled(p, s, Pump(x))
    ensures Inv(p, Apply(p, s, Pump(x)))
  {
    PumpKeepsHost(p, s, x);
    PumpKeepsLink(p, s, x);
    AttachesStay(s.strays, s.host.buf.stream, s.host.buf.stream + x);
  }

  /** Attaches left behind do not care how long the stream is. */
  lemma AttachesStay(strays: seq<Stray>, all: seq<byte>, all': seq<byte>)
    requires Strayed(strays, true, all)
    ensures Strayed(strays, true, all')
  {
  }

  /** Nor does anything left behind care about one more, or one fewer. */
  lemma StrayedMore(strays: seq<Stray>, more: seq<Stray>, live: bool, all: seq<byte>)
    requires Strayed(strays, live, all) && Strayed(more, live, all)
    ensures Strayed(strays + more, live, all)
  {
  }

  lemma StrayedLess(strays: seq<Stray>, i: nat, live: bool, all: seq<byte>)
    requires Strayed(strays, live, all) && i < |strays|
    ensures Strayed(Without(strays, i), live, all) && |Without(strays, i)| == |strays| - 1
  {
  }

  lemma StrayedUpdate(strays: seq<Stray>, i: nat, g: Stray, live: bool, all: seq<byte>)
    requires Strayed(strays, live, all) && i < |strays| && StrayOk(g, live, all)
    ensures Strayed(strays[i := g], live, all)
  {
  }

  lemma HandshakeKeeps(p: Params, s: Sys, t: Step)
    requires Inv(p, s) && Enabled(p, s, t) && (t.ReadTotal? || t.ReadFirst? || t.ReadHashes?)
    ensures Inv(p, Apply(p, s, t))
  {
  }

  lemma ConnectKeeps(p: Params, s: Sys)
    requires Inv(p, s) && Enabled(p, s, Connect)
    ensures Inv(p, Apply(p, s, Connect))
  {
    hide ScanFrom, InAlt, TermOk, Covers, Flow, HashesFrom, Hellos.Fits, WellFormed, FlagOk, Strayed;
    assert WellFormed(p.cc, s.client.buf);
    ManifestWithinStream(p.cc, s.client.buf);
    StrayedOne(StrayAttach, true, Produced(s.host));
    StrayedOne(StrayUnheard, false, Produced(s.host));
    StrayedMore(s.strays, if s.host.Live? then [StrayAttach] else [StrayUnheard], s.host.Live?, Produced(s.host));
  }

  lemma StrayedOne(g: Stray, live: bool, all: seq<byte>)
    requires StrayOk(g, live, all)
    ensures Strayed([g], live, all)
  {
  }

  lemma AcceptKeeps(p: Params, s: Sys)
    requires Inv(p, s) && Enabled(p, s, Accept)
    ensures Inv(p, Apply(p, s, Accept))
  {
    hide Resend, InAlt, ScanFrom, WithResyncs;
    var g := s.link.stage;
    ResendWithinPeer(g.own, g.peer, p.dc.chunkSize);
    var all := s.host.buf.stream;
    assert all[..|all|] == all;
    var m := HelloAck(s.host.alt, |all|);
    assert (s.link.down + [m])[1..] == [];
  }

  /** Queueing one more piece of the stream. */
  lemma PushOutput(s: Sys, g: Stage, n: nat)
    requires s.link.Up? && !Handshaking(s.link.stage) && !s.link.stage.Finished? && QueueOk(s) && UpOk(s)
    requires 0 < n && Cursor(s.link.stage) + n <= |Produced(s.host)|
    requires !Handshaking(g) && !g.Finished? && Cursor(g) == Cursor(s.link.stage) + n
    requires g.Replaying? ==> s.link.stage.Replaying?
    ensures var c := Cursor(s.link.stage);
            var s' := s.(link := Push(s.link, g, [Output(c, Produced(s.host)[c..c + n])]));
            QueueOk(s') && UpOk(s')
  {
    var all, c := Produced(s.host), Cursor(s.link.stage);
    var m := Output(c, all[c..c + n]);
    var s' := s.(link := Push(s.link, g, [m]));
    assert UpOk(s') by {
      hide QueueOk;
    }
    hide UpOk, InAlt;
    FlowOutput(Frames(s.link), all, s.link.pos, c, all[c..c + n]);
    hide Flow;
    FramesPush(s.link, g, m);
    assert !s.link.attached ==> s.link.down[0] == s'.link.down[0] && (GreetingOk(s', s.link.down[0]) <==> GreetingOk(s, s.link.down[0]));
  }

  lemma FramesPush(l: Link, g: Stage, m: Msg)
    requires l.Up? && (l.attached || l.down != [])
    ensures Frames(Push(l, g, [m])) == Frames(l) + [m]
    ensures l.down != [] ==> Push(l, g, [m]).down[0] == l.down[0]
  {
  }

  /** Queueing it keeps the whole invariant, live or in replay. */
  lemma PushKeeps(p: Params, s: Sys, g: Stage, n: nat, m: Msg)
    requires Inv(p, s) && s.link.Up? && (s.link.stage.Sending? || s.link.stage.Replaying?)
    requires 0 < n && Cursor(s.link.stage) + n <= |Produced(s.host)|
    requires !Handshaking(g) && !g.Finished? && Cursor(g) == Cursor(s.link.stage) + n
    requires g.Replaying? ==> s.link.stage.Replaying?
    requires StageOk(s, g)
    requires var c := Cursor(s.link.stage); m == Output(c, Produced(s.host)[c..c + n])
    ensures Inv(p, s.(link := Push(s.link, g, [m])))
  {
    hide QueueOk, UpOk, ScanFrom, TermOk, InAlt, Covers, FlagOk, WellFormed, ReplayOk;
    PushOutput(s, g, n);
    assert StageOk(s.(link := Push(s.link, g, [m])), g);
  }

  /** The system with the streamer's next piece queued. */
  function Streamed(s: Sys): Sys
    requires CanStream(s) && s.link.stage.cursor < |s.host.buf.stream|
  {
    var c, x := s.link.stage.cursor, Streaming.Piece(s.host.buf.stream, s.link.stage.cursor);
    s.(link := Push(s.link, Sending(c + |x|, Open), [Output(c, x)]))
  }

  lemma SendFrameKeeps(p: Params, s: Sys)
    requires Inv(p, s) && Enabled(p, s, SendFrame)
    ensures Inv(p, Apply(p, s, SendFrame))
  {
    assert Apply(p, s, SendFrame) == Streamed(s);
    hide *;
    StreamedKeeps(p, s);
  }

  lemma StreamedKeeps(p: Params, s: Sys)
    requires Inv(p, s) && CanStream(s) && s.link.stage.cursor < |s.host.buf.stream|
    ensures Inv(p, Streamed(s))
  {
    hide *;
    StreamedIs(s);
    var c, x := s.link.stage.cursor, Streaming.Piece(s.host.buf.stream, s.link.stage.cursor);
    PushKeeps(p, s, Sending(c + |x|, Open), |x|, Output(c, x));
  }

  lemma StreamedIs(s: Sys)
    requires CanStream(s) && s.link.stage.cursor < |s.host.buf.stream|
    ensures s.link.Up? && s.link.stage.Sending?
    ensures var c, x := s.link.stage.cursor, Streaming.Piece(s.host.buf.stream, s.link.stage.cursor);
            var g := Sending(c + |x|, Open);
            && Streamed(s) == s.(link := Push(s.link, g, [Output(c, x)]))
            && StageOk(s, g) && !Handshaking(g) && Cursor(g) == c + |x|
            && !Handshaking(s.link.stage) && Cursor(s.link.stage) == c
            && 0 < |x| && c + |x| <= |Produced(s.host)| && Produced(s.host)[c..c + |x|] == x
  {
  }

  /** Steps that set a flag of the daemon. */
  lemma FlagKeeps(p: Params, s: Sys, t: Step)
    requires Inv(p, s) && Enabled(p, s, t) && (t.Seal? || t.CloseListener? || t.StrayExit?)
    ensures Inv(p, Apply(p, s, t))
  {
    hide ScanFrom, InAlt, TermOk, Covers, Flow, WellFormed, FlagOk, Strayed;
  }

  // ----- Steps of processes left behind -----

  /** They touch neither client nor link. */
  lemma StraysKeep(p: Params, s: Sys, late: seq<nat>, strays: seq<Stray>)
    requires Inv(p, s) && AcksWithin(late, Len(s)) && (late != [] ==> strays != [] && s.host.Live?)
    requires Strayed(strays, s.host.Live?, Produced(s.host))
    ensures Inv(p, s.(late := late, strays := strays))
  {
    hide ScanFrom, InAlt, TermOk, Covers, WellFormed, FlagOk, QueueOk, UpOk, Strayed;
    SameLink(s, s.(late := late, strays := strays));
  }

  lemma StrayEndsKeeps(p: Params, s: Sys, i: nat)
    requires Inv(p, s) && Enabled(p, s, StrayEnds(i))
    ensures Inv(p, Apply(p, s, StrayEnds(i)))
  {
    StrayedLess(s.strays, i, s.host.Live?, Produced(s.host));
    StraysKeep(p, s, if |s.strays| == 1 then [] else s.late, Without(s.strays, i));
  }

  lemma StrayGreetsKeeps(p: Params, s: Sys, i: nat)
    requires Inv(p, s) && Enabled(p, s, StrayGreets(i))
    ensures Inv(p, Apply(p, s, StrayGreets(i)))
  {
    var g := s.strays[i];
    assert StrayOk(g, s.host.Live?, Produced(s.host));
    StrayedUpdate(s.strays, i, StraySending(Streaming.StartReplay(g.segs, g.peer.total)), s.host.Live?, Produced(s.host));
    StraysKeep(p, s, s.late, s.strays[i := StraySending(Streaming.StartReplay(g.segs, g.peer.total))]);
  }

  lemma StrayMovesKeeps(p: Params, s: Sys, i: nat, m: Streaming.Move)
    requires Inv(p, s) && Enabled(p, s, StrayMoves(i, m))
    ensures Inv(p, Apply(p, s, StrayMoves(i, m)))
  {
    assert StrayOk(s.strays[i], s.host.Live?, Produced(s.host));
    ReplayMoveOk(s.strays[i].replay, Produced(s.host), m);
    StrayedUpdate(s.strays, i, StraySending(Streaming.Moved(s.strays[i].replay, m)), s.host.Live?, Produced(s.host));
    StraysKeep(p, s, s.late, s.strays[i := StraySending(Streaming.Moved(s.strays[i].replay, m))]);
  }

  lemma StrayReplayEndsKeeps(p: Params, s: Sys, t: Step)
    requires Inv(p, s) && Enabled(p, s, t) && t.StrayReplayEnds?
    ensures Inv(p, Apply(p, s, t))
  {
    assert StrayOk(s.strays[t.i], s.host.Live?, Produced(s.host)) && p.Ok() && s.late == [];
    StrayedLess(s.strays, t.i, s.host.Live?, Produced(s.host));
    StraysKeep(p, s, [], Without(s.strays, t.i));
    var s' := s.(strays := Without(s.strays, t.i));
    assert s'.late == [];
    if Wipes(s, t) {
      GoneKeeps(p, s');
    }
  }

  /** Preserved files removed under whoever uses them. */
  lemma GoneKeeps(p: Params, s: Sys)
    requires Inv(p, s) && s.host.Kept?
    ensures Inv(p, s.(host := Gone(s.host.all)))
  {
    hide ScanFrom, InAlt, TermOk, Covers, WellFormed, FlagOk, QueueOk, UpOk, Strayed;
    SameLink(s, s.(host := Gone(s.host.all)));
  }

  /** Steps in which a live sender comes to its end. */
  lemma SenderKeeps(p: Params, s: Sys, t: Step)
    requires Inv(p, s) && Enabled(p, s, t) && (t.Starve? || t.Drain? || t.HangUp?)
    ensures Inv(p, Apply(p, s, t))
  {
    hide ScanFrom, InAlt, TermOk, Covers, Flow, WellFormed, FlagOk;
  }

  /** Queueing EXIT behind the last frame. */
  lemma PushExit(s: Sys, g: Stage)
    requires QueueOk(s) && s.link.Up? && !Handshaking(s.link.stage) && !s.link.stage.Finished?
    ensures Flow(Frames(Push(s.link, g, [Exit])), Produced(s.host), s.link.pos, Cursor(s.link.stage), true)
    ensures (s.link.down + [Exit])[0] == if s.link.down == [] then Exit else s.link.down[0]
  {
    FlowExit(Frames(s.link), Produced(s.host), s.link.pos, Cursor(s.link.stage));
    assert !s.link.attached ==> (s.link.down + [Exit])[1..] == s.link.down[1..] + [Exit];
  }

  /** EXIT written, by a live daemon or by a replay that has succeeded or failed. */
  lemma ExitWritten(p: Params, s: Sys, g: Stage, host: Host)
    requires Inv(p, s) && s.link.Up? && (s.link.stage.Sending? || s.link.stage.Replaying?)
    requires g.Finished? && g.cursor == Cursor(s.link.stage)
    requires host == s.host || (s.host.Live? && s.host.sealed && host == s.host.(exit := true))
    requires var s' := s.(link := Push(s.link, g, [Exit]), host := host); StageOk(s', g)
    ensures Inv(p, s.(link := Push(s.link, g, [Exit]), host := host))
  {
    var s' := s.(link := Push(s.link, g, [Exit]), host := host);
    assert QueueOk(s') by {
      PushExit(s, g);
      hide ScanFrom, InAlt, TermOk, Covers, Flow, WellFormed, FlagOk;
    }
    hide ScanFrom, InAlt, TermOk, Covers, Flow, WellFormed, FlagOk, QueueOk;
  }

  lemma SendExitKeeps(p: Params, s: Sys)
    requires Inv(p, s) && Enabled(p, s, SendExit)
    ensures Inv(p, Apply(p, s, SendExit))
  {
    hide ScanFrom, InAlt, WithResyncs, Covers, QueueOk, UpOk;
    ExitWritten(p, s, Finished(s.link.stage.cursor, s.link.stage.ending), s.host.(exit := true));
  }

  /** Trimming to an acknowledged offset leaves the buffer sound and nothing the client lacks trimmed. */
  lemma TrimOk(c: Config, v: View, off: nat, len: nat)
    requires WellFormed(c, v) && v.trim <= len && off <= len
    ensures WellFormed(c, AckedTo(c, v, off)) && AckedTo(c, v, off).stream == v.stream
    ensures v.trim <= AckedTo(c, v, off).trim <= len
  {
    TrimmedWellFormed(c, v, off);
  }

  lemma ProcessAckKeeps(p: Params, s: Sys)
    requires Inv(p, s) && Enabled(p, s, ProcessAck)
    ensures Inv(p, Apply(p, s, ProcessAck))
  {
    TrimOk(p.dc, s.host.buf, s.link.up[0], Len(s));
    hide ScanFrom, InAlt, TermOk, Covers, Flow, WellFormed, FlagOk, AckedTo, Strayed;
  }

  lemma WithoutOne(xs: seq<nat>, i: nat, top: nat)
    requires i < |xs| && AcksWithin(xs, top)
    ensures AcksWithin(Without(xs, i), top) && |Without(xs, i)| < |xs|
  {
  }

  lemma LateAckKeeps(p: Params, s: Sys, i: nat)
    requires Inv(p, s) && Enabled(p, s, LateAck(i))
    ensures Inv(p, Apply(p, s, LateAck(i)))
  {
    TrimOk(p.dc, s.host.buf, s.late[i], Len(s));
    WithoutOne(s.late, i, Len(s));
    hide ScanFrom, InAlt, TermOk, Covers, Flow, WellFormed, FlagOk, AckedTo, Without, QueueOk, UpOk, Strayed;
    assert QueueOk(Apply(p, s, LateAck(i))) && UpOk(Apply(p, s, LateAck(i))) by {
      SameLink(s, Apply(p, s, LateAck(i)));
    }
  }

  /** Queue and acknowledgements depend on the stream, the client and the link only. */
  lemma SameLink(s: Sys, s': Sys)
    requires s'.link == s.link && s'.client == s.client && s'.fate == s.fate && Produced(s'.host) == Produced(s.host)
    requires QueueOk(s) && UpOk(s)
    ensures QueueOk(s') && UpOk(s')
  {
    hide Flow, InAlt;
  }

  lemma LoseAckKeeps(p: Params, s: Sys, i: nat)
    requires Inv(p, s) && Enabled(p, s, LoseAck(i))
    ensures Inv(p, Apply(p, s, LoseAck(i)))
  {
    WithoutOne(s.late, i, Len(s));
    hide ScanFrom, InAlt, TermOk, Covers, WellFormed, FlagOk, Without, QueueOk, UpOk, Strayed;
    SameLink(s, Apply(p, s, LoseAck(i)));
  }

  lemma DropKeeps(p: Params, s: Sys)
    requires Inv(p, s) && Enabled(p, s, Drop)
    ensures Inv(p, Apply(p, s, Drop))
  {
    LeftBehindOk(p, s);
    StrayedMore(s.strays, LeftBehind(s), s.host.Live?, Produced(s.host));
    AcksOnTheWay(p, s);
    hide Strayed, LeftBehind;
    LinkDownKeeps(p, s, Apply(p, s, Drop).late, s.strays + LeftBehind(s), Apply(p, s, Drop).fate);
  }

  lemma AcksOnTheWay(p: Params, s: Sys)
    requires Inv(p, s) && s.link.Up?
    ensures AcksWithin(s.link.up, Len(s)) && AcksWithin(s.late + s.link.up, Len(s))
  {
    hide ScanFrom, InAlt, TermOk, Covers, Flow, WellFormed, FlagOk, Strayed;
  }

  lemma LinkDownKeeps(p: Params, s: Sys, late: seq<nat>, strays: seq<Stray>, fate: Fate)
    requires Inv(p, s) && !fate.Exited? && AcksWithin(late, Len(s)) && (late != [] ==> strays != [] && s.host.Live?)
    requires Strayed(strays, s.host.Live?, Produced(s.host))
    ensures Inv(p, s.(link := Down, late := late, strays := strays, fate := fate))
  {
    hide ScanFrom, InAlt, TermOk, Covers, Flow, WellFormed, FlagOk, Strayed, StageOk;
  }

  lemma LeftBehindOk(p: Params, s: Sys)
    requires Inv(p, s) && s.link.Up?
    ensures Strayed(LeftBehind(s), s.host.Live?, Produced(s.host))
  {
    assert StageOk(s, s.link.stage) && HandshakeOk(p, s) && Len(s) <= |Produced(s.host)|;
    hide Inv;
  }

  /** A daemon that ends with the files kept, its last connection possibly still delivering. */
  lemma PreserveKeeps(p: Params, s: Sys)
    requires Inv(p, s) && Enabled(p, s, Preserve)
    ensures Inv(p, Apply(p, s, Preserve))
  {
    assert Strayed([], false, Produced(s.host));
    hide ScanFrom, InAlt, TermOk, FlagOk, QueueOk, UpOk, Strayed;
    SameLink(s, Apply(p, s, Preserve));
    TileInfosCover(s.host.buf.stream, s.host.buf.base, p.dc.segmentSize);
  }

  /** The session directory removed, by whomever. */
  lemma RemoveKeeps(p: Params, s: Sys, t: Step)
    requires Inv(p, s) && Enabled(p, s, t) && (t.Remove? || t.Abort? || t.ReplayRemove?)
    ensures Inv(p, Apply(p, s, t))
  {
    if t.ReplayRemove? {
      GoneKeeps(p, s);
    } else {
      assert p.Ok();
      hide Inv;
      EndKeeps(p, s);
    }
  }

  lemma EndKeeps(p: Params, s: Sys)
    requires Inv(p, s) && s.host.Live? && Unattended(s)
    ensures Inv(p, s.(host := Gone(s.host.buf.stream)))
  {
    assert Strayed([], false, Produced(s.host)) && s.late == [];
    hide ScanFrom, InAlt, TermOk, Covers, WellFormed, FlagOk, QueueOk, UpOk, Strayed;
    SameLink(s, s.(host := Gone(s.host.buf.stream)));
  }

  // ----- Steps of a replay -----

  /** A replay starts at the length the client announced, which the segments reach back to. */
  lemma ReplayAcceptKeeps(p: Params, s: Sys)
    requires Inv(p, s) && Enabled(p, s, ReplayAccept)
    ensures Inv(p, Apply(p, s, ReplayAccept))
  {
    assert Produced(s.host)[..0] == [] && !InAlt([]);
    hide ScanFrom, InAlt, WithResyncs, Covers;
    var m := HelloAck(false, 0);
    assert (s.link.down + [m])[1..] == [];
  }

  lemma HoldsTail(segs: seq<SegmentInfo>, all: seq<byte>, from: nat)
    requires Holds(segs, all, from) && segs != []
    ensures segs[0].startOff <= from && segs[0].startOff < segs[0].endOff <= |all|
    ensures segs[0].data == all[segs[0].startOff..segs[0].endOff]
    ensures Holds(segs[1..], all, segs[0].endOff)
  {
    assert Covers(segs[1..], all, segs[0].endOff);
    assert segs[1..] != [] ==> segs[1..][0].startOff == segs[0].endOff;
  }

  /** A move of a replay keeps its books, and sends the next piece of the stream if it sends any. */
  lemma ReplayMoveOk(r: Streaming.Replay, all: seq<byte>, m: Streaming.Move)
    requires ReplayOk(r, all) && Streaming.CanMove(r, m)
    ensures ReplayOk(Streaming.Moved(r, m), all)
    ensures Streaming.Moved(r, m).cursor == r.cursor + (if m.Send? then m.n else 0)
    ensures m.Send? ==> r.cursor + m.n <= r.file.endOff <= |all| && Streaming.Sent(r, m) == all[r.cursor..r.cursor + m.n]
  {
    if m.Send? {
      SubSlice(all, r.file.startOff, r.file.endOff, r.cursor, m.n);
    } else {
      HoldsTail(r.rest, all, Max(r.cursor, r.file.endOff));
    }
  }

  /** At the end of the list everything has been sent. */
  lemma ReplayAtEnd(r: Streaming.Replay, all: seq<byte>)
    requires ReplayOk(r, all) && Streaming.Finished(r)
    ensures r.cursor == |all|
  {
  }

  lemma ReplayMoveKeeps(p: Params, s: Sys, m: Streaming.Move)
    requires Inv(p, s) && Enabled(p, s, ReplayMove(m))
    ensures Inv(p, Apply(p, s, ReplayMove(m)))
  {
    assert p.Ok();
    hide *;
    if m.Send? {
      ReplaySendKeeps(p, s, m.n);
    } else {
      ReplayTurnKeeps(p, s, m);
    }
  }

  /** The system with `n` bytes more of the open file queued. */
  function Resent(s: Sys, n: nat): Sys
    requires s.link.Up? && s.link.stage.Replaying? && Streaming.CanMove(s.link.stage.replay, Streaming.Send(n))
  {
    var r := s.link.stage.replay;
    s.(link := Push(s.link, Replaying(r.(cursor := r.cursor + n)), [Output(r.cursor, Streaming.Sent(r, Streaming.Send(n)))]))
  }

  lemma ReplaySendKeeps(p: Params, s: Sys, n: nat)
    requires Inv(p, s) && Enabled(p, s, ReplayMove(Streaming.Send(n)))
    ensures Inv(p, Apply(p, s, ReplayMove(Streaming.Send(n))))
  {
    assert Apply(p, s, ReplayMove(Streaming.Send(n))) == Resent(s, n);
    hide *;
    ResentKeeps(p, s, n);
  }

  lemma ResentKeeps(p: Params, s: Sys, n: nat)
    requires Inv(p, s) && s.link.Up? && s.link.stage.Replaying? && Streaming.CanMove(s.link.stage.replay, Streaming.Send(n))
    ensures Inv(p, Resent(s, n))
  {
    hide *;
    ResentIs(p, s, n);
    var r, x := s.link.stage.replay, Streaming.Sent(s.link.stage.replay, Streaming.Send(n));
    PushKeeps(p, s, Replaying(r.(cursor := r.cursor + n)), n, Output(r.cursor, x));
  }

  lemma ResentIs(p: Params, s: Sys, n: nat)
    requires Inv(p, s) && s.link.Up? && s.link.stage.Replaying? && Streaming.CanMove(s.link.stage.replay, Streaming.Send(n))
    ensures s.link.Up? && s.link.stage.Replaying? && Streaming.CanMove(s.link.stage.replay, Streaming.Send(n))
    ensures var r, x := s.link.stage.replay, Streaming.Sent(s.link.stage.replay, Streaming.Send(n));
            var g := Replaying(r.(cursor := r.cursor + n));
            && Resent(s, n) == s.(link := Push(s.link, g, [Output(r.cursor, x)]))
            && StageOk(s, g) && !Handshaking(g) && Cursor(g) == r.cursor + n
            && !Handshaking(s.link.stage) && Cursor(s.link.stage) == r.cursor
            && 0 < n && r.cursor + n <= |Produced(s.host)| && Produced(s.host)[r.cursor..r.cursor + n] == x
  {
    var r := s.link.stage.replay;
    assert StageOk(s, s.link.stage);
    hide Inv, ReplayOk, Streaming.Sent;
    ReplayMoveOk(r, Produced(s.host), Streaming.Send(n));
  }

  /** Passing over a segment or opening one changes nothing but the replay's own books. */
  lemma ReplayTurnKeeps(p: Params, s: Sys, m: Streaming.Move)
    requires Inv(p, s) && Enabled(p, s, ReplayMove(m)) && !m.Send?
    ensures Inv(p, Apply(p, s, ReplayMove(m)))
  {
    var r, all := s.link.stage.replay, Produced(s.host);
    ReplayMoveOk(r, all, m);
    assert s.link.down + [] == s.link.down;
    hide ReplayOk, ScanFrom, InAlt, TermOk, Covers, FlagOk, Flow, WellFormed, GreetingOk, Streaming.CanMove, Streaming.Moved, Streaming.Sent;
    var r' := Streaming.Moved(r, m);
    BooksKeep(p, s, r');
  }

  lemma BooksKeep(p: Params, s: Sys, r': Streaming.Replay)
    requires Inv(p, s) && s.link.Up? && s.link.stage.Replaying? && ReplayOk(r', Produced(s.host))
    requires r'.cursor == s.link.stage.replay.cursor
    ensures Inv(p, s.(link := s.link.(stage := Replaying(r'))))
  {
    hide ReplayOk, ScanFrom, InAlt, TermOk, Covers, FlagOk, Flow, WellFormed;
    assert StageOk(s.(link := s.link.(stage := Replaying(r'))), Replaying(r'));
  }

  lemma ReplayEndKeeps(p: Params, s: Sys, t: Step)
    requires Inv(p, s) && Enabled(p, s, t) && (t.ReplayExit? || t.ReplayFail?)
    ensures Inv(p, Apply(p, s, t))
  {
    hide ScanFrom, InAlt, WithResyncs, Covers, QueueOk, UpOk;
    var r := s.link.stage.replay;
    if t.ReplayExit? {
      ReplayAtEnd(r, Produced(s.host));
    }
    ExitWritten(p, s, Finished(r.cursor, if t.ReplayExit? then Drained else Failed), s.host);
  }

  // ----- Steps of the client -----

  lemma GreetKeeps(p: Params, s: Sys)
    requires Inv(p, s) && Enabled(p, s, Deliver) && s.link.down[0].HelloAck?
    ensures Inv(p, Apply(p, s, Deliver))
  {
    InsertHere(s.client.buf.stream, s.client.resyncs);
    hide ScanFrom, Covers, WithResyncs, WellFormed;
    assert Produced(s.host)[..Len(s)] == s.client.buf.stream;
  }

  /** A flag that is right, or ahead of its own output towards position `sync` of the stream. */
  ghost predicate FlagOk(all: seq<byte>, w: seq<byte>, flag: bool, sync: nat) {
    || flag == InAlt(w)
    || (|w| < sync <= |all| && flag && InAlt(all[..sync]))
  }

  /** Between a client's position and a later one with the other flag there is an event. */
  lemma EventBetween(all: seq<byte>, w: seq<byte>, y: seq<byte>, sync: nat)
    requires |w| <= sync <= |w| + |y| <= |all| && w + y == all[..|w| + |y|]
    requires ScanFrom(ScanFrom(Fresh, w).0, y).1.Quiet?
    ensures InAlt(all[..sync]) == InAlt(w)
  {
    var k := sync - |w|;
    assert all[..sync] == (w + y)[..sync] == w + y[..k];
    InAltAfter(w, y[..k]);
    QuietPrefix(ScanFrom(Fresh, w).0, y, k);
  }

  /** It stays so while the stream's next bytes `y` are shown. */
  lemma FlagAdvances(all: seq<byte>, w: seq<byte>, y: seq<byte>, flag: bool, sync: nat)
    requires FlagOk(all, w, flag, sync) && |w| + |y| <= |all| && w + y == all[..|w| + |y|]
    ensures FlagOk(all, w + y, Flag(flag, ScanFrom(ScanFrom(Fresh, w).0, y).1), sync)
  {
    InAltAfter(w, y);
    if ScanFrom(ScanFrom(Fresh, w).0, y).1.Quiet? && flag != InAlt(w) && sync <= |w| + |y| {
      EventBetween(all, w, y, sync);
    }
  }

  /** The bytes of a frame that the client lacks are the stream's next bytes. */
  lemma NewBytesAreNext(all: seq<byte>, len: nat, off: nat, x: seq<byte>)
    requires off <= len < off + |x| <= |all| && x == all[off..off + |x|]
    ensures NewBytes(len, off, x) == Some(all[len..off + |x|])
    ensures all[..len] + all[len..off + |x|] == all[..off + |x|]
  {
    SubSlice(all, off, off + |x|, len, off + |x| - len);
  }

  /** What an accepted frame ending at `end` makes of client `k`: it now has the stream up to `end`. */
  ghost predicate Advanced(c: Config, k: Client, k': Client, a: Option<nat>, all: seq<byte>, end: nat) {
    var w := k.buf.stream;
    |w| < end <= |all| &&
    var y := all[|w|..end];
    && k'.buf == Appended(c, k.buf, y) && k'.buf.stream == all[..end] == w + y
    && k'.term == k.term + y && k'.resyncs == k.resyncs
    && k'.scan == ScanFrom(k.scan, y).0
    && k'.inAlt == Flag(k.inAlt, ScanFrom(k.scan, y).1)
    && k'.acked <= end && end - k'.acked < ACK_INTERVAL
    && (a.Some? ==> a.value == end)
  }

  /** A truthful frame without a gap takes the client to its end, or leaves it where it was. */
  lemma ReceivedAdvances(c: Config, k: Client, all: seq<byte>, off: nat, x: seq<byte>)
    requires var w := k.buf.stream; k.acked <= |w| <= |all| && w == all[..|w|] && off <= |w|
    requires off + |x| <= |all| && x == all[off..off + |x|]
    ensures var r := Received(c, k, off, x);
            if |k.buf.stream| < off + |x| then Advanced(c, k, r.0, r.1, all, off + |x|) else r == (k, None)
  {
    hide ScanFrom;
    if |k.buf.stream| < off + |x| {
      NewBytesAreNext(all, |k.buf.stream|, off, x);
    }
  }

  lemma AdvancedKeepsClient(p: Params, s: Sys, s': Sys, a: Option<nat>, end: nat)
    requires Inv(p, s) && s'.host == s.host && s'.sync == s.sync
    requires Advanced(p.cc, s.client, s'.client, a, Produced(s.host), end)
    ensures ClientOk(p, s') && HostOk(p, s') && AltOk(s') && Len(s') == end
  {
    var all, w := Produced(s.host), s.client.buf.stream;
    var y := all[|w|..end];
    AppendedWellFormed(p.cc, s.client.buf, y);
    InAltAfter(w, y);
    FlagAdvances(all, w, y, s.client.inAlt, s.sync);
    ShowMore(w, y, s.client.resyncs);
    hide ScanFrom, InAlt, WithResyncs, Covers, WellFormed, FlagOk;
  }

  /** The queue after its head frame is taken. */
  lemma QueueAdvances(s: Sys, off: nat, x: seq<byte>)
    requires s.link.Up? && !Handshaking(s.link.stage) && QueueOk(s) && s.link.down != []
    requires s.link.down[0] == Output(off, x)
    ensures s.link.attached && off == s.link.pos && off + |x| <= |Produced(s.host)| && x == Produced(s.host)[off..off + |x|]
    ensures Flow(s.link.down[1..], Produced(s.host), off + |x|, Cursor(s.link.stage), ExitPending(s))
    ensures off + |x| <= Cursor(s.link.stage)
  {
    hide InAlt;
    assert s.link.attached;
    FlowForward(s.link.down[1..], Produced(s.host), off + |x|, Cursor(s.link.stage), ExitPending(s));
  }

  /** The link after the client has taken a frame that reaches to `end`. */
  lemma AdvancedKeepsLink(s: Sys, s': Sys, a: Option<nat>, end: nat)
    requires s.link.Up? && !Handshaking(s.link.stage) && s.link.attached && UpOk(s)
    requires s.link.stage.Replaying? ==> Len(s) <= Cursor(s.link.stage)
    requires s'.host == s.host && s'.fate == s.fate && end <= Len(s') && end <= Cursor(s.link.stage) <= |Produced(s.host)|
    requires s.link.down != [] && s'.link == s.link.(down := s.link.down[1..], up := s.link.up + Ack(a), pos := end)
    requires Flow(s.link.down[1..], Produced(s.host), end, Cursor(s.link.stage), ExitPending(s))
    requires if Len(s') == Len(s) then s'.client == s.client && a.None?
             else Len(s) < Len(s') == end && end - s'.client.acked < ACK_INTERVAL && (a.Some? ==> a.value == end)
    ensures QueueOk(s') && UpOk(s')
  {
  }

  /** Where the client stands when a frame arrives. */
  lemma ArrivalFacts(p: Params, s: Sys)
    requires Inv(p, s) && s.link.Up? && s.link.down != []
    ensures !Handshaking(s.link.stage) && QueueOk(s) && s.link.pos <= Len(s)
    ensures s.client.acked <= Len(s) <= |Produced(s.host)| && s.client.buf.stream == Produced(s.host)[..Len(s)]
  {
    hide ScanFrom, InAlt, TermOk, Covers, Flow, WellFormed, FlagOk;
  }

  /** Where the frame that arrives lies. */
  lemma OutputLies(p: Params, s: Sys)
    requires Inv(p, s) && s.link.Up? && s.link.down != [] && s.link.down[0].Output?
    ensures !Handshaking(s.link.stage) && s.link.attached
    ensures var off, x := s.link.down[0].off, s.link.down[0].payload;
            && off <= Len(s) && off + |x| <= Cursor(s.link.stage) && off + |x| <= |Produced(s.host)|
            && x == Produced(s.host)[off..off + |x|]
            && Flow(s.link.down[1..], Produced(s.host), off + |x|, Cursor(s.link.stage), ExitPending(s))
  {
    ArrivalFacts(p, s);
    hide Inv, QueueOk, Flow;
    QueueAdvances(s, s.link.down[0].off, s.link.down[0].payload);
  }

  /** Where the frame that arrives ends. */
  function ArrivalEnd(s: Sys): nat
    requires s.link.Up? && s.link.down != [] && s.link.down[0].Output?
  {
    s.link.down[0].off + |s.link.down[0].payload|
  }

  /** What the client makes of it. */
  function Arrived(p: Params, s: Sys): (Client, Option<nat>)
    requires s.link.Up? && s.link.down != [] && s.link.down[0].Output?
  {
    Received(p.cc, s.client, s.link.down[0].off, s.link.down[0].payload)
  }

  lemma OutputTaken(p: Params, s: Sys)
    requires Inv(p, s) && s.link.Up? && s.link.down != [] && s.link.down[0].Output?
    ensures if Len(s) < ArrivalEnd(s) then Advanced(p.cc, s.client, Arrived(p, s).0, Arrived(p, s).1, Produced(s.host), ArrivalEnd(s))
            else Arrived(p, s) == (s.client, None)
  {
    var off, x := s.link.down[0].off, s.link.down[0].payload;
    var all := Produced(s.host);
    assert Arrived(p, s) == Received(p.cc, s.client, off, x) && ArrivalEnd(s) == off + |x| && Len(s) == |s.client.buf.stream|;
    FrameIsTrue(p, s, off, x, all);
    hide *;
    ReceivedAdvances(p.cc, s.client, all, off, x);
  }

  lemma FrameIsTrue(p: Params, s: Sys, off: nat, x: seq<byte>, all: seq<byte>)
    requires Inv(p, s) && s.link.Up? && s.link.down != [] && s.link.down[0] == Output(off, x) && all == Produced(s.host)
    ensures var w := s.client.buf.stream; s.client.acked <= |w| <= |all| && w == all[..|w|] && off <= |w|
    ensures off + |x| <= |all| && x == all[off..off + |x|]
  {
    ArrivalFacts(p, s);
    OutputLies(p, s);
    hide Inv, QueueOk, Flow, Produced;
  }

  lemma TakeOutputIs(p: Params, s: Sys)
    requires s.link.Up? && s.link.down != [] && s.link.down[0].Output?
    ensures Take(p, s) == s.(client := Arrived(p, s).0,
                             link := s.link.(down := s.link.down[1..], up := s.link.up + Ack(Arrived(p, s).1), pos := ArrivalEnd(s)))
  {
    hide Received;
  }

  lemma OutputKeepsClient(p: Params, s: Sys)
    requires Inv(p, s) && Enabled(p, s, Deliver) && s.link.down[0].Output?
    ensures var s' := Take(p, s); ClientOk(p, s') && HostOk(p, s') && AltOk(s') && Len(s) <= Len(s')
  {
    OutputTaken(p, s);
    TakeOutputIs(p, s);
    hide Take, Arrived, ScanFrom, InAlt, Covers, WithResyncs, Advanced;
    if Len(s) < ArrivalEnd(s) {
      AdvancedKeepsClient(p, s, Take(p, s), Arrived(p, s).1, ArrivalEnd(s));
    }
  }

  lemma OutputKeepsLink(p: Params, s: Sys)
    requires Inv(p, s) && Enabled(p, s, Deliver) && s.link.down[0].Output?
    ensures var s' := Take(p, s); QueueOk(s') && UpOk(s')
  {
    assert s.link.Up? && s.link.down != [];
    OutputLies(p, s);
    OutputTaken(p, s);
    TakeOutputIs(p, s);
    LinkFacts(p, s);
    hide Inv, Take, Arrived, QueueOk, UpOk, Advanced, Flow, Produced;
    if Len(s) < ArrivalEnd(s) {
      AdvancedFacts(p.cc, s.client, Arrived(p, s).0, Arrived(p, s).1, Produced(s.host), ArrivalEnd(s));
    }
    AdvancedKeepsLink(s, Take(p, s), Arrived(p, s).1, ArrivalEnd(s));
  }

  lemma LinkFacts(p: Params, s: Sys)
    requires Inv(p, s) && s.link.Up? && !Handshaking(s.link.stage)
    ensures UpOk(s) && Cursor(s.link.stage) <= |Produced(s.host)|
    ensures s.link.stage.Replaying? ==> Len(s) <= Cursor(s.link.stage)
  {
    hide ScanFrom, InAlt, WithResyncs, Covers, Flow;
  }

  lemma AdvancedFacts(c: Config, k: Client, k': Client, a: Option<nat>, all: seq<byte>, end: nat)
    requires Advanced(c, k, k', a, all, end)
    ensures |k'.buf.stream| == end && end - k'.acked < ACK_INTERVAL && (a.Some? ==> a.value == end)
  {
    hide ScanFrom, Appended;
  }

  lemma OutputKeeps(p: Params, s: Sys)
    requires Inv(p, s) && Enabled(p, s, Deliver) && s.link.down[0].Output?
    ensures Inv(p, Apply(p, s, Deliver))
  {
    hide ScanFrom, Covers, Received, WithResyncs, QueueOk, UpOk, ClientOk, HostOk;
    OutputLies(p, s);
    OutputKeepsClient(p, s);
    OutputKeepsLink(p, s);
  }

  lemma ExitKeeps(p: Params, s: Sys)
    requires Inv(p, s) && Enabled(p, s, Deliver) && s.link.down[0].Exit?
    ensures Inv(p, Apply(p, s, Deliver))
  {
    hide ScanFrom, Covers, WithResyncs;
  }

  lemma IdleAckKeeps(p: Params, s: Sys)
    requires Inv(p, s) && Enabled(p, s, IdleAck)
    ensures Inv(p, Apply(p, s, IdleAck))
  {
    hide ScanFrom, Covers, WithResyncs, Flow;
  }
}
