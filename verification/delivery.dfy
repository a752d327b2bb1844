/**
 The whole protocol as a transition system: one client process, one session, any number of
 connections that can be cut at any time, and the processes a cut leaves behind.

 A step is one critical section of one of the goroutines involved, so a run is any interleaving of
 them. Buffers are `History` views, moved by the same functions the methods of `Buffers.Buffer`
 are proved against; likewise the client's moves, the resend rule, the pieces a live streamer sends
 and the moves of a replay.
 */
module Delivery {
  import opened Bytes
  import opened History
  import opened AltScreen
  import opened Chunks
  import opened Clients
  import opened SegmentFiles
  import Hellos
  import Streaming

  /**
   Daemon and client buffer configurations: same chunk size, only the daemon spills to disk. `idLen`
   is the length of the session id.
   */
  datatype Params = Params(dc: Config, cc: Config, idLen: nat) {
    predicate Ok() {
      dc.Ok() && cc.Ok() && dc.disk && !cc.disk && dc.chunkSize == cc.chunkSize && idLen <= 255
    }
  }

  /** What travels to the client. `at` records where the daemon's stream stood when `alt` was sampled. */
  datatype Msg = HelloAck(alt: bool, at: nat) | Output(off: nat, payload: seq<byte>) | Exit

  /**
   How a sender ended: not yet; everything up to the end sent; overtaken by the trim point; or a
   segment file it needed was gone.
   */
  datatype Ending = Open | Drained | Starved | Failed

  /**
   The remote side of a connection. A live daemon reads its manifest under three separate locks,
   hence three steps; then the resend point is clamped and streaming starts. A replay daemon has
   scanned the segment files when it was spawned, takes the client's length from its HELLO and starts
   there. `Finished` has written EXIT; `Closed` has hung up with frames still on their way.
   */
  datatype Stage =
    | Hello(peer: Manifest)
    | GotTotal(peer: Manifest, total: nat)
    | GotFirst(peer: Manifest, total: nat, first: nat)
    | GotHashes(peer: Manifest, own: Manifest)
    | Sending(cursor: nat, ending: Ending)
    | ReplayHello(peer: Manifest, segs: seq<SegmentInfo>)
    | Replaying(replay: Streaming.Replay)
    | Finished(cursor: nat, ending: Ending)
    | Closed(cursor: nat)

  /**
   The client's current connection, with frames and acknowledgements in flight. `attached` says
   HELLO_ACK has arrived; `pos` records the end of the last frame taken off the wire, `greeted` what
   the client held when HELLO_ACK arrived.
   */
  datatype Link = Down | Up(stage: Stage, down: seq<Msg>, up: seq<nat>, attached: bool, pos: nat, greeted: nat)

  /**
   The session on the remote host: a live daemon, which still listens if `open` and has written an
   EXIT frame to some connection if `exit`; preserved segment files; or nothing any more.
   */
  datatype Host =
    | Live(buf: View, sealed: bool, scan: ScanState, alt: bool, open: bool, exit: bool)
    | Kept(all: seq<byte>, segs: seq<SegmentInfo>)
    | Gone(all: seq<byte>)

  /** A client is running until it takes an EXIT frame or finds that it cannot attach any more. */
  datatype Fate = Running | Exited | GaveUp

  /**
   What a client that has given up on a connection leaves behind: an attach of a live daemon, or a
   replay daemon that will never hear HELLO, may still hear it, is sending, or has written EXIT.
   */
  datatype Stray =
    | StrayAttach
    | StrayUnheard
    | StrayHearing(peer: Manifest, segs: seq<SegmentInfo>)
    | StraySending(replay: Streaming.Replay)
    | StraySent(replay: Streaming.Replay)

  /**
   `strays` are the processes left behind that have not ended; `late` holds acknowledgements such an
   attach has not read yet. `sync` is the position of the last alt-screen resync.
   */
  datatype Sys = Sys(host: Host, late: seq<nat>, strays: seq<Stray>, link: Link, client: Client, fate: Fate, sync: nat)

  /** Everything the shell has produced, as far as the daemon has taken it from the PTY. */
  function Produced(h: Host): seq<byte> {
    match h
    case Live(buf, _, _, _, _, _) => buf.stream
    case Kept(all, _) => all
    case Gone(all) => all
  }

  const Start: Sys :=
    Sys(Live(EmptyView, false, Fresh, false, true, false), [], [], Down, FreshClient, Running, 0)

  /**
   The steps, in groups: the shell; the client's attach and its daemon; the link; what cuts leave
   behind; the end of a daemon; replay.

   `HangUp` closes the remote end of a connection while frames are on their way; a `Drop` before
   HELLO_ACK has arrived ends the client. `StrayExit` is an abandoned attach writing EXIT into its dead
   connection; an abandoned replay daemon may still greet and stream into its own, and ends as
   `ReplayDaemon.ReplayRun` does (`StrayReplayEnds`). A daemon that no longer listens ends by keeping
   the segment files (`Preserve`) or, if an EXIT was written, removing them (`Remove`); `Abort` removes
   them unasked or at the client's wish.
   */
  datatype Step =
    | Pump(p: seq<byte>)
    | Seal
    | Connect
    | ReadTotal
    | ReadFirst
    | ReadHashes
    | Accept
    | SendFrame
    | Starve
    | Drain
    | SendExit
    | HangUp
    | Deliver
    | IdleAck
    | ProcessAck
    | Drop
    | LateAck(i: nat)
    | LoseAck(i: nat)
    | StrayExit(i: nat)
    | StrayEnds(i: nat)
    | StrayGreets(i: nat)
    | StrayMoves(i: nat, m: Streaming.Move)
    | StrayReplayEnds(i: nat, e: Streaming.ReplayEnd)
    | CloseListener
    | Preserve
    | Remove
    | Abort
    | ReplayAccept
    | ReplayMove(m: Streaming.Move)
    | ReplayFail
    | ReplayExit
    | ReplayRemove

  function Ack(a: Option<nat>): seq<nat> {
    match a
    case None => []
    case Some(off) => [off]
  }

  function Without<T>(xs: seq<T>, i: nat): seq<T>
    requires i < |xs|
  {
    xs[..i] + xs[i + 1..]
  }

  /** `TrimTo` on a view, total: every reachable view is well formed. */
  ghost function AckedTo(c: Config, v: View, off: nat): View {
    if WellFormed(c, v) then Trimmed(c, v, off) else v
  }

  /** The client's HELLO fits in a frame. */
  predicate HelloFits(p: Params, k: Client)
    requires p.Ok()
  {
    Hellos.Fits(p.idLen, |ManifestOf(p.cc, k.buf).hashes|)
  }

  /** Somebody would answer the client's attach: a listening daemon, or a replay of segment files. */
  predicate Reachable(h: Host) {
    (h.Live? && h.open) || (h.Kept? && h.segs != [])
  }

  /** No attach of a daemon is running any more, neither the client's current one nor an older one. */
  predicate Unattended(s: Sys) {
    s.strays == [] && (s.link.Down? || s.link.stage.Finished? || s.link.stage.Closed?)
  }

  /** The process that giving up on this connection leaves behind, if it can still do something. */
  function LeftBehind(s: Sys): seq<Stray>
    requires s.link.Up?
  {
    match s.link.stage
    case ReplayHello(peer, segs) => [StrayHearing(peer, segs)]
    case Replaying(r) => [StraySending(r)]
    case Finished(c, e) =>
      if s.host.Live? then [StrayAttach]
      else if s.host.Kept? && e.Drained? then [StraySent(Streaming.Replay([], c, Streaming.NoFile))]
      else []
    case Closed(_) => []
    case _ => [StrayAttach]
  }

  /** The ways in which an abandoned replay daemon can end from where it stands. */
  predicate CanEnd(g: Stray, e: Streaming.ReplayEnd) {
    match g
    case StrayAttach => false
    case StrayUnheard => e.NoHello?
    case StrayHearing(_, _) => !e.Greeted?
    case StraySending(r) => e.Greeted? && e.end == r
    case StraySent(r) => e == Streaming.Greeted(r, true)
  }

  predicate Enabled(p: Params, s: Sys, t: Step) {
    match t
    case Pump(x) => s.host.Live? && !s.host.sealed && |s.host.buf.stream| + |x| < U64
    case Seal => s.host.Live?
    case Connect => s.link.Down? && s.fate.Running?
    case ReadTotal => s.host.Live? && s.link.Up? && s.link.stage.Hello?
    case ReadFirst => s.host.Live? && s.link.Up? && s.link.stage.GotTotal?
    case ReadHashes => s.host.Live? && s.link.Up? && s.link.stage.GotFirst?
    case Accept =>
      s.host.Live? && s.link.Up? && s.link.stage.GotHashes? && Hellos.Fits(p.idLen, |s.link.stage.own.hashes|)
    case SendFrame => CanStream(s) && s.host.buf.trim <= s.link.stage.cursor < |s.host.buf.stream|
    case Starve => CanStream(s) && s.link.stage.cursor < |s.host.buf.stream| && s.link.stage.cursor < s.host.buf.trim
    case Drain => CanStream(s) && s.host.sealed && |s.host.buf.stream| <= s.link.stage.cursor
    case SendExit =>
      s.host.Live? && s.host.sealed && s.link.Up? && s.link.stage.Sending? && !s.link.stage.ending.Open?
    case HangUp => s.host.Live? && s.link.Up? && s.link.stage.Sending?
    case Deliver => s.link.Up? && s.link.down != [] && s.fate.Running?
    case IdleAck => s.link.Up? && s.link.attached && s.fate.Running?
    case ProcessAck => s.host.Live? && s.link.Up? && (s.link.stage.Sending? || s.link.stage.Finished?) && s.link.up != []
    case Drop => s.link.Up? && s.fate.Running?
    case LateAck(i) => s.host.Live? && i < |s.late|
    case LoseAck(i) => i < |s.late|
    case StrayExit(i) => s.host.Live? && s.host.sealed && i < |s.strays| && s.strays[i].StrayAttach?
    case StrayEnds(i) => i < |s.strays| && s.strays[i].StrayAttach?
    case StrayGreets(i) => i < |s.strays| && s.strays[i].StrayHearing?
    case StrayMoves(i, m) =>
      && i < |s.strays| && s.strays[i].StraySending?
      && Streaming.CanMove(s.strays[i].replay, m) && (m.Open? ==> s.host.Kept?)
    case StrayReplayEnds(i, e) => i < |s.strays| && CanEnd(s.strays[i], e)
    case CloseListener => s.host.Live? && s.host.open
    case Preserve => s.host.Live? && s.host.sealed && !s.host.open && !s.host.exit && Unattended(s)
    case Remove => s.host.Live? && s.host.sealed && !s.host.open && s.host.exit && Unattended(s)
    case Abort => s.host.Live? && s.host.sealed && !s.host.open && !s.host.exit && Unattended(s)
    case ReplayAccept => s.link.Up? && s.link.stage.ReplayHello?
    case ReplayMove(m) =>
      s.link.Up? && s.link.stage.Replaying? && Streaming.CanMove(s.link.stage.replay, m) && (m.Open? ==> s.host.Kept?)
    case ReplayFail =>
      s.link.Up? && s.link.stage.Replaying? && Streaming.CanMove(s.link.stage.replay, Streaming.Open) && !s.host.Kept?
    case ReplayExit => s.link.Up? && s.link.stage.Replaying? && Streaming.Finished(s.link.stage.replay)
    case ReplayRemove => s.host.Kept? && s.link.Up? && s.link.stage.Finished? && s.link.stage.ending.Drained?
  }

  /** The step removes preserved files. Preserved files are marked clean. */
  predicate Wipes(s: Sys, t: Step) {
    t.StrayReplayEnds? && s.host.Kept? && Streaming.Removes(t.e, true)
  }

  predicate CanStream(s: Sys) {
    s.host.Live? && s.link.Up? && s.link.stage.Sending? && s.link.stage.ending.Open?
  }

  function Push(l: Link, stage: Stage, ms: seq<Msg>): Link
    requires l.Up?
  {
    l.(stage := stage, down := l.down + ms)
  }

  /** The client takes the next message off the wire. */
  function Take(p: Params, s: Sys): Sys
    requires s.link.Up? && s.link.down != []
  {
    var l := s.link.(down := s.link.down[1..]);
    match s.link.down[0]
    case HelloAck(alt, at) =>
      s.(client := Greeted(s.client, alt), link := l.(attached := true, greeted := |s.client.buf.stream|),
         sync := if Resyncs(s.client, alt) then at else s.sync)
    case Output(off, x) =>
      var (k, ack) := Received(p.cc, s.client, off, x);
      s.(client := k, link := l.(up := l.up + Ack(ack), pos := off + |x|))
    case Exit => s.(link := l, fate := Exited)
  }

  /** The client tries to attach. It gives up when nobody answers or its HELLO is too large to send. */
  ghost function Dialled(p: Params, s: Sys): Sys
    requires p.Ok()
  {
    var peer := ManifestOf(p.cc, s.client.buf);
    if !Reachable(s.host) then s.(fate := GaveUp)
    else if !HelloFits(p, s.client)
    then s.(fate := GaveUp, strays := s.strays + [if s.host.Live? then StrayAttach else StrayUnheard])
    else s.(link := Up(if s.host.Live? then Hello(peer) else ReplayHello(peer, s.host.segs), [], [], false, 0, 0))
  }

  ghost function Apply(p: Params, s: Sys, t: Step): Sys
    requires p.Ok() && Enabled(p, s, t)
  {
    match t
    case Pump(x) =>
      var (scan, ev) := ScanFrom(s.host.scan, x);
      s.(host := s.host.(buf := Appended(p.dc, s.host.buf, x), scan := scan, alt := Flag(s.host.alt, ev)))
    case Seal => s.(host := s.host.(sealed := true))
    case Connect => Dialled(p, s)
    case ReadTotal => s.(link := s.link.(stage := GotTotal(s.link.stage.peer, |s.host.buf.stream|)))
    case ReadFirst => s.(link := s.link.(stage := GotFirst(s.link.stage.peer, s.link.stage.total, s.host.buf.first)))
    case ReadHashes =>
      var hs := HashesFrom(p.dc, s.host.buf.stream, s.host.buf.first);
      s.(link := s.link.(stage := GotHashes(s.link.stage.peer, Manifest(s.link.stage.total, s.link.stage.first, hs))))
    case Accept =>
      var r := Max(Resend(s.link.stage.own, s.link.stage.peer, p.dc.chunkSize), s.host.buf.trim);
      s.(link := Push(s.link, Sending(r, Open), [HelloAck(s.host.alt, |s.host.buf.stream|)]).(pos := r))
    case SendFrame =>
      var x := Streaming.Piece(s.host.buf.stream, s.link.stage.cursor);
      s.(link := Push(s.link, Sending(s.link.stage.cursor + |x|, Open), [Output(s.link.stage.cursor, x)]))
    case Starve => s.(link := s.link.(stage := Sending(s.link.stage.cursor, Starved)))
    case Drain => s.(link := s.link.(stage := Sending(s.link.stage.cursor, Drained)))
    case SendExit =>
      s.(host := s.host.(exit := true),
         link := Push(s.link, Finished(s.link.stage.cursor, s.link.stage.ending), [Exit]))
    case HangUp => s.(link := s.link.(stage := Closed(s.link.stage.cursor)))
    case Deliver => Take(p, s)
    case IdleAck =>
      var (k, ack) := TryAck(s.client, 1);
      s.(client := k, link := s.link.(up := s.link.up + Ack(ack)))
    case ProcessAck =>
      s.(host := s.host.(buf := AckedTo(p.dc, s.host.buf, s.link.up[0])), link := s.link.(up := s.link.up[1..]))
    case Drop =>
      s.(link := Down, strays := s.strays + LeftBehind(s),
         late := s.late + (if s.host.Live? && LeftBehind(s) != [] then s.link.up else []),
         fate := if s.link.attached then s.fate else GaveUp)
    case LateAck(i) =>
      s.(host := s.host.(buf := AckedTo(p.dc, s.host.buf, s.late[i])), late := Without(s.late, i))
    case LoseAck(i) => s.(late := Without(s.late, i))
    case StrayExit(_) => s.(host := s.host.(exit := true))
    case StrayEnds(i) => s.(strays := Without(s.strays, i), late := if |s.strays| == 1 then [] else s.late)
    case StrayGreets(i) =>
      var g := s.strays[i];
      s.(strays := s.strays[i := StraySending(Streaming.StartReplay(g.segs, g.peer.total))])
    case StrayMoves(i, m) => s.(strays := s.strays[i := StraySending(Streaming.Moved(s.strays[i].replay, m))])
    case StrayReplayEnds(i, e) =>
      s.(strays := Without(s.strays, i), host := if Wipes(s, t) then Gone(s.host.all) else s.host)
    case CloseListener => s.(host := s.host.(open := false))
    case Preserve =>
      s.(host := Kept(s.host.buf.stream, TileInfos(s.host.buf.stream, s.host.buf.base, p.dc.segmentSize)))
    case Remove => s.(host := Gone(s.host.buf.stream))
    case Abort => s.(host := Gone(s.host.buf.stream))
    case ReplayAccept =>
      var r := Streaming.StartReplay(s.link.stage.segs, s.link.stage.peer.total);
      s.(link := Push(s.link, Replaying(r), [HelloAck(false, 0)]).(pos := r.cursor))
    case ReplayMove(m) =>
      var r, x := s.link.stage.replay, Streaming.Sent(s.link.stage.replay, m);
      s.(link := Push(s.link, Replaying(Streaming.Moved(r, m)), if m.Send? then [Output(r.cursor, x)] else []))
    case ReplayFail => s.(link := Push(s.link, Finished(s.link.stage.replay.cursor, Failed), [Exit]))
    case ReplayExit => s.(link := Push(s.link, Finished(s.link.stage.replay.cursor, Drained), [Exit]))
    case ReplayRemove => s.(host := Gone(s.host.all))
  }

  ghost predicate Run(p: Params, s: Sys, ts: seq<Step>, s': Sys)
    requires p.Ok()
    decreases |ts|
  {
    if ts == [] then s == s'
    else Enabled(p, s, ts[0]) && Run(p, Apply(p, s, ts[0]), ts[1..], s')
  }
}
