/** Runs from the start in which the program does less than it says. */
module Scenarios {
  import opened Bytes
  import opened History
  import opened AltScreen
  import opened Chunks
  import opened Clients
  import opened SegmentFiles
  import opened Delivery
  import opened Invariant
  import opened Theorems
  import opened Completion
  import opened Losses
  import opened Recovery
  import Hellos
  import Streaming

  /** A session whose shell has produced `x` so far. */
  function Fed(p: Params, x: seq<byte>): Sys {
    Start.(host := Live(View(x, 0, 0, 0), false, ScanFrom(Fresh, x).0, InAlt(x), true, false))
  }

  lemma Feed(p: Params, x: seq<byte>)
    requires p.Ok() && |x| < U64
    ensures Leads(p, Start, Fed(p, x), Any) && Inv(p, Fed(p, x))
  {
    StartOk(p);
    LeadsSelf(p, Start, Any);
    LeadsStep(p, Start, Start, Pump(x), Any);
    assert [] + x == x;
    assert Apply(p, Start, Pump(x)) == Fed(p, x);
    LeadsKeeps(p, Start, Fed(p, x), Any);
  }

  /** With no complete chunk, resending starts at the very beginning. */
  lemma ResendFromZero(p: Params, v: View, peer: Manifest)
    requires p.Ok() && v.first == 0 && |v.stream| < p.dc.chunkSize
    ensures Resend(ManifestOf(p.dc, v), peer, p.dc.chunkSize) == 0 && ManifestOf(p.dc, v).hashes == []
  {
    var own := ManifestOf(p.dc, v);
    assert EndIndex(own) == 0;
    assert OverlapEnd(own, peer) == 0;
  }

  /** An attach to a young session, up to the client's taking HELLO_ACK. */
  lemma Attach(p: Params, s: Sys) returns (s': Sys)
    requires Inv(p, s) && s.fate.Running? && s.link.Down? && HelloFits(p, s.client)
    requires s.host.Live? && s.host.open && s.host.buf.trim == 0 && |s.host.buf.stream| < p.dc.chunkSize
    ensures Leads(p, s, s', Any) && Inv(p, s') && s' == s.(link := s'.link, client := s'.client, sync := s'.sync)
    ensures s'.link == Up(Sending(0, Open), [], [], true, 0, Len(s)) && s'.client == Greeted(s.client, s.host.alt)
  {
    ManifestCount(p.dc, s.host.buf);
    ResendFromZero(p, s.host.buf, ManifestOf(p.cc, s.client.buf));
    assert WellFormed(p.dc, s.host.buf) && AnswerFits(p, s);
    hide Inv, Resend, HelloFits, Hellos.Fits;
    var a := Reconnect(p, s);
    LeadsWider(p, s, a, Uncut, Any);
    LeadsStep(p, s, a, Deliver, Any);
    s' := Apply(p, a, Deliver);
    LeadsKeeps(p, s, s', Any);
  }

  lemma FreshFits(p: Params)
    requires p.Ok()
    ensures HelloFits(p, FreshClient)
  {
  }

  /** A client that takes a small frame exactly where it stands owes no acknowledgement for it yet. */
  lemma SmallFrame(c: Config, k: Client, x: seq<byte>)
    requires k.acked == |k.buf.stream| && 0 < |x| <= Streaming.SEND_SIZE
    ensures Received(c, k, |k.buf.stream|, x) == (Absorbed(c, k, x), None)
    ensures Absorbed(c, k, x).buf.stream == k.buf.stream + x && Absorbed(c, k, x).term == k.term + x
    ensures Absorbed(c, k, x).acked == k.acked
  {
    hide ScanFrom;
    var n := |k.buf.stream|;
    assert x[n - n..] == x && NewBytes(n, n, x) == Some(x);
  }

  /** The last piece sent to such a client, and taken. */
  lemma LastFrame(p: Params, s: Sys)
    requires p.Ok() && s.fate.Running? && CanStream(s) && s.link.attached && s.link.down == [] && s.link.up == []
    requires s.link.stage.cursor == s.client.acked == Len(s) < |s.host.buf.stream| <= Len(s) + Streaming.SEND_SIZE
    requires s.host.buf.trim <= Len(s)
    ensures var k := Absorbed(p.cc, s.client, s.host.buf.stream[Len(s)..]);
            && Enabled(p, s, SendFrame) && Enabled(p, Apply(p, s, SendFrame), Deliver)
            && Apply(p, Apply(p, s, SendFrame), Deliver) ==
               s.(client := k, link := Up(Sending(|s.host.buf.stream|, Open), [], [], true, |s.host.buf.stream|, s.link.greeted))
  {
    var all, n := s.host.buf.stream, Len(s);
    var x := Streaming.Piece(all, n);
    assert x == all[n..];
    SmallFrame(p.cc, s.client, x);
    hide Absorbed, Received, ScanFrom;
    var a := Apply(p, s, SendFrame);
    assert a.link.down == [Output(n, x)] && a.link.down[1..] == [];
    assert a.link.up + Ack(None) == [];
  }

  /** One frame sent and taken by a client that stands where it starts. */
  lemma TakeFrame(p: Params, s: Sys) returns (s': Sys)
    requires Inv(p, s) && s.fate.Running? && CanStream(s) && s.link.attached && s.link.down == [] && s.link.up == []
    requires s.link.stage.cursor == s.client.acked == Len(s) < |s.host.buf.stream| <= Len(s) + Streaming.SEND_SIZE
    requires s.host.buf.trim <= Len(s)
    ensures Leads(p, s, s', Any) && Inv(p, s') && s' == s.(link := s'.link, client := s'.client)
    ensures s'.link == Up(Sending(|s.host.buf.stream|, Open), [], [], true, |s.host.buf.stream|, s.link.greeted)
    ensures s'.client.buf.stream == s.host.buf.stream && s'.client.acked == s.client.acked
    ensures s'.client.term == s.client.term + s.host.buf.stream[Len(s)..]
  {
    var all, n := s.host.buf.stream, Len(s);
    assert s.client.buf.stream + all[n..] == all && p.Ok();
    LastFrame(p, s);
    SmallFrame(p.cc, s.client, all[n..]);
    hide Inv, Apply, Enabled, Absorbed, Received;
    LeadsTwo(p, s, SendFrame, Deliver, Any);
    s' := Apply(p, Apply(p, s, SendFrame), Deliver);
    LeadsKeeps(p, s, s', Any);
  }

  /** A program enters alt-screen before anybody is attached; the client shows its sequence twice. */
  lemma ResyncShowsTwice(p: Params) returns (s: Sys)
    requires p.Ok() && 8 < p.dc.chunkSize
    ensures Leads(p, Start, s, Any) && s.client.buf.stream == Produced(s.host) == ENTER_ALT
    ensures s.client.term == ENTER_ALT + ENTER_ALT
  {
    Feed(p, ENTER_ALT);
    FreshFits(p);
    EnterAltEnters();
    var a := Attach(p, Fed(p, ENTER_ALT));
    LeadsTrans(p, Start, Fed(p, ENTER_ALT), a, Any);
    assert a.client.term == [] + ENTER_ALT == ENTER_ALT && ENTER_ALT[0..] == ENTER_ALT;
    hide Inv, Leads, InAlt, ScanFrom, HelloFits;
    s := TakeFrame(p, a);
    LeadsTrans(p, Start, a, s, Any);
  }

  lemma EnterAltEnters()
    ensures InAlt(ENTER_ALT)
  {
    StrayEscapeHides();
    assert ENTER_ALT == Sequence([0x31, 0x30, 0x34, 0x39], LOWER_H);
  }

  /** A client that has taken everything and loses its connection with its ACK under way. */
  lemma CutWithAck(p: Params, x: seq<byte>) returns (s: Sys)
    requires p.Ok() && 0 < |x| <= Streaming.SEND_SIZE && |x| < p.dc.chunkSize
    ensures Leads(p, Start, s, Any) && Inv(p, s) && s.fate.Running? && s.link.Down? && s.late == [|x|] && s.strays == [StrayAttach]
    ensures s.client.buf.stream == x && s.host == Fed(p, x).host
  {
    Feed(p, x);
    FreshFits(p);
    var a := Attach(p, Fed(p, x));
    LeadsTrans(p, Start, Fed(p, x), a, Any);
    hide Inv, Leads, InAlt, ScanFrom;
    var b := TakeFrame(p, a);
    LeadsTrans(p, Start, a, b, Any);
    s := AckAndDrop(p, b);
    LeadsTrans(p, Start, b, s, Any);
  }

  lemma AckAndDrop(p: Params, b: Sys) returns (s: Sys)
    requires Inv(p, b) && b.fate.Running? && b.host.Live? && b.link.Up? && b.link.stage.Sending? && b.link.attached
    requires b.late == [] && b.link.up == [] && b.client.acked < Len(b)
    ensures Leads(p, b, s, Any) && Inv(p, s) && s.fate.Running? && s.link.Down? && s.late == [Len(b)]
    ensures s.strays == b.strays + [StrayAttach] && s.host == b.host && s.client.buf == b.client.buf
  {
    assert p.Ok();
    hide Inv;
    LeadsTwo(p, b, IdleAck, Drop, Any);
    s := Apply(p, Apply(p, b, IdleAck), Drop);
    LeadsKeeps(p, b, s, Any);
  }

  /**
   A late ACK costs the client output. The shell has produced `x` and the client has it all, when the
   link drops with its ACK under way. One more byte, a reconnect, and only then is the old ACK read:
   the streamer gives up, the shell exits, and EXIT reaches a client that never sees the last byte.
   */
  lemma LateAckLosesOutput(p: Params, x: seq<byte>, z: byte) returns (s: Sys)
    requires p.Ok() && 0 < |x| <= Streaming.SEND_SIZE && |x| + 1 < p.dc.chunkSize
    ensures Leads(p, Start, s, Any)
    ensures s.fate.Exited? && Produced(s.host) == x + [z] && s.client.buf.stream == x
  {
    var a := CutWithAck(p, x);
    assert |ManifestOf(p.cc, a.client.buf).hashes| == 0 by {
      YoungManifest(p, a);
    }
    LeadsStep(p, Start, a, Pump([z]), Any);
    var b := Apply(p, a, Pump([z]));
    LeadsKeeps(p, Start, b, Any);
    var c := Attach(p, b);
    LeadsTrans(p, Start, b, c, Any);
    s := Overtaken(p, c);
    LeadsTrans(p, Start, c, s, Any);
  }

  /** A client with less than a chunk sends no digests. */
  lemma YoungManifest(p: Params, s: Sys)
    requires Inv(p, s) && Len(s) < p.cc.chunkSize
    ensures |ManifestOf(p.cc, s.client.buf).hashes| == 0 && HelloFits(p, s.client)
  {
  }

  lemma Overtaken(p: Params, c: Sys) returns (s: Sys)
    requires Inv(p, c) && c.fate.Running? && c.link.Up? && c.link == Up(Sending(0, Open), [], [], true, 0, c.link.greeted) && c.host.Live?
    requires |c.late| == 1 && 0 < c.late[0] && Len(c) < |c.host.buf.stream|
    ensures Leads(p, c, s, Any) && s.fate.Exited? && Produced(s.host) == Produced(c.host) && s.client == c.client
  {
    var d := LateAckStarves(p, c, 0);
    LeadsWider(p, c, d, Uncut, Any);
    hide Inv, Leads;
    s := ExitAnyway(p, d);
    LeadsTrans(p, c, d, s, Any);
  }

  /** A starved streamer does not keep the daemon from writing EXIT once the shell has exited. */
  lemma ExitAnyway(p: Params, d: Sys) returns (s: Sys)
    requires p.Ok() && d.fate.Running? && d.host.Live? && d.link.Up? && d.link == Up(Sending(0, Starved), [], [], true, 0, d.link.greeted)
    ensures Leads(p, d, s, Any) && s.fate.Exited? && Produced(s.host) == Produced(d.host) && s.client == d.client
  {
    LeadsTwo(p, d, Seal, SendExit, Any);
    var e := Apply(p, Apply(p, d, Seal), SendExit);
    assert e.link.down == [Exit];
    LeadsStep(p, d, e, Deliver, Any);
    s := Apply(p, e, Deliver);
  }

  // ----- Replays -----

  /** A session preserved after `x` with none of it acknowledged; a new client process knows its id. */
  function Shelved(p: Params, x: seq<byte>): Sys
    requires p.Ok()
  {
    Start.(host := Kept(x, TileInfos(x, 0, p.dc.segmentSize)))
  }

  /** The shell has exited and the daemon no longer listens. */
  lemma Close(p: Params, s: Sys) returns (s': Sys)
    requires p.Ok() && s.host.Live? && s.host.open
    ensures Leads(p, s, s', Any) && s' == s.(host := s.host.(sealed := true, open := false))
  {
    LeadsTwo(p, s, Seal, CloseListener, Any);
    s' := Apply(p, Apply(p, s, Seal), CloseListener);
  }

  lemma Shelve(p: Params, x: seq<byte>)
    requires p.Ok() && 0 < |x| < U64
    ensures Leads(p, Start, Shelved(p, x), Any) && Inv(p, Shelved(p, x)) && Reachable(Shelved(p, x).host)
  {
    Feed(p, x);
    var b := Close(p, Fed(p, x));
    hide Inv, ScanFrom, InAlt, Leads, Enabled;
    LeadsTrans(p, Start, Fed(p, x), b, Any);
    ShelveNow(p, x, b);
    LeadsStep(p, Start, b, Preserve, Any);
    LeadsKeeps(p, Start, Shelved(p, x), Any);
  }

  lemma ShelveNow(p: Params, x: seq<byte>, b: Sys)
    requires p.Ok() && 0 < |x| && b == Fed(p, x).(host := Fed(p, x).host.(sealed := true, open := false))
    ensures Enabled(p, b, Preserve) && Apply(p, b, Preserve) == Shelved(p, x) && Reachable(Shelved(p, x).host)
  {
    hide ScanFrom, InAlt;
  }

  /** A replay daemon that has greeted its client and lost the connection to it right after. */
  lemma Abandon(p: Params, x: seq<byte>) returns (s: Sys)
    requires p.Ok() && 0 < |x| < U64
    ensures Leads(p, Start, s, Any) && Inv(p, s) && |s.strays| == 1 && s == Shelved(p, x).(strays := s.strays)
  {
    Shelve(p, x);
    FreshFits(p);
    hide Inv, TileInfos, HelloFits;
    s := AbandonOne(p, Shelved(p, x));
    LeadsTrans(p, Start, Shelved(p, x), s, Any);
    LeadsKeeps(p, Start, s, Any);
  }

  lemma AbandonOne(p: Params, a: Sys) returns (s: Sys)
    requires p.Ok() && a.fate.Running? && a.link.Down? && a.host.Kept? && Reachable(a.host) && HelloFits(p, a.client)
    requires a.client.acked == Len(a)
    ensures Leads(p, a, s, Any) && |s.strays| == |a.strays| + 1 && s == a.(strays := s.strays)
  {
    hide HelloFits, ManifestOf;
    LeadsTwo(p, a, Connect, ReplayAccept, Any);
    var b := Apply(p, Apply(p, a, Connect), ReplayAccept);
    s := GreetAndDrop(p, b);
    LeadsTrans(p, a, b, s, Any);
  }

  lemma GreetAndDrop(p: Params, b: Sys) returns (s: Sys)
    requires p.Ok() && b.fate.Running? && b.link.Up? && b.link.stage.Replaying? && b.host.Kept? && b.client.acked == Len(b)
    requires b.link.down == [HelloAck(false, 0)] && b.link.up == []
    ensures Leads(p, b, s, Any) && s == b.(link := Down, strays := b.strays + [StraySending(b.link.stage.replay)])
  {
    LeadsTwo(p, b, Deliver, Drop, Any);
    s := Apply(p, Apply(p, b, Deliver), Drop);
    assert b.late + [] == b.late;
  }

  /**
   A replay deletes what it was to deliver: cut right after HELLO_ACK, it goes on writing into the dead
   connection, gets as far as EXIT and removes the files. The client never gets any of it.
   */
  lemma AbandonedReplayDeletes(p: Params, x: seq<byte>) returns (s: Sys)
    requires p.Ok() && 0 < |x| < U64
    ensures Leads(p, Start, s, Any) && Produced(s.host) == x && s.client == FreshClient && s.fate.Running?
    ensures s.host.Gone? && !Recoverable(p, s)
  {
    var a := Abandon(p, x);
    s := StrayRemoves(p, a, 0);
    LeadsKeeps(p, a, s, StrayStep);
    LeadsWider(p, a, s, StrayStep, Any);
    LeadsTrans(p, Start, a, s, Any);
    RecoverableIff(p, s);
  }

  /** Cut before HELLO_ACK has arrived it deletes them too, and the client has given up. */
  lemma UnheardReplayDeletes(p: Params, x: seq<byte>) returns (s: Sys)
    requires p.Ok() && 0 < |x| < U64
    ensures Leads(p, Start, s, Any) && s.host == Gone(x) && s.client == FreshClient && s.fate.GaveUp?
  {
    Shelve(p, x);
    FreshFits(p);
    var a := Shelved(p, x);
    hide Inv, TileInfos, HelloFits, Leads;
    var b := CutInHello(p, a);
    LeadsTrans(p, Start, a, b, Any);
    LeadsKeeps(p, Start, b, Any);
    s := StrayRemoves(p, b, 0);
    LeadsWider(p, b, s, StrayStep, Any);
    LeadsTrans(p, Start, b, s, Any);
  }

  lemma CutInHello(p: Params, a: Sys) returns (b: Sys)
    requires p.Ok() && a.fate.Running? && a.link.Down? && a.host.Kept? && Reachable(a.host) && HelloFits(p, a.client)
    ensures Leads(p, a, b, Any) && b.strays != [] && b == a.(strays := b.strays, fate := GaveUp)
  {
    hide HelloFits, ManifestOf;
    LeadsTwo(p, a, Connect, Drop, Any);
    b := Apply(p, Apply(p, a, Connect), Drop);
    assert a.late + [] == a.late;
  }

  /**
   Two replays at once: the first was abandoned after HELLO_ACK, the second has greeted the client, and
   the first removes the files. EXIT reaches a client that has nothing; no streamer was starved.
   */
  lemma SecondReplayLoses(p: Params, x: seq<byte>) returns (s: Sys)
    requires p.Ok() && 0 < |x| < U64
    ensures Leads(p, Start, s, Any) && s.fate.Exited? && Produced(s.host) == x && s.client.buf.stream == []
    ensures s.link.Up? && s.link.stage.Finished? && s.link.stage.ending.Failed?
  {
    var a := Abandon(p, x);
    FreshFits(p);
    assert Reachable(a.host) by {
      Shelve(p, x);
    }
    hide Inv, TileInfos, HelloFits, Leads;
    var b := SecondReplay(p, a);
    LeadsTrans(p, Start, a, b, Any);
    LeadsKeeps(p, Start, b, Any);
    CanOpen(p, b);
    s := FilesGone(p, b);
    LeadsTrans(p, Start, b, s, Any);
  }

  lemma SecondReplay(p: Params, a: Sys) returns (b: Sys)
    requires p.Ok() && a.fate.Running? && a.link.Down? && a.host.Kept? && Reachable(a.host) && HelloFits(p, a.client)
    ensures Leads(p, a, b, Any) && b == a.(link := b.link) && b.link.Up? && b.link.down == [HelloAck(false, 0)]
    ensures b.link.stage == Replaying(Streaming.StartReplay(a.host.segs, Len(a)))
  {
    hide HelloFits;
    LeadsTwo(p, a, Connect, ReplayAccept, Any);
    b := Apply(p, Apply(p, a, Connect), ReplayAccept);
  }

  /** A replay for a client that has nothing starts by opening a file. */
  lemma CanOpen(p: Params, b: Sys)
    requires Inv(p, b) && b.host.Kept? && b.link.Up? && b.link.stage == Replaying(Streaming.StartReplay(b.host.segs, 0))
    requires b.host.segs != []
    ensures Streaming.CanMove(b.link.stage.replay, Streaming.Open)
  {
    HoldsTail(b.host.segs, b.host.all, 0);
  }

  lemma FilesGone(p: Params, b: Sys) returns (s: Sys)
    requires Inv(p, b) && b.host.Kept? && b.strays != [] && b.link.Up? && b.link.stage.Replaying? && b.fate.Running?
    requires |b.link.down| == 1 && b.link.down[0].HelloAck? && Streaming.CanMove(b.link.stage.replay, Streaming.Open)
    ensures Leads(p, b, s, Any) && s.fate.Exited? && s.link.Up? && s.link.stage.Finished? && s.link.stage.ending.Failed?
    ensures Produced(s.host) == Produced(b.host) && s.client.buf == b.client.buf
  {
    assert p.Ok();
    var c := StrayRemoves(p, b, 0);
    LeadsWider(p, b, c, StrayStep, Any);
    hide Inv, Leads;
    s := OpenFails(p, c);
    LeadsTrans(p, b, c, s, Any);
  }

  lemma OpenFails(p: Params, c: Sys) returns (s: Sys)
    requires p.Ok() && c.host.Gone? && c.link.Up? && c.link.stage.Replaying? && c.fate.Running?
    requires |c.link.down| == 1 && c.link.down[0].HelloAck? && Streaming.CanMove(c.link.stage.replay, Streaming.Open)
    ensures Leads(p, c, s, Any) && s.fate.Exited? && s.link.Up? && s.link.stage.Finished? && s.link.stage.ending.Failed?
    ensures Produced(s.host) == Produced(c.host) && s.client.buf == c.client.buf
  {
    LeadsSelf(p, c, Any);
    LeadsStep(p, c, c, ReplayFail, Any);
    var d := Apply(p, c, ReplayFail);
    assert d.link.down == [c.link.down[0], Exit];
    s := TakeTwo(p, d);
    LeadsWider(p, d, s, Uncut, Any);
    LeadsTrans(p, c, d, s, Any);
  }

  // ----- The end of a daemon -----

  /** EXIT written and the session removed while the output is still on its way. */
  lemma WrittenNotSeen(p: Params, x: seq<byte>) returns (s: Sys)
    requires p.Ok() && 0 < |x| <= Streaming.SEND_SIZE && |x| < p.dc.chunkSize
    ensures Leads(p, Start, s, Any) && Inv(p, s) && s.host == Gone(x) && s.link.Up? && s.link.stage == Finished(|x|, Drained)
    ensures s.fate.Running? && s.client.buf.stream == []
    ensures !Recoverable(p, Apply(p, s, Drop))
  {
    Feed(p, x);
    FreshFits(p);
    var a := Attach(p, Fed(p, x));
    hide Inv, Leads, ScanFrom, InAlt, HelloFits;
    LeadsTrans(p, Start, Fed(p, x), a, Any);
    s := ExitUnseen(p, a);
    LeadsTrans(p, Start, a, s, Any);
    CutWhenGone(p, s);
  }

  /** A cut after the session is gone is final for a client that lacks anything. */
  lemma CutWhenGone(p: Params, s: Sys)
    requires Inv(p, s) && s.fate.Running? && s.host.Gone? && s.link.Up? && s.link.attached && Len(s) < |Produced(s.host)|
    ensures Enabled(p, s, Drop) && !Recoverable(p, Apply(p, s, Drop))
  {
    StepKeeps(p, s, Drop);
    hide Inv, HelloFits, Recoverable;
    assert p.Ok();
    RecoverableIff(p, Apply(p, s, Drop));
  }

  lemma ExitUnseen(p: Params, a: Sys) returns (s: Sys)
    requires Inv(p, a) && a.fate.Running? && a.link.Up? && a.link == Up(Sending(0, Open), [], [], true, 0, a.link.greeted)
    requires a.host.Live? && a.host.open && !a.host.exit && a.host.buf.trim == 0 && a.strays == []
    requires 0 < |a.host.buf.stream| <= Streaming.SEND_SIZE
    ensures Leads(p, a, s, Any) && Inv(p, s) && s.host == Gone(a.host.buf.stream) && s.client == a.client && s.fate.Running?
    ensures s.link.Up? && s.link.attached && s.link.stage == Finished(|a.host.buf.stream|, Drained)
  {
    assert p.Ok();
    hide Inv;
    LeadsTwo(p, a, SendFrame, Seal, Any);
    var b := Apply(p, Apply(p, a, SendFrame), Seal);
    s := WriteExitAndGo(p, b);
    LeadsTrans(p, a, b, s, Any);
    LeadsKeeps(p, a, s, Any);
  }

  lemma WriteExitAndGo(p: Params, b: Sys) returns (s: Sys)
    requires p.Ok() && CanStream(b) && b.link.attached && b.host.sealed && b.link.stage.cursor == |b.host.buf.stream| && b.host.open && b.strays == []
    ensures Leads(p, b, s, Any) && s == b.(host := Gone(b.host.buf.stream), link := s.link)
    ensures s.link.Up? && s.link.attached && s.link.stage == Finished(|b.host.buf.stream|, Drained)
  {
    LeadsTwo(p, b, Drain, SendExit, Any);
    var c := Apply(p, Apply(p, b, Drain), SendExit);
    s := CloseAndRemove(p, c);
    LeadsTrans(p, b, c, s, Any);
  }

  lemma CloseAndRemove(p: Params, c: Sys) returns (s: Sys)
    requires p.Ok() && c.host.Live? && c.host.sealed && c.host.exit && c.host.open && Unattended(c)
    ensures Leads(p, c, s, Any) && s == c.(host := Gone(c.host.buf.stream))
  {
    LeadsTwo(p, c, CloseListener, Remove, Any);
    s := Apply(p, Apply(p, c, CloseListener), Remove);
  }

  /**
   A reconnect in the moment between a daemon's last `Accept` and its end finds nobody to answer: the
   client gives up, although everything it lacks is preserved right after.
   */
  lemma TurnedAwayWhileClosing(p: Params, x: seq<byte>) returns (s: Sys)
    requires p.Ok() && 0 < |x| < U64
    ensures Leads(p, Start, s, Any) && s.fate.GaveUp? && s.client == FreshClient
    ensures s.host.Kept? && Holds(s.host.segs, x, 0)
  {
    Feed(p, x);
    var b := Close(p, Fed(p, x));
    LeadsTrans(p, Start, Fed(p, x), b, Any);
    hide Inv, ScanFrom, InAlt, Leads;
    s := TurnedAway(p, b);
    LeadsTrans(p, Start, b, s, Any);
    ShelvedHolds(p, s, x);
  }

  lemma TurnedAway(p: Params, b: Sys) returns (s: Sys)
    requires p.Ok() && b.fate.Running? && b.link.Down? && b.strays == []
    requires b.host.Live? && b.host.sealed && !b.host.open && !b.host.exit
    ensures Leads(p, b, s, Any) && s.fate.GaveUp? && s.client == b.client
    ensures s.host == Kept(b.host.buf.stream, TileInfos(b.host.buf.stream, b.host.buf.base, p.dc.segmentSize))
  {
    hide TileInfos;
    LeadsTwo(p, b, Connect, Preserve, Any);
    s := Apply(p, Apply(p, b, Connect), Preserve);
  }

  lemma ShelvedHolds(p: Params, s: Sys, x: seq<byte>)
    requires p.Ok() && Leads(p, Start, s, Any) && s.host.Kept? && s.host.all == x && s.client == FreshClient
    ensures Holds(s.host.segs, x, 0)
  {
    StartOk(p);
    LeadsKeeps(p, Start, s, Any);
  }

  // ----- A client that has seen too much -----

  lemma StepKeepsHost(p: Params, s: Sys, t: Step)
    requires p.Ok() && Enabled(p, s, t) && Progress(t) && s.host.Live? && !s.host.sealed
    ensures Apply(p, s, t).host == s.host
  {
    hide Resend, HashesFrom, Hellos.Fits, Received, Greeted, Streaming.Moved, Streaming.Sent, Streaming.CanMove;
  }

  lemma {:induction false} StaysUnsealed(p: Params, s: Sys, ts: seq<Step>, s': Sys)
    requires p.Ok() && Run(p, s, ts, s') && All(ts, Progress) && s.host.Live? && !s.host.sealed
    ensures s'.host == s.host
    decreases |ts|
  {
    if ts != [] {
      assert Progress(ts[0]);
      StepKeepsHost(p, s, ts[0]);
      hide Enabled, Apply;
      StaysUnsealed(p, Apply(p, s, ts[0]), ts[1..], s');
    }
  }

  /** A live attach that is left alone brings the client up to date. */
  lemma CatchUp(p: Params, s: Sys) returns (s': Sys)
    requires Inv(p, s) && s.fate.Running? && CanStream(s) && !s.host.sealed && s.late == [] && Punctual(s)
    ensures Leads(p, s, s', Any) && Inv(p, s') && s'.host == s.host && s'.fate.Running? && s'.link.Up? && s'.link.attached
    ensures s'.client.buf.stream == s.host.buf.stream
  {
    assert p.Ok();
    s' := AttemptEnds(p, s);
    var ts: seq<Step> :| Run(p, s, ts, s') && All(ts, Progress);
    LeadsWider(p, s, s', Progress, Any);
    hide Enabled, Apply, Leads;
    RunKeeps(p, s, ts, s');
    StaysUnsealed(p, s, ts, s');
    StaysPast(p, s, ts, s');
    assert All(ts, Uncut);
    StaysOpen(p, s, ts, s');
    ProgressOrderly(p, s, ts, s');
    OrderlyRuns(p, s, ts, s');
    WaitingHasAll(p, s');
  }

  lemma WaitingHasAll(p: Params, s: Sys)
    requires Inv(p, s) && Punctual(s) && Over(p, s) && s.link.Up? && !Handshaking(s.link.stage) && !s.link.stage.Closed?
    requires s.host.Live? && !s.host.sealed
    ensures s.fate.Running? && s.link.attached && s.client.buf.stream == s.host.buf.stream
  {
    hide ScanFrom, InAlt, WithResyncs;
  }

  /** Once its digests fill a frame, a client that loses its connection can never get another byte. */
  lemma OversizeHelloStrands(p: Params, x: seq<byte>, z: byte) returns (s: Sys)
    requires p.Ok() && 0 < |x| && |x| + 1 < U64 && !Hellos.Fits(p.idLen, Div(|x|, p.dc.chunkSize))
    ensures Leads(p, Start, s, Any) && s.client.buf.stream == x && Produced(s.host) == x + [z]
    ensures s.fate.Running? && s.host.Live? && s.host.sealed && s.host.open && !Recoverable(p, s)
  {
    var d := SeenAll(p, x);
    hide Leads, Recoverable;
    s := LoseIt(p, d, z);
    LeadsTrans(p, Start, d, s, Any);
  }

  lemma SeenAll(p: Params, x: seq<byte>) returns (d: Sys)
    requires p.Ok() && 0 < |x| < U64
    ensures Leads(p, Start, d, Any) && Inv(p, d) && d.fate.Running? && d.link.Up? && d.link.attached && d.client.buf.stream == x
    ensures d.host == Fed(p, x).host
  {
    Feed(p, []);
    FreshFits(p);
    var a := Attach(p, Fed(p, []));
    LeadsTrans(p, Start, Fed(p, []), a, Any);
    hide Inv, Leads;
    StepKeeps(p, a, Pump(x));
    LeadsStep(p, Start, a, Pump(x), Any);
    var b := Apply(p, a, Pump(x));
    assert [] + x == x && ScanFrom(Fresh, []) == (Fresh, Quiet);
    d := CatchUp(p, b);
    LeadsTrans(p, Start, b, d, Any);
  }

  lemma LoseIt(p: Params, d: Sys, z: byte) returns (s: Sys)
    requires Inv(p, d) && d.fate.Running? && d.link.Up? && d.link.attached && d.host.Live? && !d.host.sealed && d.host.open
    requires d.client.buf.stream == d.host.buf.stream && |d.host.buf.stream| + 1 < U64
    requires !Hellos.Fits(p.idLen, Div(Len(d), p.dc.chunkSize))
    ensures Leads(p, d, s, Any) && s.client == d.client && Produced(s.host) == d.host.buf.stream + [z]
    ensures s.fate.Running? && s.host.Live? && s.host.sealed && s.host.open && !Recoverable(p, s)
  {
    assert p.Ok() && !HelloFits(p, d.client) by {
      ManifestReaches(p.cc, d.client.buf);
    }
    hide Inv, HelloFits, ScanFrom, Recoverable;
    LeadsTwo(p, d, Drop, Pump([z]), Any);
    var e := Apply(p, Apply(p, d, Drop), Pump([z]));
    LeadsStep(p, d, e, Seal, Any);
    s := Apply(p, e, Seal);
    LeadsKeeps(p, d, s, Any);
    RecoverableIff(p, s);
  }
}
