/** What the delivery protocol guarantees, over every run. */
module Theorems {
  import opened Bytes
  import opened History
  import opened AltScreen
  import opened Chunks
  import opened Clients
  import opened SegmentFiles
  import opened Delivery
  import opened Invariant
  import Hellos
  import Streaming
  import Proto

  lemma AttachStepKeeps(p: Params, s: Sys, t: Step)
    requires Inv(p, s) && Enabled(p, s, t)
    requires t.Connect? || t.ReadTotal? || t.ReadFirst? || t.ReadHashes? || t.Accept? || t.SendFrame? || t.SendExit?
             || t.Deliver? || t.IdleAck?
    ensures Inv(p, Apply(p, s, t))
  {
    assert p.Ok();
    hide *;
    if t.Connect? {
      ConnectKeeps(p, s);
    } else if t.Accept? {
      AcceptKeeps(p, s);
    } else if t.SendFrame? {
      SendFrameKeeps(p, s);
    } else if t.SendExit? {
      SendExitKeeps(p, s);
    } else if t.Deliver? {
      DeliverKeeps(p, s);
    } else if t.IdleAck? {
      IdleAckKeeps(p, s);
    } else {
      HandshakeKeeps(p, s, t);
    }
  }

  lemma ReplayStepKeeps(p: Params, s: Sys, t: Step)
    requires Inv(p, s) && Enabled(p, s, t)
    requires t.ReplayAccept? || t.ReplayMove? || t.ReplayFail? || t.ReplayExit?
    ensures Inv(p, Apply(p, s, t))
  {
    assert p.Ok();
    hide *;
    if t.ReplayAccept? {
      ReplayAcceptKeeps(p, s);
    } else if t.ReplayMove? {
      ReplayMoveKeeps(p, s, t.m);
    } else {
      ReplayEndKeeps(p, s, t);
    }
  }

  /** Acknowledgements, cuts, and the end of a daemon. */
  lemma OtherStepKeeps(p: Params, s: Sys, t: Step)
    requires Inv(p, s) && Enabled(p, s, t)
    requires t.ProcessAck? || t.LateAck? || t.LoseAck? || t.Drop? || t.Preserve?
             || t.Remove? || t.Abort? || t.ReplayRemove?
    ensures Inv(p, Apply(p, s, t))
  {
    assert p.Ok();
    hide *;
    if t.ProcessAck? {
      ProcessAckKeeps(p, s);
    } else if t.LateAck? {
      LateAckKeeps(p, s, t.i);
    } else if t.LoseAck? {
      LoseAckKeeps(p, s, t.i);
    } else if t.Drop? {
      DropKeeps(p, s);
    } else if t.Preserve? {
      PreserveKeeps(p, s);
    } else {
      RemoveKeeps(p, s, t);
    }
  }

  lemma StrayStepKeeps(p: Params, s: Sys, t: Step)
    requires Inv(p, s) && Enabled(p, s, t) && (t.StrayEnds? || t.StrayGreets? || t.StrayMoves? || t.StrayReplayEnds?)
    ensures Inv(p, Apply(p, s, t))
  {
    assert p.Ok();
    hide *;
    if t.StrayEnds? {
      StrayEndsKeeps(p, s, t.i);
    } else if t.StrayGreets? {
      StrayGreetsKeeps(p, s, t.i);
    } else if t.StrayMoves? {
      StrayMovesKeeps(p, s, t.i, t.m);
    } else {
      StrayReplayEndsKeeps(p, s, t);
    }
  }

  lemma StepKeeps(p: Params, s: Sys, t: Step)
    requires Inv(p, s) && Enabled(p, s, t)
    ensures Inv(p, Apply(p, s, t))
  {
    assert p.Ok();
    hide *;
    if t.Pump? {
      PumpKeeps(p, s, t.p);
    } else if t.ReplayAccept? || t.ReplayMove? || t.ReplayFail? || t.ReplayExit? {
      ReplayStepKeeps(p, s, t);
    } else if t.Connect? || t.ReadTotal? || t.ReadFirst? || t.ReadHashes? || t.Accept? || t.SendFrame? || t.SendExit?
              || t.Deliver? || t.IdleAck? {
      AttachStepKeeps(p, s, t);
    } else if t.StrayEnds? || t.StrayGreets? || t.StrayMoves? || t.StrayReplayEnds? {
      StrayStepKeeps(p, s, t);
    } else if t.Seal? || t.Starve? || t.Drain? || t.HangUp? || t.CloseListener? || t.StrayExit? {
      if t.Starve? || t.Drain? || t.HangUp? {
        SenderKeeps(p, s, t);
      } else {
        FlagKeeps(p, s, t);
      }
    } else {
      OtherStepKeeps(p, s, t);
    }
  }

  lemma DeliverKeeps(p: Params, s: Sys)
    requires Inv(p, s) && Enabled(p, s, Deliver)
    ensures Inv(p, Apply(p, s, Deliver))
  {
    assert p.Ok() && s.link.down != [];
    hide Apply, Inv, Enabled;
    match s.link.down[0]
    case HelloAck(_, _) => GreetKeeps(p, s);
    case Output(_, _) => OutputKeeps(p, s);
    case Exit => ExitKeeps(p, s);
  }

  lemma {:induction false} RunKeeps(p: Params, s: Sys, ts: seq<Step>, s': Sys)
    requires Inv(p, s) && Run(p, s, ts, s')
    ensures Inv(p, s')
    decreases |ts|
  {
    assert p.Ok();
    hide Enabled, Apply, Inv;
    if ts != [] {
      StepKeeps(p, s, ts[0]);
      RunKeeps(p, Apply(p, s, ts[0]), ts[1..], s');
    }
  }

  /** Every reachable state satisfies the invariant. */
  lemma Reached(p: Params, ts: seq<Step>, s: Sys)
    requires p.Ok() && Run(p, Start, ts, s)
    ensures Inv(p, s)
  {
    StartOk(p);
    RunKeeps(p, Start, ts, s);
  }

  // ----- Safety -----

  /**
   Exactly-once delivery. In every run from the start, whatever connections were cut, whatever was
   lost in flight and however late acknowledgements arrive, the client has received a prefix of what
   the shell produced, each byte once and in order; the terminal has been fed that prefix with an
   alt-screen sequence inserted at each resync; and what the client lacks is neither trimmed nor
   missing from preserved files.
   */
  lemma ExactlyOnce(p: Params, ts: seq<Step>, s: Sys)
    requires p.Ok() && Run(p, Start, ts, s)
    ensures Len(s) <= |Produced(s.host)| && s.client.buf.stream == Produced(s.host)[..Len(s)]
    ensures s.client.term == WithResyncs(Produced(s.host)[..Len(s)], s.client.resyncs)
    ensures s.host.Live? ==> s.host.buf.trim <= Len(s)
    ensures s.host.Kept? ==> Holds(s.host.segs, s.host.all, Len(s))
  {
    Reached(p, ts, s);
    hide ScanFrom, InAlt, Covers, Flow, WithResyncs;
  }

  /** The step takes a HELLO_ACK that finds the daemon in alt-screen and the terminal not. */
  predicate IsResync(s: Sys, t: Step) {
    t.Deliver? && s.link.Up? && s.link.down != [] && s.link.down[0].HelloAck? && s.link.down[0].alt && !s.client.inAlt
  }

  ghost predicate ResyncFree(p: Params, s: Sys, ts: seq<Step>)
    requires p.Ok()
    decreases |ts|
  {
    ts == [] || (Enabled(p, s, ts[0]) ==> !IsResync(s, ts[0]) && ResyncFree(p, Apply(p, s, ts[0]), ts[1..]))
  }

  lemma StepResyncs(p: Params, s: Sys, t: Step)
    requires p.Ok() && Enabled(p, s, t)
    ensures |Apply(p, s, t).client.resyncs| == |s.client.resyncs| + if IsResync(s, t) then 1 else 0
  {
    hide ScanFrom, InAlt, Trimmed, HashesFrom, Resend, TileInfos;
  }

  lemma {:induction false} RunResyncs(p: Params, s: Sys, ts: seq<Step>, s': Sys)
    requires p.Ok() && Run(p, s, ts, s')
    ensures |s.client.resyncs| <= |s'.client.resyncs|
    ensures |s.client.resyncs| == |s'.client.resyncs| <==> ResyncFree(p, s, ts)
    decreases |ts|
  {
    hide Enabled, Apply, IsResync;
    if ts != [] {
      StepResyncs(p, s, ts[0]);
      RunResyncs(p, Apply(p, s, ts[0]), ts[1..], s');
    }
  }

  /**
   The terminal has been fed the stream and nothing else exactly if no HELLO_ACK found the daemon in
   alt-screen and the client out of it.
   */
  lemma TerminalExactIff(p: Params, ts: seq<Step>, s: Sys)
    requires p.Ok() && Run(p, Start, ts, s)
    ensures Len(s) <= |Produced(s.host)|
    ensures s.client.term == Produced(s.host)[..Len(s)] <==> ResyncFree(p, Start, ts)
    ensures |s.client.term| == Len(s) + 8 * |s.client.resyncs|
  {
    ExactlyOnce(p, ts, s);
    RunResyncs(p, Start, ts, s);
    ResyncsAdd(Produced(s.host)[..Len(s)], s.client.resyncs);
  }

  /** EXIT at the client means everything was received, unless the sender was starved or failed. */
  lemma ExitMeansComplete(p: Params, ts: seq<Step>, s: Sys)
    requires p.Ok() && Run(p, Start, ts, s) && s.fate.Exited?
    ensures s.link.Up? && s.link.stage.Finished?
    ensures s.link.stage.ending.Drained? ==> s.client.buf.stream == Produced(s.host)
    ensures s.client.buf.stream == Produced(s.host) <==> Len(s) == |Produced(s.host)|
  {
    Reached(p, ts, s);
    hide ScanFrom, InAlt, Covers, WithResyncs;
  }

  /** The gap branch is dead: each OUTPUT frame starts exactly where the previous one ended. */
  lemma NoGap(p: Params, ts: seq<Step>, s: Sys)
    requires p.Ok() && Run(p, Start, ts, s)
    requires s.link.Up? && s.link.down != [] && s.link.down[0].Output?
    ensures s.link.down[0].off == s.link.pos <= Len(s)
    ensures Enabled(p, s, Deliver) ==>
              Len(Apply(p, s, Deliver)) == Max(Len(s), s.link.down[0].off + |s.link.down[0].payload|)
  {
    Reached(p, ts, s);
    ArrivalFacts(p, s);
    QueueAdvances(s, s.link.down[0].off, s.link.down[0].payload);
    hide Inv, QueueOk;
    if Enabled(p, s, Deliver) {
      FrameTakes(p, s);
    }
  }

  lemma FrameTakes(p: Params, s: Sys)
    requires Inv(p, s) && Enabled(p, s, Deliver) && s.link.down[0].Output?
    ensures Len(Apply(p, s, Deliver)) == Max(Len(s), ArrivalEnd(s))
  {
    OutputTaken(p, s);
    TakeOutputIs(p, s);
    hide Inv, Take, Arrived, Advanced;
    if Len(s) < ArrivalEnd(s) {
      AdvancedFacts(p.cc, s.client, Arrived(p, s).0, Arrived(p, s).1, Produced(s.host), ArrivalEnd(s));
    }
  }

  /** A drained connection has delivered everything up to the cursor; at a sealed end, everything. */
  lemma DrainedConnection(p: Params, ts: seq<Step>, s: Sys)
    requires p.Ok() && Run(p, Start, ts, s)
    requires s.link.Up? && s.link.attached && s.link.down == []
    ensures !Handshaking(s.link.stage) && Cursor(s.link.stage) <= Len(s) <= |Produced(s.host)|
    ensures s.link.stage.Sending? && s.link.stage.ending.Drained? ==> s.client.buf.stream == Produced(s.host)
  {
    Reached(p, ts, s);
    hide ScanFrom, InAlt, Covers, WithResyncs;
  }

  /** Within an attach no acknowledgement overtakes the streamer, and little is unacknowledged. */
  lemma AcksBehindStreamer(p: Params, ts: seq<Step>, s: Sys)
    requires p.Ok() && Run(p, Start, ts, s) && s.link.Up? && s.link.attached
    ensures !Handshaking(s.link.stage)
    ensures AcksWithin(s.link.up, Min(Cursor(s.link.stage), Len(s)))
    ensures s.client.acked <= Len(s) < s.client.acked + ACK_INTERVAL
  {
    Reached(p, ts, s);
    hide ScanFrom, InAlt, Covers, WithResyncs, Flow;
  }

  /** Both ends agree on alt-screen once the client has caught up with the last forced resync. */
  lemma AltScreenAgrees(p: Params, ts: seq<Step>, s: Sys)
    requires p.Ok() && Run(p, Start, ts, s)
    ensures Len(s) <= |Produced(s.host)|
    ensures s.sync <= Len(s) ==> s.client.inAlt == InAlt(Produced(s.host)[..Len(s)])
    ensures s.host.Live? && Len(s) == |Produced(s.host)| && s.sync <= Len(s) ==> s.client.inAlt == s.host.alt
  {
    Reached(p, ts, s);
    hide ScanFrom, Covers, WithResyncs, Flow, InAlt;
    assert s.client.buf.stream == Produced(s.host)[..Len(s)];
    assert Produced(s.host)[..|Produced(s.host)|] == Produced(s.host);
  }

  /**
   HELLO_ACK tells the truth: its flag is that of the output up to a position of the stream, and one that
   makes the client switch is of a position it has not passed.
   */
  lemma GreetingTells(p: Params, ts: seq<Step>, s: Sys)
    requires p.Ok() && Run(p, Start, ts, s) && s.link.Up? && !s.link.attached && s.link.down != []
    ensures s.link.down[0].HelloAck? && s.link.down[0].at <= |Produced(s.host)|
    ensures s.link.down[0].alt == InAlt(Produced(s.host)[..s.link.down[0].at])
    ensures s.link.down[0].alt ==> Len(s) <= s.link.down[0].at
  {
    Reached(p, ts, s);
    hide ScanFrom, Covers, WithResyncs, Flow, InAlt;
  }

  // ----- Monotonicity -----

  /** The shell has exited, or the daemon has. */
  predicate Ended(h: Host) {
    h.Live? ==> h.sealed
  }

  lemma OthersStay(p: Params, s: Sys, t: Step)
    requires p.Ok() && Enabled(p, s, t) && !t.Pump? && !t.Deliver?
    ensures Apply(p, s, t).client.buf == s.client.buf && Produced(Apply(p, s, t).host) == Produced(s.host)
    ensures Ended(s.host) ==> Ended(Apply(p, s, t).host)
  {
    hide ScanFrom, HashesFrom, Resend, TileInfos, AckedTo, Hellos.Fits, Reachable, HelloFits, ManifestOf, Without;
    hide Streaming.Moved, Streaming.Sent, Streaming.CanMove, Streaming.Finished, Streaming.Piece;
    if t.ProcessAck? {
      AckedStream(p.dc, s.host.buf, s.link.up[0]);
    } else if t.LateAck? {
      AckedStream(p.dc, s.host.buf, s.late[t.i]);
    }
  }

  lemma DeliverGrows(p: Params, s: Sys)
    requires p.Ok() && Enabled(p, s, Deliver)
    requires s.link.down[0].Output? ==> Len(s) <= Len(Take(p, s))
    ensures Apply(p, s, Deliver).host == s.host && Len(s) <= Len(Apply(p, s, Deliver))
  {
    hide Received;
  }

  lemma AckedStream(c: Config, v: View, off: nat)
    ensures AckedTo(c, v, off).stream == v.stream
  {
  }

  /** The stream only grows, and only while it is unsealed; the client never loses a byte. */
  lemma StepGrows(p: Params, s: Sys, t: Step)
    requires Inv(p, s) && Enabled(p, s, t)
    ensures Len(s) <= Len(Apply(p, s, t))
    ensures Produced(s.host) <= Produced(Apply(p, s, t).host)
    ensures Ended(s.host) ==> Produced(Apply(p, s, t).host) == Produced(s.host) && Ended(Apply(p, s, t).host)
  {
    assert p.Ok();
    if t.Deliver? {
      hide Inv, ScanFrom, Received, Apply, Streaming.Moved;
      if s.link.down[0].Output? {
        OutputKeepsClient(p, s);
      }
      DeliverGrows(p, s);
    } else if t.Pump? {
    } else {
      hide Inv, Apply;
      OthersStay(p, s, t);
    }
  }

  /** Once the stream has ended, what the client is missing never grows, across any reconnects and replays. */
  lemma {:induction false} MissingNeverGrows(p: Params, s: Sys, ts: seq<Step>, s': Sys)
    requires Inv(p, s) && Run(p, s, ts, s') && Ended(s.host)
    ensures Produced(s'.host) == Produced(s.host) && Ended(s'.host)
    ensures |Produced(s'.host)| - Len(s') <= |Produced(s.host)| - Len(s)
    decreases |ts|
  {
    assert p.Ok();
    hide Enabled, Apply, Inv;
    if ts != [] {
      StepKeeps(p, s, ts[0]);
      StepGrows(p, s, ts[0]);
      MissingNeverGrows(p, Apply(p, s, ts[0]), ts[1..], s');
    }
  }

  /** No segment files after a clean shutdown means there is nothing left to replay. */
  lemma NoSegmentsNothingMissing(p: Params, ts: seq<Step>, s: Sys)
    requires p.Ok() && Run(p, Start, ts, s) && s.host == Kept(Produced(s.host), [])
    ensures s.client.buf.stream == Produced(s.host)
  {
    ExactlyOnce(p, ts, s);
  }

  // ----- Orderly runs -----

  /** Where an attach about to be accepted would start streaming. */
  function ResendPoint(p: Params, s: Sys): nat
    requires s.host.Live? && s.link.Up? && s.link.stage.GotHashes?
  {
    Max(Resend(s.link.stage.own, s.link.stage.peer, p.dc.chunkSize), s.host.buf.trim)
  }

  /** A replay daemon is serving the client. */
  predicate InReplay(l: Link) {
    l.Up? && (l.stage.ReplayHello? || l.stage.Replaying?)
  }

  /**
   Nothing an earlier connection left behind gets in the way of this step: an attach is accepted only
   when no older acknowledgement still under way lies beyond its start, and no abandoned replay
   daemon removes the files of one in progress.
   */
  ghost predicate OnTime(p: Params, s: Sys, t: Step)
    requires Enabled(p, s, t)
  {
    && (t.Accept? ==> AcksWithin(s.late, ResendPoint(p, s)))
    && (Wipes(s, t) ==> !InReplay(s.link))
  }

  ghost predicate Orderly(p: Params, s: Sys, ts: seq<Step>)
    requires p.Ok()
    decreases |ts|
  {
    ts == [] || (Enabled(p, s, ts[0]) ==> OnTime(p, s, ts[0]) && Orderly(p, Apply(p, s, ts[0]), ts[1..]))
  }

  /** The sender has not been overtaken and nothing can still overtake it. */
  ghost predicate Punctual(s: Sys) {
    s.link.Up? ==>
      match s.link.stage
      case Sending(c, e) => !e.Starved? && s.host.Live? && s.host.buf.trim <= c && AcksWithin(s.late, c)
      case ReplayHello(_, _) => s.host.Kept?
      case Replaying(_) => s.host.Kept?
      case Finished(_, e) => e.Drained?
      case _ => true
  }

  lemma TrimKeepsPunctual(p: Params, s: Sys, t: Step, off: nat)
    requires Inv(p, s) && Punctual(s) && Enabled(p, s, t)
    requires (t.ProcessAck? && off == s.link.up[0]) || (t.LateAck? && off == s.late[t.i])
    ensures Punctual(Apply(p, s, t))
  {
    hide ScanFrom, InAlt, Covers, WithResyncs, Flow;
    TrimmedWellFormed(p.dc, s.host.buf, off);
  }

  /** Steps that leave buffer, late acknowledgements, segment files and the sender's stage alone. */
  lemma AsidePunctual(p: Params, s: Sys, t: Step)
    requires Inv(p, s) && Punctual(s) && Enabled(p, s, t)
    requires t.Seal? || t.Deliver? || t.IdleAck? || t.Drop? || t.LoseAck? || t.StrayExit? || t.StrayEnds? || t.StrayGreets?
             || t.StrayMoves? || t.CloseListener?
    ensures Punctual(Apply(p, s, t))
  {
    assert p.Ok();
    if t.Deliver? {
      hide *;
      TakePunctual(p, s);
    } else if t.LoseAck? {
      hide *;
      LosePunctual(p, s, t.i);
    } else if t.StrayEnds? || t.StrayGreets? || t.StrayMoves? {
      hide *;
      StrayPunctual(p, s, t);
    } else {
      hide Inv;
    }
  }

  lemma StrayPunctual(p: Params, s: Sys, t: Step)
    requires p.Ok() && Punctual(s) && Enabled(p, s, t) && (t.StrayEnds? || t.StrayGreets? || t.StrayMoves?)
    ensures Punctual(Apply(p, s, t))
  {
    hide Streaming.CanMove, Streaming.Moved;
  }

  lemma LosePunctual(p: Params, s: Sys, i: nat)
    requires p.Ok() && Punctual(s) && Enabled(p, s, LoseAck(i))
    ensures Punctual(Apply(p, s, LoseAck(i)))
  {
    if s.link.Up? && s.link.stage.Sending? {
      WithoutOne(s.late, i, s.link.stage.cursor);
      hide Without;
    }
  }

  lemma TakePunctual(p: Params, s: Sys)
    requires p.Ok() && Punctual(s) && Enabled(p, s, Deliver)
    ensures Punctual(Apply(p, s, Deliver))
  {
    hide Received, Greeted;
  }

  lemma HostPunctual(p: Params, s: Sys, t: Step)
    requires p.Ok() && Punctual(s) && Enabled(p, s, t) && OnTime(p, s, t)
    requires t.StrayReplayEnds? || t.Preserve? || t.Remove? || t.Abort? || t.ReplayRemove?
    ensures Punctual(Apply(p, s, t))
  {
    hide TileInfos;
  }

  lemma PumpPunctual(p: Params, s: Sys, x: seq<byte>)
    requires p.Ok() && Punctual(s) && Enabled(p, s, Pump(x))
    ensures Punctual(Apply(p, s, Pump(x)))
  {
    hide ScanFrom;
  }

  /** Steps of the handshake. */
  lemma HandshakePunctual(p: Params, s: Sys, t: Step)
    requires p.Ok() && Punctual(s) && Enabled(p, s, t) && OnTime(p, s, t)
    requires t.Connect? || t.ReadTotal? || t.ReadFirst? || t.ReadHashes? || t.Accept?
    ensures Punctual(Apply(p, s, t))
  {
    hide Resend, HashesFrom, Hellos.Fits, HelloFits, ManifestOf;
  }

  lemma LivePunctual(p: Params, s: Sys, t: Step)
    requires p.Ok() && Punctual(s) && Enabled(p, s, t)
    requires t.SendFrame? || t.Starve? || t.Drain? || t.HangUp?
    ensures Punctual(Apply(p, s, t))
  {
  }

  lemma ReplayPunctual(p: Params, s: Sys, t: Step)
    requires p.Ok() && Punctual(s) && Enabled(p, s, t)
    requires t.ReplayAccept? || t.ReplayMove? || t.ReplayFail? || t.ReplayExit?
    ensures Punctual(Apply(p, s, t))
  {
    hide Streaming.CanMove, Streaming.Moved, Streaming.Sent, Streaming.Finished;
  }

  lemma ExitPunctual(p: Params, s: Sys)
    requires Inv(p, s) && Punctual(s) && Enabled(p, s, SendExit)
    ensures Punctual(Apply(p, s, SendExit))
  {
    hide ClientOk, HostOk, QueueOk, UpOk, AltOk;
  }

  /** Steps of the handshake and of the sender. */
  lemma SenderPunctual(p: Params, s: Sys, t: Step)
    requires Inv(p, s) && Punctual(s) && Enabled(p, s, t) && OnTime(p, s, t)
    requires t.Connect? || t.ReadTotal? || t.ReadFirst? || t.ReadHashes? || t.Accept? || t.SendFrame? || t.Starve? || t.Drain?
             || t.SendExit? || t.HangUp? || t.ReplayAccept? || t.ReplayMove? || t.ReplayFail? || t.ReplayExit?
    ensures Punctual(Apply(p, s, t))
  {
    assert p.Ok();
    hide *;
    if t.SendExit? {
      ExitPunctual(p, s);
    } else if t.ReplayAccept? || t.ReplayMove? || t.ReplayFail? || t.ReplayExit? {
      ReplayPunctual(p, s, t);
    } else if t.SendFrame? || t.Starve? || t.Drain? || t.HangUp? {
      LivePunctual(p, s, t);
    } else {
      HandshakePunctual(p, s, t);
    }
  }

  lemma StepKeepsPunctual(p: Params, s: Sys, t: Step)
    requires Inv(p, s) && Punctual(s) && Enabled(p, s, t) && OnTime(p, s, t)
    ensures Punctual(Apply(p, s, t))
  {
    assert p.Ok();
    hide Punctual, Inv, Apply, OnTime;
    if t.ProcessAck? {
      TrimKeepsPunctual(p, s, t, s.link.up[0]);
    } else if t.LateAck? {
      TrimKeepsPunctual(p, s, t, s.late[t.i]);
    } else if t.Pump? {
      PumpPunctual(p, s, t.p);
    } else if t.StrayReplayEnds? || t.Preserve? || t.Remove? || t.Abort? || t.ReplayRemove? {
      HostPunctual(p, s, t);
    } else if t.Seal? || t.Deliver? || t.IdleAck? || t.Drop? || t.LoseAck? || t.StrayExit? || t.StrayEnds? || t.StrayGreets?
              || t.StrayMoves? || t.CloseListener? {
      AsidePunctual(p, s, t);
    } else {
      SenderPunctual(p, s, t);
    }
  }

  /** Orderly runs never starve a streamer or fail a replay, so their EXIT means completeness. */
  lemma {:induction false} OrderlyRuns(p: Params, s: Sys, ts: seq<Step>, s': Sys)
    requires Inv(p, s) && Punctual(s) && Run(p, s, ts, s') && Orderly(p, s, ts)
    ensures Punctual(s') && Inv(p, s')
    decreases |ts|
  {
    assert p.Ok();
    hide Enabled, Apply, Inv, Punctual, OnTime;
    if ts != [] {
      StepKeeps(p, s, ts[0]);
      StepKeepsPunctual(p, s, ts[0]);
      OrderlyRuns(p, Apply(p, s, ts[0]), ts[1..], s');
    }
  }

  lemma PunctualExit(p: Params, s: Sys)
    requires Inv(p, s) && Punctual(s) && s.fate.Exited?
    ensures s.client.buf.stream == Produced(s.host)
  {
    hide ScanFrom, InAlt, Covers, WithResyncs;
  }

  /** In an orderly run from the start EXIT at the client means that it has everything. */
  lemma OrderlyExit(p: Params, ts: seq<Step>, s: Sys)
    requires p.Ok() && Run(p, Start, ts, s) && Orderly(p, Start, ts) && s.fate.Exited?
    ensures s.client.buf.stream == Produced(s.host)
  {
    StartOk(p);
    OrderlyRuns(p, Start, ts, s);
    PunctualExit(p, s);
  }

  // ----- The concrete senders -----

  function MsgsOf(fs: seq<Proto.Frame>): seq<Msg> {
    if fs == [] then [] else [Output(fs[0].offset, fs[0].payload)] + MsgsOf(fs[1..])
  }

  lemma RunCons(p: Params, s: Sys, t: Step, ts: seq<Step>, s': Sys)
    requires p.Ok() && Enabled(p, s, t) && Run(p, Apply(p, s, t), ts, s')
    ensures Run(p, s, [t] + ts, s')
  {
    hide Enabled, Apply;
    assert ([t] + ts)[1..] == ts;
  }

  function SendSteps(n: nat): seq<Step> {
    if n == 0 then [] else [SendFrame] + SendSteps(n - 1)
  }

  /** The frames `Streaming.StreamRound` is proved to send are a run of this system. */
  lemma {:induction false} RoundIsRun(p: Params, s: Sys, fs: seq<Proto.Frame>, end: nat)
    requires p.Ok() && CanStream(s) && s.host.buf.trim <= s.link.stage.cursor
    requires Streaming.Chain(fs, s.host.buf.stream, s.link.stage.cursor, end)
    ensures Run(p, s, SendSteps(|fs|), s.(link := Push(s.link, Sending(end, Open), MsgsOf(fs))))
    decreases |fs|
  {
    if fs == [] {
      assert s.link.down + [] == s.link.down;
    } else {
      var x := Streaming.Piece(s.host.buf.stream, s.link.stage.cursor);
      var m := Output(s.link.stage.cursor, x);
      var s' := s.(link := Push(s.link, Sending(s.link.stage.cursor + |x|, Open), [m]));
      assert Apply(p, s, SendFrame) == s';
      RoundIsRun(p, s', fs[1..], end);
      Regroup(s.link.down, [m], MsgsOf(fs[1..]));
      RunCons(p, s, SendFrame, SendSteps(|fs| - 1), s'.(link := Push(s'.link, Sending(end, Open), MsgsOf(fs[1..]))));
    }
  }

  function MoveSteps(ms: seq<Streaming.Move>): seq<Step> {
    if ms == [] then [] else [ReplayMove(ms[0])] + MoveSteps(ms[1..])
  }

  lemma MsgsOfConcat(fs: seq<Proto.Frame>, k: nat)
    requires k <= |fs| && k <= 1
    ensures MsgsOf(fs) == MsgsOf(fs[..k]) + MsgsOf(fs[k..])
  {
    if k == 1 {
      assert fs[..1][1..] == [];
    }
  }

  /** So are the moves and frames of `Streaming.StreamSegments`, as long as the files stay. */
  lemma {:induction false} ReplayIsRun(p: Params, s: Sys, ms: seq<Streaming.Move>, fs: seq<Proto.Frame>, r: Streaming.Replay)
    requires p.Ok() && s.host.Kept? && s.link.Up? && s.link.stage.Replaying?
    requires Streaming.Moves(s.link.stage.replay, ms, fs, r)
    ensures Run(p, s, MoveSteps(ms), s.(link := Push(s.link, Replaying(r), MsgsOf(fs))))
    decreases |ms|
  {
    if ms == [] {
      assert s.link.down + [] == s.link.down;
    } else {
      var r0, m := s.link.stage.replay, ms[0];
      var k := |Streaming.SentFrames(r0, m)|;
      var now := MsgsOf(fs[..k]);
      var s' := s.(link := Push(s.link, Replaying(Streaming.Moved(r0, m)), now));
      FirstMove(p, s, m, fs[..k]);
      ReplayIsRun(p, s', ms[1..], fs[k..], r);
      MsgsOfConcat(fs, k);
      Regroup(s.link.down, now, MsgsOf(fs[k..]));
      var s'' := s'.(link := Push(s'.link, Replaying(r), MsgsOf(fs[k..])));
      assert MoveSteps(ms) == [ReplayMove(m)] + MoveSteps(ms[1..]);
      assert s'' == s.(link := Push(s.link, Replaying(r), MsgsOf(fs)));
      RunCons(p, s, ReplayMove(m), MoveSteps(ms[1..]), s'');
    }
  }

  lemma FirstMove(p: Params, s: Sys, m: Streaming.Move, fs: seq<Proto.Frame>)
    requires p.Ok() && s.host.Kept? && s.link.Up? && s.link.stage.Replaying?
    requires Streaming.CanMove(s.link.stage.replay, m) && fs == Streaming.SentFrames(s.link.stage.replay, m)
    ensures Enabled(p, s, ReplayMove(m))
    ensures Apply(p, s, ReplayMove(m)) ==
            s.(link := Push(s.link, Replaying(Streaming.Moved(s.link.stage.replay, m)), MsgsOf(fs)))
  {
    if m.Send? {
      var r := s.link.stage.replay;
      assert fs[1..] == [];
      assert MsgsOf(fs) == [Output(r.cursor, Streaming.Sent(r, m))];
    }
  }

  // ----- A byte stream cut anywhere -----

  ghost predicate OutputFrames(fs: seq<Proto.Frame>) {
    Proto.AllSendable(fs) && forall f :: f in fs ==> f.ftype == Proto.OUTPUT
  }

  /** What reading these frames makes of a client. */
  function Reads(c: Config, k: Client, fs: seq<Proto.Frame>): Client
    decreases |fs|
  {
    if fs == [] then k else Reads(c, Received(c, k, fs[0].offset, fs[0].payload).0, fs[1..])
  }

  function Deliveries(n: nat): seq<Step> {
    if n == 0 then [] else [Deliver] + Deliveries(n - 1)
  }

  lemma {:induction false} FramesDelivered(p: Params, s: Sys, fs: seq<Proto.Frame>, n: nat) returns (s': Sys)
    requires p.Ok() && s.link.Up? && s.fate.Running? && n <= |fs| && s.link.down == MsgsOf(fs)
    ensures Run(p, s, Deliveries(n), s') && s' == s.(client := s'.client, link := s'.link)
    ensures s'.link.Up? && s'.link.down == MsgsOf(fs[n..]) && s'.link.stage == s.link.stage && s'.link.attached == s.link.attached
    ensures s'.client == Reads(p.cc, s.client, fs[..n])
    decreases n
  {
    if n == 0 {
      s' := s;
    } else {
      var m := Apply(p, s, Deliver);
      DeliverOne(p, s, fs);
      hide Enabled, Apply, Received;
      s' := FramesDelivered(p, m, fs[1..], n - 1);
      RunCons(p, s, Deliver, Deliveries(n - 1), s');
      assert fs[1..][n - 1..] == fs[n..] && fs[..n][1..] == fs[1..][..n - 1];
    }
  }

  lemma DeliverOne(p: Params, s: Sys, fs: seq<Proto.Frame>)
    requires p.Ok() && s.link.Up? && s.fate.Running? && fs != [] && s.link.down == MsgsOf(fs)
    ensures Enabled(p, s, Deliver)
    ensures var m := Apply(p, s, Deliver);
            && m == s.(client := m.client, link := m.link) && m.link.Up? && m.link.down == MsgsOf(fs[1..])
            && m.link.stage == s.link.stage && m.link.attached == s.link.attached
            && m.client == Received(p.cc, s.client, fs[0].offset, fs[0].payload).0
  {
    hide Received;
    assert s.link.down[0] == Output(fs[0].offset, fs[0].payload);
    assert s.link.down[1..] == MsgsOf(fs[1..]);
  }

  /**
   A byte stream cut anywhere is some deliveries followed by a cut: a client whose connection carries
   the encoding of these frames and breaks after `k` bytes gets as far as a run of the system takes it.
   */
  lemma CutIsDeliveries(p: Params, s: Sys, fs: seq<Proto.Frame>, k: nat) returns (s': Sys)
    requires p.Ok() && s.link.Up? && s.fate.Running? && s.link.down == MsgsOf(fs)
    requires OutputFrames(fs) && k <= |Proto.EncodeAll(fs)|
    ensures var got := Proto.ParseAll(Proto.EncodeAll(fs)[..k]);
            && |got| <= |fs| && got == fs[..|got|]
            && Run(p, s, Deliveries(|got|), s') && Enabled(p, s', Drop)
            && s'.link.down == MsgsOf(fs[|got|..]) && s'.client == Reads(p.cc, s.client, got)
  {
    Proto.CutAnywhere(fs, k);
    s' := FramesDelivered(p, s, fs, Proto.WholeFrames(fs, k));
  }
}
