/** What can be lost, exactly when, and runs in which it is. */
module Losses {
  import opened Bytes
  import opened History
  import opened AltScreen
  import opened Chunks
  import opened Clients
  import opened SegmentFiles
  import opened Delivery
  import opened Invariant
  import opened Theorems
  import opened Completion
  import Hellos
  import Streaming

  // ----- Overtaken by a late acknowledgement -----

  /** Some uncut continuation starves the streamer. */
  ghost predicate CanStarve(p: Params, s: Sys)
    requires p.Ok()
  {
    exists s': Sys :: Leads(p, s, s', Uncut) && s'.link.Up? && s'.link.stage.Sending? && s'.link.stage.ending.Starved?
  }

  /** Some uncut continuation ends with EXIT at a client that lacks output. */
  ghost predicate CanLose(p: Params, s: Sys)
    requires p.Ok()
  {
    exists s': Sys :: Leads(p, s, s', Uncut) && s'.fate.Exited? && Len(s') < |Produced(s'.host)|
  }

  /** A live daemon serves, or has served, this connection. */
  predicate Served(l: Link) {
    l.Up? && (l.stage.Sending? || l.stage.Finished?)
  }

  lemma StepStaysServed(p: Params, s: Sys, t: Step)
    requires p.Ok() && Enabled(p, s, t) && Uncut(t) && Served(s.link)
    ensures Served(Apply(p, s, t).link) && OnTime(p, s, t)
  {
    hide Resend, HashesFrom, Hellos.Fits, Received, Greeted, Streaming.Moved, Streaming.Sent, Streaming.CanMove;
    if !Progress(t) {
      OthersKeepLink(p, s, t);
    }
  }

  /** Once a live daemon serves it, an uncut connection sees no further handshake and no replay. */
  lemma {:induction false} ServedOrderly(p: Params, s: Sys, ts: seq<Step>, s': Sys)
    requires p.Ok() && Run(p, s, ts, s') && All(ts, Uncut) && Served(s.link)
    ensures Orderly(p, s, ts) && Served(s'.link)
    decreases |ts|
  {
    if ts != [] {
      assert Uncut(ts[0]);
      StepStaysServed(p, s, ts[0]);
      hide Enabled, Apply, OnTime;
      ServedOrderly(p, Apply(p, s, ts[0]), ts[1..], s');
    }
  }

  /** Reading such an acknowledgement is enough. */
  lemma LateAckStarves(p: Params, s: Sys, i: nat) returns (s': Sys)
    requires Inv(p, s) && CanStream(s) && i < |s.late| && s.link.stage.cursor < s.late[i]
    ensures Leads(p, s, s', Uncut) && s'.link == s.link.(stage := Sending(s.link.stage.cursor, Starved))
    ensures s'.client == s.client && s'.fate == s.fate && s'.host.Live? && s'.host.sealed == s.host.sealed
    ensures s'.host.buf.stream == s.host.buf.stream
  {
    TrimmedWellFormed(p.dc, s.host.buf, s.late[i]);
    assert WellFormed(p.dc, s.host.buf) && s.late[i] <= |s.host.buf.stream| && p.Ok();
    hide Inv, Trimmed, WellFormed, Without;
    s' := StarveNow(p, s, i);
  }

  lemma StarveNow(p: Params, s: Sys, i: nat) returns (s': Sys)
    requires p.Ok() && CanStream(s) && i < |s.late| && s.link.stage.cursor < s.late[i]
    requires var v := AckedTo(p.dc, s.host.buf, s.late[i]); v.stream == s.host.buf.stream && s.link.stage.cursor < v.trim <= |v.stream|
    ensures Leads(p, s, s', Uncut) && s'.link == s.link.(stage := Sending(s.link.stage.cursor, Starved))
    ensures s'.client == s.client && s'.fate == s.fate && s'.host.Live? && s'.host.sealed == s.host.sealed
    ensures s'.host.buf.stream == s.host.buf.stream
  {
    hide AckedTo, Without;
    LeadsTwo(p, s, LateAck(i), Starve, Uncut);
    s' := Apply(p, Apply(p, s, LateAck(i)), Starve);
  }

  /** What the connection looks like right after the handshake. */
  lemma Accepted(p: Params, s: Sys)
    requires Inv(p, s) && Enabled(p, s, Accept)
    ensures var s' := Apply(p, s, Accept);
            && Inv(p, s') && s' == s.(link := s'.link) && CanStream(s') && s'.link.stage.cursor == ResendPoint(p, s)
            && |s'.link.down| == 1 && s'.link.down[0].HelloAck? && s.fate.Running?
            && (AcksWithin(s.late, ResendPoint(p, s)) ==> Punctual(s'))
  {
    StepKeeps(p, s, Accept);
    hide Resend, Flow, WithResyncs, ScanFrom, InAlt;
  }

  /**
   Exactly when a freshly accepted attach is at risk: some acknowledgement of an earlier connection
   is still under way and lies beyond the resend point. The check that would prevent it is that the
   earlier attach's reader has finished before the clamp.
   */
  lemma StarvesIff(p: Params, s: Sys)
    requires Inv(p, s) && Enabled(p, s, Accept)
    ensures CanStarve(p, Apply(p, s, Accept)) <==> !AcksWithin(s.late, ResendPoint(p, s))
  {
    var s' := Apply(p, s, Accept);
    Accepted(p, s);
    if AcksWithin(s.late, ResendPoint(p, s)) {
      forall u: Sys | Leads(p, s', u, Uncut)
        ensures !(u.link.Up? && u.link.stage.Sending? && u.link.stage.ending.Starved?)
      {
        var ts: seq<Step> :| Run(p, s', ts, u) && All(ts, Uncut);
        ServedOrderly(p, s', ts, u);
        OrderlyRuns(p, s', ts, u);
      }
    } else {
      var i :| 0 <= i < |s.late| && ResendPoint(p, s) < s.late[i];
      var u := LateAckStarves(p, s', i);
    }
  }

  /** There is, or can still be, output that the client does not have. */
  predicate MoreToCome(s: Sys) {
    Len(s) < |Produced(s.host)| || (s.host.Live? && !s.host.sealed && |Produced(s.host)| + 1 < U64)
  }

  lemma {:induction false} NothingMore(p: Params, s: Sys, ts: seq<Step>, s': Sys)
    requires Inv(p, s) && Run(p, s, ts, s') && !MoreToCome(s)
    ensures !MoreToCome(s')
    decreases |ts|
  {
    assert p.Ok();
    if ts != [] {
      StepKeeps(p, s, ts[0]);
      StepGrows(p, s, ts[0]);
      StepNothingMore(p, s, ts[0]);
      hide Enabled, Apply, Inv, MoreToCome;
      NothingMore(p, Apply(p, s, ts[0]), ts[1..], s');
    }
  }

  lemma StepNothingMore(p: Params, s: Sys, t: Step)
    requires Inv(p, s) && Enabled(p, s, t) && !MoreToCome(s)
    requires Inv(p, Apply(p, s, t)) && Len(s) <= Len(Apply(p, s, t))
    requires Ended(s.host) ==> Produced(Apply(p, s, t).host) == Produced(s.host) && Ended(Apply(p, s, t).host)
    ensures !MoreToCome(Apply(p, s, t))
  {
    assert Len(Apply(p, s, t)) <= |Produced(Apply(p, s, t).host)| < U64 && Len(s) <= |Produced(s.host)| && p.Ok();
    hide Inv;
    if t.Pump? {
      assert |t.p| == 0;
    } else if !t.Deliver? {
      OthersStay(p, s, t);
      StaysSealed(p, s, t);
    }
  }

  lemma StaysSealed(p: Params, s: Sys, t: Step)
    requires p.Ok() && Enabled(p, s, t) && !t.Pump?
    ensures Apply(p, s, t).host.Live? && !Apply(p, s, t).host.sealed ==> s.host.Live? && !s.host.sealed
  {
    hide ScanFrom, HashesFrom, Resend, TileInfos, AckedTo, Hellos.Fits, Received, Streaming.Moved, Streaming.Sent;
  }

  /** A starved streamer, the shell's exit, EXIT: whatever the client lacks is lost to it. */
  lemma StarvedLoses(p: Params, s: Sys) returns (s': Sys)
    requires p.Ok() && s.fate.Running? && s.host.Live? && s.link.Up?
    requires s.link.stage.Sending? && s.link.stage.ending.Starved?
    requires |s.link.down| == 1 && s.link.down[0].HelloAck? && Len(s) < |Produced(s.host)|
    ensures Leads(p, s, s', Uncut) && s'.fate.Exited? && Len(s') == Len(s) && Produced(s'.host) == Produced(s.host)
  {
    LeadsTwo(p, s, Seal, SendExit, Uncut);
    var a := Apply(p, Apply(p, s, Seal), SendExit);
    assert a.link.down == [s.link.down[0], Exit];
    s' := TakeTwo(p, a);
    LeadsTrans(p, s, a, s', Uncut);
  }

  /** HELLO_ACK and EXIT, taken one after the other. */
  lemma TakeTwo(p: Params, a: Sys) returns (s': Sys)
    requires p.Ok() && a.fate.Running? && a.link.Up? && |a.link.down| == 2 && a.link.down[0].HelloAck? && a.link.down[1].Exit?
    ensures Leads(p, a, s', Uncut) && s'.fate.Exited? && s'.client.buf == a.client.buf && s'.host == a.host
    ensures s'.link.Up? && s'.link.stage == a.link.stage
  {
    assert a.link.down[1..] == [Exit];
    LeadsTwo(p, a, Deliver, Deliver, Uncut);
    s' := Apply(p, Apply(p, a, Deliver), Deliver);
  }

  lemma PumpOne(p: Params, s: Sys) returns (s': Sys)
    requires p.Ok() && s.host.Live? && !s.host.sealed && |Produced(s.host)| + 1 < U64
    ensures Leads(p, s, s', Uncut) && s' == s.(host := s'.host) && s'.host.Live? && |Produced(s'.host)| == |Produced(s.host)| + 1
  {
    LeadsSelf(p, s, Uncut);
    LeadsStep(p, s, s, Pump([0]), Uncut);
    s' := Apply(p, s, Pump([0]));
  }

  /**
   Exactly when a fresh live attach can lose output without being cut: an acknowledgement of an earlier
   connection can overtake it, and there is output past the client, or can still be.
   */
  lemma LiveLosesIff(p: Params, s: Sys)
    requires Inv(p, s) && Enabled(p, s, Accept)
    ensures CanLose(p, Apply(p, s, Accept)) <==> !AcksWithin(s.late, ResendPoint(p, s)) && MoreToCome(s)
  {
    var s' := Apply(p, s, Accept);
    Accepted(p, s);
    if !AcksWithin(s.late, ResendPoint(p, s)) && MoreToCome(s) {
      var i :| 0 <= i < |s.late| && ResendPoint(p, s) < s.late[i];
      var a := LateAckStarves(p, s', i);
      LateLoses(p, s', a);
    } else {
      forall u: Sys | Leads(p, s', u, Uncut)
        ensures !(u.fate.Exited? && Len(u) < |Produced(u.host)|)
      {
        var ts: seq<Step> :| Run(p, s', ts, u) && All(ts, Uncut);
        if AcksWithin(s.late, ResendPoint(p, s)) {
          ServedOrderly(p, s', ts, u);
          OrderlyRuns(p, s', ts, u);
          if u.fate.Exited? {
            PunctualExit(p, u);
          }
        } else {
          NothingMore(p, s', ts, u);
        }
      }
    }
  }

  lemma LateLoses(p: Params, s: Sys, a: Sys)
    requires Inv(p, s) && Leads(p, s, a, Uncut) && a.fate.Running? && a.host.Live? && a.link.Up?
    requires a.link.stage.Sending? && a.link.stage.ending.Starved? && |a.link.down| == 1 && a.link.down[0].HelloAck?
    requires MoreToCome(a)
    ensures CanLose(p, s)
  {
    LeadsKeeps(p, s, a, Uncut);
    var b := a;
    if Len(a) == |Produced(a.host)| {
      b := PumpOne(p, a);
      LeadsTrans(p, s, a, b, Uncut);
      LeadsKeeps(p, a, b, Uncut);
    }
    var c := StarvedLoses(p, b);
    LeadsTrans(p, s, b, c, Uncut);
  }

  // ----- Replay daemons left behind -----

  /** A step of a replay daemon that its client has given up on. */
  predicate StrayStep(t: Step) {
    t.StrayGreets? || t.StrayMoves? || t.StrayReplayEnds?
  }

  /** The session removed by somebody the client no longer knows of. */
  ghost predicate RemovedBehind(s: Sys, s': Sys) {
    && s'.host.Gone? && Produced(s'.host) == Produced(s.host)
    && s'.link == s.link && s'.client == s.client && s'.fate == s.fate && s'.late == s.late
  }

  lemma StrayEndsNow(p: Params, s: Sys, i: nat, e: Streaming.ReplayEnd) returns (s': Sys)
    requires p.Ok() && s.host.Kept? && i < |s.strays| && CanEnd(s.strays[i], e) && Streaming.Removes(e, true)
    ensures Leads(p, s, s', StrayStep) && RemovedBehind(s, s')
  {
    LeadsSelf(p, s, StrayStep);
    LeadsStep(p, s, s, StrayReplayEnds(i, e), StrayStep);
    s' := Apply(p, s, StrayReplayEnds(i, e));
  }

  /** The next move of a replay that is not finished, while the files are there. */
  function NextMove(r: Streaming.Replay): Streaming.Move {
    if r.cursor < r.file.endOff then Streaming.Send(1)
    else if r.rest != [] && r.rest[0].endOff <= r.cursor then Streaming.Skip
    else Streaming.Open
  }

  lemma NextMoveCan(r: Streaming.Replay, all: seq<byte>)
    requires ReplayOk(r, all) && !Streaming.Finished(r)
    ensures Streaming.CanMove(r, NextMove(r))
  {
  }

  /** A replay daemon that is sending can go on to the end, write EXIT and remove the files. */
  lemma {:induction false} StraySends(p: Params, s: Sys, i: nat) returns (s': Sys)
    requires Inv(p, s) && s.host.Kept? && i < |s.strays| && s.strays[i].StraySending?
    ensures Leads(p, s, s', StrayStep) && RemovedBehind(s, s')
    decreases |Produced(s.host)| - s.strays[i].replay.cursor, |s.strays[i].replay.rest|
  {
    var r, all := s.strays[i].replay, Produced(s.host);
    assert StrayOk(s.strays[i], s.host.Live?, all) && p.Ok();
    if Streaming.Finished(r) {
      s' := StrayEndsNow(p, s, i, Streaming.Greeted(r, true));
    } else {
      NextMoveCan(r, all);
      ReplayMoveOk(r, all, NextMove(r));
      var t := StrayMoves(i, NextMove(r));
      StepKeeps(p, s, t);
      hide Inv, Leads, StrayOk, ReplayOk;
      LeadsSelf(p, s, StrayStep);
      LeadsStep(p, s, s, t, StrayStep);
      s' := StraySends(p, Apply(p, s, t), i);
      LeadsTrans(p, s, Apply(p, s, t), s', StrayStep);
    }
  }

  /** Any replay daemon left behind may end by removing the files. */
  lemma StrayRemoves(p: Params, s: Sys, i: nat) returns (s': Sys)
    requires Inv(p, s) && s.host.Kept? && i < |s.strays|
    ensures Leads(p, s, s', StrayStep) && RemovedBehind(s, s')
  {
    assert StrayOk(s.strays[i], s.host.Live?, Produced(s.host)) && p.Ok();
    match s.strays[i]
    case StrayUnheard => s' := StrayEndsNow(p, s, i, Streaming.NoHello);
    case StrayHearing(_, _) => s' := StrayEndsNow(p, s, i, Streaming.NotGreeted);
    case StraySending(_) => s' := StraySends(p, s, i);
    case StraySent(r) => s' := StrayEndsNow(p, s, i, Streaming.Greeted(r, true));
  }

  /** The client does not attach. */
  predicate NoDial(t: Step) {
    !t.Connect?
  }

  lemma KeptStep(p: Params, s: Sys, t: Step)
    requires p.Ok() && Enabled(p, s, t) && NoDial(t) && s.host.Kept? && s.link.Down? && s.strays == []
    ensures Apply(p, s, t).host.Kept? && Apply(p, s, t).link.Down? && Apply(p, s, t).strays == []
  {
  }

  lemma {:induction false} StaysKept(p: Params, s: Sys, ts: seq<Step>, s': Sys)
    requires p.Ok() && Run(p, s, ts, s') && All(ts, NoDial) && s.host.Kept? && s.link.Down? && s.strays == []
    ensures s'.host.Kept?
    decreases |ts|
  {
    if ts != [] {
      assert NoDial(ts[0]);
      KeptStep(p, s, ts[0]);
      hide Enabled, Apply;
      StaysKept(p, Apply(p, s, ts[0]), ts[1..], s');
    }
  }

  /** Preserved files can be deleted behind the back of a disconnected client. */
  ghost predicate CanVanish(p: Params, s: Sys)
    requires p.Ok()
  {
    exists s': Sys :: Leads(p, s, s', NoDial) && s'.host.Gone?
  }

  /** Exactly when: a replay daemon that its client gave up on has not ended. */
  lemma VanishesIff(p: Params, s: Sys)
    requires Inv(p, s) && s.host.Kept? && s.link.Down?
    ensures CanVanish(p, s) <==> s.strays != []
  {
    if s.strays != [] {
      var s' := StrayRemoves(p, s, 0);
      LeadsWider(p, s, s', StrayStep, NoDial);
    } else {
      forall s': Sys | Leads(p, s, s', NoDial)
        ensures !s'.host.Gone?
      {
        var ts: seq<Step> :| Run(p, s, ts, s') && All(ts, NoDial);
        StaysKept(p, s, ts, s');
      }
    }
  }

  // ----- Files removed under a replay -----

  /** How far a replay can deliver without opening another file. */
  function Secured(s: Sys): nat {
    if s.link.Down? then Len(s)
    else
      match s.link.stage
      case ReplayHello(peer, _) => peer.total
      case Replaying(r) => Max(r.cursor, r.file.endOff)
      case Finished(c, _) => c
      case _ => 0
  }

  predicate ReplayLink(l: Link) {
    l.Up? && (l.stage.ReplayHello? || l.stage.Replaying? || (l.stage.Finished? && !l.stage.ending.Starved?))
  }

  /** The files are gone and the client is behind what is still to be sent, which is not everything. */
  ghost predicate Doomed(s: Sys) {
    && s.host.Gone? && ReplayLink(s.link) && (s.link.stage.Finished? ==> s.link.stage.ending.Failed?)
    && Len(s) <= Secured(s) < |Produced(s.host)|
  }

  lemma DoomedMove(p: Params, s: Sys, t: Step)
    requires Inv(p, s) && Doomed(s) && Enabled(p, s, t) && (t.ReplayMove? || t.ReplayFail? || t.ReplayExit? || t.ReplayAccept?)
    ensures Doomed(Apply(p, s, t))
  {
    hide ScanFrom, InAlt, WithResyncs, Flow;
    if t.ReplayMove? {
      ReplayMoveOk(s.link.stage.replay, Produced(s.host), t.m);
    } else if t.ReplayExit? {
      ReplayAtEnd(s.link.stage.replay, Produced(s.host));
    }
  }

  lemma DoomedDeliver(p: Params, s: Sys)
    requires Inv(p, s) && Doomed(s) && Enabled(p, s, Deliver)
    ensures Doomed(Apply(p, s, Deliver))
  {
    hide ScanFrom, InAlt, WithResyncs, Received, Covers;
    if s.link.down[0].Output? {
      OutputLies(p, s);
      OutputTaken(p, s);
      TakeOutputIs(p, s);
    }
  }

  lemma {:induction false} StaysDoomed(p: Params, s: Sys, ts: seq<Step>, s': Sys)
    requires Inv(p, s) && Doomed(s) && Run(p, s, ts, s') && All(ts, Progress)
    ensures Doomed(s')
    decreases |ts|
  {
    assert p.Ok();
    if ts != [] {
      assert Progress(ts[0]);
      StepKeeps(p, s, ts[0]);
      if ts[0].Deliver? {
        DoomedDeliver(p, s);
      } else {
        DoomedMove(p, s, ts[0]);
      }
      hide Enabled, Apply, Inv, Doomed;
      StaysDoomed(p, Apply(p, s, ts[0]), ts[1..], s');
    }
  }

  lemma DoomedLoses(p: Params, s: Sys)
    requires Inv(p, s) && Doomed(s)
    ensures CanLose(p, s)
  {
    var s' := AttemptEnds(p, s);
    var ts: seq<Step> :| Run(p, s, ts, s') && All(ts, Progress);
    StaysDoomed(p, s, ts, s');
    RunKeeps(p, s, ts, s');
    LeadsWider(p, s, s', Progress, Uncut);
    hide Enabled, Apply;
    assert s'.fate.Exited?;
  }

  /** Either nobody is left to remove the files, or what has been opened already reaches the end. */
  ghost predicate Sound(s: Sys) {
    && !s.host.Live? && ReplayLink(s.link) && (s.link.stage.Finished? ==> s.link.stage.ending.Drained?)
    && ((s.host.Kept? && s.strays == []) || s.link.stage.Finished? || |Produced(s.host)| <= Secured(s))
  }

  lemma SoundStep(p: Params, s: Sys, t: Step)
    requires Inv(p, s) && Sound(s) && Enabled(p, s, t) && Uncut(t) && !t.Deliver?
    ensures Sound(Apply(p, s, t))
  {
    hide ScanFrom, InAlt, WithResyncs, Flow, HashesFrom, Resend, Hellos.Fits, ClientOk, QueueOk, UpOk, AltOk;
    if t.ReplayMove? {
      ReplayMoveOk(s.link.stage.replay, Produced(s.host), t.m);
    } else if t.ReplayFail? {
      HoldsTail(s.link.stage.replay.rest, Produced(s.host), Secured(s));
    }
  }

  lemma SoundDeliver(p: Params, s: Sys)
    requires p.Ok() && Sound(s) && Enabled(p, s, Deliver)
    ensures Sound(Apply(p, s, Deliver))
  {
    hide Received, Greeted;
  }

  lemma {:induction false} StaysSound(p: Params, s: Sys, ts: seq<Step>, s': Sys)
    requires Inv(p, s) && Sound(s) && Run(p, s, ts, s') && All(ts, Uncut)
    ensures Sound(s') && Inv(p, s')
    decreases |ts|
  {
    assert p.Ok();
    if ts != [] {
      assert Uncut(ts[0]);
      StepKeeps(p, s, ts[0]);
      if ts[0].Deliver? {
        SoundDeliver(p, s);
      } else {
        SoundStep(p, s, ts[0]);
      }
      hide Enabled, Apply, Inv, Sound;
      StaysSound(p, Apply(p, s, ts[0]), ts[1..], s');
    }
  }

  lemma SoundExit(p: Params, s: Sys)
    requires Inv(p, s) && Sound(s) && s.fate.Exited?
    ensures Len(s) == |Produced(s.host)|
  {
    hide ScanFrom, InAlt, WithResyncs, Covers;
  }

  /**
   Exactly when a replay can lose output without being cut: a replay daemon that its client gave up on
   may still remove the files, or one has, and the files opened so far do not reach the end.
   */
  lemma ReplayLosesIff(p: Params, s: Sys)
    requires Inv(p, s) && InReplay(s.link)
    ensures CanLose(p, s) <==> (s.host.Gone? || s.strays != []) && Secured(s) < |Produced(s.host)|
  {
    ReplayBehind(p, s);
    if (s.host.Gone? || s.strays != []) && Secured(s) < |Produced(s.host)| {
      var a := s;
      LeadsSelf(p, s, Uncut);
      if s.host.Kept? {
        a := StrayRemoves(p, s, 0);
        LeadsKeeps(p, s, a, StrayStep);
        LeadsWider(p, s, a, StrayStep, Uncut);
      }
      DoomedLoses(p, a);
      LosesFrom(p, s, a);
    } else {
      forall u: Sys | Leads(p, s, u, Uncut)
        ensures !(u.fate.Exited? && Len(u) < |Produced(u.host)|)
      {
        var ts: seq<Step> :| Run(p, s, ts, u) && All(ts, Uncut);
        StaysSound(p, s, ts, u);
        if u.fate.Exited? {
          SoundExit(p, u);
        }
      }
    }
  }

  /** In a replay the client is never ahead of the cursor. */
  lemma ReplayBehind(p: Params, s: Sys)
    requires Inv(p, s) && InReplay(s.link)
    ensures !s.host.Live? && Len(s) <= Secured(s)
  {
    hide ScanFrom, InAlt, WithResyncs, Covers;
  }

  lemma LosesFrom(p: Params, s: Sys, a: Sys)
    requires p.Ok() && Leads(p, s, a, Uncut) && CanLose(p, a)
    ensures CanLose(p, s)
  {
    var s': Sys :| Leads(p, a, s', Uncut) && s'.fate.Exited? && Len(s') < |Produced(s'.host)|;
    LeadsTrans(p, s, a, s', Uncut);
  }
}
