/** That attempts end, how they end, and which sessions can still be completed. */
module Completion {
  import opened Bytes
  import opened History
  import opened AltScreen
  import opened Chunks
  import opened Clients
  import opened SegmentFiles
  import opened Delivery
  import opened Invariant
  import opened Theorems
  import Hellos
  import Streaming

  // ----- Runs made of certain steps -----

  ghost predicate All(ts: seq<Step>, ok: Step -> bool) {
    forall i :: 0 <= i < |ts| ==> ok(ts[i])
  }

  predicate Any(t: Step) {
    true
  }

  /** The moves of one attempt: handshake, sender, EXIT, and the client taking what arrives. */
  predicate Progress(t: Step) {
    || t.ReadTotal? || t.ReadFirst? || t.ReadHashes? || t.Accept? || t.SendFrame? || t.Starve? || t.Drain?
    || t.SendExit? || t.Deliver? || t.ReplayAccept? || t.ReplayMove? || t.ReplayFail? || t.ReplayExit?
  }

  /** The connection is not cut from either side. */
  predicate Uncut(t: Step) {
    !t.Drop? && !t.HangUp?
  }

  /** `s'` can follow `s` by such steps. */
  ghost predicate Leads(p: Params, s: Sys, s': Sys, ok: Step -> bool)
    requires p.Ok()
  {
    exists ts: seq<Step> :: Run(p, s, ts, s') && All(ts, ok)
  }

  lemma {:induction false} RunConcat(p: Params, s: Sys, ts: seq<Step>, m: Sys, us: seq<Step>, s': Sys)
    requires p.Ok() && Run(p, s, ts, m) && Run(p, m, us, s')
    ensures Run(p, s, ts + us, s')
    decreases |ts|
  {
    hide Enabled, Apply;
    if ts == [] {
      assert ts + us == us;
    } else {
      RunConcat(p, Apply(p, s, ts[0]), ts[1..], m, us, s');
      assert (ts + us)[1..] == ts[1..] + us;
    }
  }

  lemma RunOne(p: Params, s: Sys, t: Step)
    requires p.Ok() && Enabled(p, s, t)
    ensures Run(p, s, [t], Apply(p, s, t))
  {
    hide Enabled, Apply;
    assert [t][1..] == [];
    assert Run(p, Apply(p, s, t), [], Apply(p, s, t));
  }

  lemma LeadsSelf(p: Params, s: Sys, ok: Step -> bool)
    requires p.Ok()
    ensures Leads(p, s, s, ok)
  {
    hide Enabled, Apply;
    assert Run(p, s, [], s) && All([], ok);
  }

  lemma LeadsTrans(p: Params, s: Sys, m: Sys, s': Sys, ok: Step -> bool)
    requires p.Ok() && Leads(p, s, m, ok) && Leads(p, m, s', ok)
    ensures Leads(p, s, s', ok)
  {
    hide Enabled, Apply;
    var ts: seq<Step> :| Run(p, s, ts, m) && All(ts, ok);
    var us: seq<Step> :| Run(p, m, us, s') && All(us, ok);
    RunConcat(p, s, ts, m, us, s');
    assert All(ts + us, ok);
  }

  lemma LeadsStep(p: Params, s: Sys, m: Sys, t: Step, ok: Step -> bool)
    requires p.Ok() && Leads(p, s, m, ok) && Enabled(p, m, t) && ok(t)
    ensures Leads(p, s, Apply(p, m, t), ok)
  {
    hide Enabled, Apply;
    RunOne(p, m, t);
    assert All([t], ok);
    LeadsTrans(p, s, m, Apply(p, m, t), ok);
  }

  lemma LeadsTwo(p: Params, s: Sys, t: Step, u: Step, ok: Step -> bool)
    requires p.Ok() && Enabled(p, s, t) && Enabled(p, Apply(p, s, t), u) && ok(t) && ok(u)
    ensures Leads(p, s, Apply(p, Apply(p, s, t), u), ok)
  {
    hide Enabled, Apply, Leads;
    LeadsSelf(p, s, ok);
    LeadsStep(p, s, s, t, ok);
    LeadsStep(p, s, Apply(p, s, t), u, ok);
  }

  lemma LeadsKeeps(p: Params, s: Sys, m: Sys, ok: Step -> bool)
    requires Inv(p, s) && Leads(p, s, m, ok)
    ensures Inv(p, m)
  {
    assert p.Ok();
    hide Enabled, Apply, Inv;
    var ts: seq<Step> :| Run(p, s, ts, m) && All(ts, ok);
    RunKeeps(p, s, ts, m);
  }

  lemma LeadsWider(p: Params, s: Sys, m: Sys, ok: Step -> bool, wider: Step -> bool)
    requires p.Ok() && Leads(p, s, m, ok) && forall t :: ok(t) ==> wider(t)
    ensures Leads(p, s, m, wider)
  {
    hide Enabled, Apply;
    var ts: seq<Step> :| Run(p, s, ts, m) && All(ts, ok);
    assert All(ts, wider);
  }

  // ----- How long an attempt takes -----

  function StageWork(g: Stage, n: nat): nat {
    match g
    case Hello(_) => 3 * n + 10
    case GotTotal(_, _) => 3 * n + 9
    case GotFirst(_, _, _) => 3 * n + 8
    case GotHashes(_, _) => 3 * n + 7
    case Sending(c, e) => if e.Open? then 3 * Max(n - c, 0) + 4 else 2
    case ReplayHello(_, segs) => 3 * n + 2 * |segs| + 10
    case Replaying(r) => 3 * Max(n - r.cursor, 0) + 2 * |r.rest| + 4
    case Finished(_, _) => 0
    case Closed(_) => 0
  }

  /** A bound on the moves an attempt still takes. */
  function Work(s: Sys): nat {
    if s.link.Down? then 0 else StageWork(s.link.stage, |Produced(s.host)|) + |s.link.down|
  }

  lemma ReplayShrinks(p: Params, s: Sys, m: Streaming.Move)
    requires Inv(p, s) && Enabled(p, s, ReplayMove(m))
    ensures Apply(p, s, ReplayMove(m)).link.Up? && Work(Apply(p, s, ReplayMove(m))) < Work(s)
  {
    var r, all := s.link.stage.replay, Produced(s.host);
    ReplayMoveOk(r, all, m);
    hide Inv, ReplayOk, Streaming.Sent;
  }

  lemma ProgressShrinks(p: Params, s: Sys, t: Step)
    requires Inv(p, s) && Enabled(p, s, t) && Progress(t)
    ensures Apply(p, s, t).link.Up? && Work(Apply(p, s, t)) < Work(s)
  {
    assert p.Ok();
    hide Inv, Apply, Work;
    if t.ReplayMove? {
      ReplayShrinks(p, s, t.m);
    } else if t.Deliver? {
      DeliverShrinks(p, s);
    } else if t.ReadTotal? || t.ReadFirst? || t.ReadHashes? || t.Accept? || t.ReplayAccept? {
      HandshakeShrinks(p, s, t);
    } else {
      SenderShrinks(p, s, t);
    }
  }

  lemma DeliverShrinks(p: Params, s: Sys)
    requires p.Ok() && Enabled(p, s, Deliver)
    ensures Apply(p, s, Deliver).link.Up? && Work(Apply(p, s, Deliver)) < Work(s)
  {
    hide Received, Greeted, StageWork;
  }

  lemma HandshakeShrinks(p: Params, s: Sys, t: Step)
    requires p.Ok() && Enabled(p, s, t)
    requires t.ReadTotal? || t.ReadFirst? || t.ReadHashes? || t.Accept? || t.ReplayAccept?
    ensures Apply(p, s, t).link.Up? && Work(Apply(p, s, t)) < Work(s)
  {
    hide Resend, HashesFrom, Hellos.Fits;
  }

  lemma SenderShrinks(p: Params, s: Sys, t: Step)
    requires p.Ok() && Enabled(p, s, t)
    requires t.SendFrame? || t.Starve? || t.Drain? || t.SendExit? || t.ReplayFail? || t.ReplayExit?
    ensures Apply(p, s, t).link.Up? && Work(Apply(p, s, t)) < Work(s)
  {
    hide Streaming.CanMove, Streaming.Finished;
  }

  lemma OthersKeepWork(p: Params, s: Sys, t: Step)
    requires Inv(p, s) && s.link.Up? && Enabled(p, s, t) && !Progress(t) && !t.Drop? && !t.Pump?
    ensures Apply(p, s, t).link.Up? && Work(Apply(p, s, t)) <= Work(s)
  {
    assert p.Ok();
    hide Inv;
    OthersStay(p, s, t);
    OthersKeepLink(p, s, t);
  }

  lemma OthersKeepLink(p: Params, s: Sys, t: Step)
    requires p.Ok() && s.link.Up? && Enabled(p, s, t) && !Progress(t) && !t.Drop?
    ensures Apply(p, s, t).link.Up? && Apply(p, s, t).link.down == s.link.down
    ensures Apply(p, s, t).link.stage == s.link.stage || (t.HangUp? && Apply(p, s, t).link.stage.Closed?)
  {
    hide ScanFrom, TileInfos, AckedTo;
  }

  function Moves(ts: seq<Step>): nat {
    if ts == [] then 0 else (if Progress(ts[0]) then 1 else 0) + Moves(ts[1..])
  }

  /** An attempt on an ended session makes a bounded number of moves, whatever else happens meanwhile. */
  lemma {:induction false} AttemptBounded(p: Params, s: Sys, ts: seq<Step>, s': Sys)
    requires Inv(p, s) && s.link.Up? && Run(p, s, ts, s')
    requires forall i :: 0 <= i < |ts| ==> !ts[i].Drop? && !ts[i].Pump?
    ensures s'.link.Up? && Moves(ts) + Work(s') <= Work(s)
    decreases |ts|
  {
    assert p.Ok();
    hide Enabled, Apply, Inv, Work, Progress;
    if ts != [] {
      StepKeeps(p, s, ts[0]);
      if Progress(ts[0]) {
        ProgressShrinks(p, s, ts[0]);
      } else {
        OthersKeepWork(p, s, ts[0]);
      }
      AttemptBounded(p, Apply(p, s, ts[0]), ts[1..], s');
    }
  }

  // ----- How an attempt ends -----

  /** The daemon's own HELLO_ACK is too large for a frame. */
  predicate Stuck(p: Params, s: Sys) {
    s.link.Up? && s.link.stage.GotHashes? && !Hellos.Fits(p.idLen, |s.link.stage.own.hashes|)
  }

  /** Everything sent so far has been taken, and it is up to the shell to produce more or to exit. */
  predicate Waiting(s: Sys) {
    && s.host.Live? && !s.host.sealed && s.link.Up? && s.link.stage.Sending? && s.link.down == []
    && (s.link.stage.ending.Starved? || |s.host.buf.stream| <= s.link.stage.cursor)
  }

  predicate Over(p: Params, s: Sys) {
    !s.fate.Running? || Stuck(p, s) || Waiting(s) || (s.link.Up? && s.link.stage.Closed?)
  }

  lemma NextReplay(p: Params, s: Sys) returns (t: Step)
    requires Inv(p, s) && s.link.Up? && s.link.stage.Replaying?
    ensures Progress(t) && Enabled(p, s, t)
  {
    var r := s.link.stage.replay;
    if r.cursor < r.file.endOff {
      t := ReplayMove(Streaming.Send(1));
    } else if r.rest == [] {
      t := ReplayExit;
    } else if r.rest[0].endOff <= r.cursor {
      t := ReplayMove(Streaming.Skip);
    } else {
      t := if s.host.Kept? then ReplayMove(Streaming.Open) else ReplayFail;
    }
  }

  lemma NextLive(p: Params, s: Sys) returns (t: Step)
    requires Inv(p, s) && s.link.Up? && s.link.stage.Sending? && !Waiting(s) && s.link.down == []
    ensures Progress(t) && Enabled(p, s, t)
  {
    hide ScanFrom, InAlt, WithResyncs;
    var c := s.link.stage.cursor;
    if !s.link.stage.ending.Open? {
      t := SendExit;
    } else if |s.host.buf.stream| <= c {
      t := Drain;
    } else {
      t := if s.host.buf.trim <= c then SendFrame else Starve;
    }
  }

  /** As long as an attempt is not over, it can make a move. */
  lemma NextStep(p: Params, s: Sys) returns (t: Step)
    requires Inv(p, s) && s.link.Up? && !Over(p, s)
    ensures Progress(t) && Enabled(p, s, t)
  {
    var g := s.link.stage;
    if s.link.down != [] {
      t := Deliver;
    } else if g.Sending? {
      t := NextLive(p, s);
    } else if g.Replaying? {
      t := NextReplay(p, s);
    } else {
      t := match g
           case Hello(_) => ReadTotal
           case GotTotal(_, _) => ReadFirst
           case GotFirst(_, _, _) => ReadHashes
           case GotHashes(_, _) => Accept
           case _ => ReplayAccept;
    }
  }

  lemma CanMoveOn(p: Params, s: Sys)
    requires Inv(p, s) && s.link.Up? && !Over(p, s)
    ensures exists t: Step :: Progress(t) && Enabled(p, s, t)
  {
    var t := NextStep(p, s);
  }

  /** Every attempt can be driven to where it is over. */
  lemma {:induction false} AttemptEnds(p: Params, s: Sys) returns (s': Sys)
    requires Inv(p, s) && s.link.Up?
    ensures Leads(p, s, s', Progress) && Over(p, s') && s'.link.Up?
    decreases Work(s)
  {
    InvOk(p, s);
    hide Enabled, Apply, Inv, Over, Work, Leads;
    LeadsSelf(p, s, Progress);
    s' := s;
    if !Over(p, s) {
      var t := NextStep(p, s);
      ProgressShrinks(p, s, t);
      StepKeeps(p, s, t);
      LeadsStep(p, s, s, t, Progress);
      s' := AttemptEnds(p, Apply(p, s, t));
      LeadsTrans(p, s, Apply(p, s, t), s', Progress);
    }
  }

  lemma InvOk(p: Params, s: Sys)
    requires Inv(p, s)
    ensures p.Ok()
  {
  }

  /** Without a cut an open connection stays one. */
  lemma {:induction false} StaysOpen(p: Params, s: Sys, ts: seq<Step>, s': Sys)
    requires Inv(p, s) && Run(p, s, ts, s') && All(ts, Uncut)
    requires s.link.Up? && !s.link.stage.Closed?
    ensures s'.link.Up? && !s'.link.stage.Closed?
    decreases |ts|
  {
    assert p.Ok();
    if ts != [] {
      assert Uncut(ts[0]);
      StepKeeps(p, s, ts[0]);
      StepStaysOpen(p, s, ts[0]);
      hide Enabled, Apply, Inv;
      StaysOpen(p, Apply(p, s, ts[0]), ts[1..], s');
    }
  }

  lemma StepStaysOpen(p: Params, s: Sys, t: Step)
    requires p.Ok() && Enabled(p, s, t) && Uncut(t) && s.link.Up? && !s.link.stage.Closed?
    ensures Apply(p, s, t).link.Up? && !Apply(p, s, t).link.stage.Closed?
  {
    hide Resend, HashesFrom, Hellos.Fits, Received, Greeted, Streaming.Moved, Streaming.Sent, Streaming.CanMove;
    if !Progress(t) {
      OthersKeepLink(p, s, t);
    }
  }

  /** No move of the attempt is left. */
  ghost predicate Settled(p: Params, s: Sys) {
    forall t: Step :: Progress(t) ==> !Enabled(p, s, t)
  }

  /**
   Every uncut attempt on an ended session ends complete: whatever else happens meanwhile, in whatever
   order, as long as nothing left over from earlier connections gets in its way, no move is left only
   when EXIT has arrived and the client has everything, or when the daemon could not say HELLO_ACK.
   */
  lemma AttemptCompletes(p: Params, s: Sys, ts: seq<Step>, s': Sys)
    requires Inv(p, s) && s.link.Up? && !s.link.stage.Closed? && Ended(s.host) && Punctual(s)
    requires Run(p, s, ts, s') && All(ts, Uncut) && Orderly(p, s, ts) && Settled(p, s')
    ensures Stuck(p, s') || (s'.fate.Exited? && s'.client.buf.stream == Produced(s'.host) == Produced(s.host))
  {
    assert p.Ok();
    RunKeeps(p, s, ts, s');
    OrderlyRuns(p, s, ts, s');
    StaysOpen(p, s, ts, s');
    MissingNeverGrows(p, s, ts, s');
    if !Over(p, s') {
      CanMoveOn(p, s');
    }
    if s'.fate.Exited? {
      PunctualExit(p, s');
    }
  }

  // ----- What can still be completed -----

  /** An attempt all of whose moves are its own, with no acknowledgement left over, is orderly. */
  lemma {:induction false} ProgressOrderly(p: Params, s: Sys, ts: seq<Step>, s': Sys)
    requires p.Ok() && Run(p, s, ts, s') && All(ts, Progress) && s.late == []
    ensures Orderly(p, s, ts)
    decreases |ts|
  {
    if ts != [] {
      assert Progress(ts[0]);
      KeepsLate(p, s, ts[0]);
      hide Enabled, Apply;
      ProgressOrderly(p, Apply(p, s, ts[0]), ts[1..], s');
    }
  }

  lemma KeepsLate(p: Params, s: Sys, t: Step)
    requires p.Ok() && Enabled(p, s, t) && Progress(t)
    ensures Apply(p, s, t).late == s.late
  {
    hide Resend, HashesFrom, Hellos.Fits, Received, Greeted, Streaming.Moved, Streaming.Sent, Streaming.CanMove;
  }

  lemma {:induction false} StaysPast(p: Params, s: Sys, ts: seq<Step>, s': Sys)
    requires p.Ok() && Run(p, s, ts, s') && All(ts, Progress) && s.link.Up? && !Handshaking(s.link.stage)
    ensures s'.link.Up? && !Handshaking(s'.link.stage)
    decreases |ts|
  {
    if ts != [] {
      assert Progress(ts[0]);
      StepStaysPast(p, s, ts[0]);
      hide Enabled, Apply;
      StaysPast(p, Apply(p, s, ts[0]), ts[1..], s');
    }
  }

  lemma StepStaysPast(p: Params, s: Sys, t: Step)
    requires p.Ok() && Enabled(p, s, t) && Progress(t) && s.link.Up? && !Handshaking(s.link.stage)
    ensures Apply(p, s, t).link.Up? && !Handshaking(Apply(p, s, t).link.stage)
  {
    hide Resend, HashesFrom, Hellos.Fits, Received, Greeted, Streaming.Moved, Streaming.Sent, Streaming.CanMove;
  }

  /** A client that has taken EXIT and everything before it. */
  ghost predicate Complete(s: Sys, all: seq<byte>) {
    s.fate.Exited? && s.client.buf.stream == all && Produced(s.host) == all
  }

  /** An undisturbed attempt past its handshake, or in replay, can be driven to completion. */
  lemma Finish(p: Params, s: Sys) returns (s': Sys)
    requires Inv(p, s) && s.link.Up? && !s.link.stage.Closed? && Ended(s.host) && Punctual(s) && s.late == []
    requires !Handshaking(s.link.stage)
    ensures Leads(p, s, s', Progress) && Complete(s', Produced(s.host))
  {
    assert p.Ok();
    s' := AttemptEnds(p, s);
    var ts: seq<Step> :| Run(p, s, ts, s') && All(ts, Progress);
    hide Enabled, Apply;
    ProgressOrderly(p, s, ts, s');
    StaysPast(p, s, ts, s');
    assert All(ts, Uncut);
    StaysOpen(p, s, ts, s');
    MissingNeverGrows(p, s, ts, s');
    OrderlyRuns(p, s, ts, s');
    assert s'.fate.Exited?;
    PunctualExit(p, s');
  }

  /** From preserved files: a replay that is left alone delivers everything. */
  lemma ReplayCompletes(p: Params, s: Sys) returns (s': Sys)
    requires Inv(p, s) && s.fate.Running? && s.host.Kept? && s.link.Down?
    requires HelloFits(p, s.client) && Len(s) < |Produced(s.host)|
    ensures Leads(p, s, s', Any) && Complete(s', Produced(s.host))
  {
    assert Reachable(s.host);
    StepKeeps(p, s, Connect);
    LeadsSelf(p, s, Any);
    LeadsStep(p, s, s, Connect, Any);
    var a := Apply(p, s, Connect);
    s' := ReplayAnswers(p, a);
    LeadsTrans(p, s, a, s', Any);
  }

  /** So does one that has been dialled already. */
  lemma ReplayAnswers(p: Params, a: Sys) returns (s': Sys)
    requires Inv(p, a) && a.fate.Running? && a.host.Kept? && a.link.Up? && a.link.stage.ReplayHello?
    ensures Leads(p, a, s', Any) && Complete(s', Produced(a.host))
  {
    StepKeeps(p, a, ReplayAccept);
    LeadsSelf(p, a, Any);
    LeadsStep(p, a, a, ReplayAccept, Any);
    var b := Apply(p, a, ReplayAccept);
    s' := Finish(p, b);
    LeadsWider(p, b, s', Progress, Any);
    LeadsTrans(p, a, b, s', Any);
  }

  /** An uninterrupted handshake is what `Streaming.ServeHello` computes. */
  lemma Handshake(p: Params, s: Sys) returns (s': Sys)
    requires p.Ok() && s.host.Live? && s.link.Up? && s.link.stage.Hello? && s.link.down == []
    requires Hellos.Fits(p.idLen, |ManifestOf(p.dc, s.host.buf).hashes|)
    ensures Leads(p, s, s', Progress)
    ensures var r := Max(Resend(ManifestOf(p.dc, s.host.buf), s.link.stage.peer, p.dc.chunkSize), s.host.buf.trim);
            s' == s.(link := s.link.(stage := Sending(r, Open), pos := r, down := [HelloAck(s.host.alt, |s.host.buf.stream|)]))
  {
    var peer, v := s.link.stage.peer, s.host.buf;
    LeadsTwo(p, s, ReadTotal, ReadFirst, Progress);
    var b := s.(link := s.link.(stage := GotFirst(peer, |v.stream|, v.first)));
    LeadsTwo(p, b, ReadHashes, Accept, Progress);
    s' := Apply(p, Apply(p, b, ReadHashes), Accept);
    LeadsTrans(p, s, b, s', Progress);
    ClampValue(p, b);
  }

  /** The last two handshake steps, computed. */
  lemma ClampValue(p: Params, b: Sys)
    requires p.Ok() && b.host.Live? && b.link.Up? && b.link.stage.GotFirst? && b.link.down == []
    requires b.link.stage.total == |b.host.buf.stream| && b.link.stage.first == b.host.buf.first
    requires Hellos.Fits(p.idLen, |ManifestOf(p.dc, b.host.buf).hashes|)
    ensures Enabled(p, Apply(p, b, ReadHashes), Accept)
    ensures var r := Max(Resend(ManifestOf(p.dc, b.host.buf), b.link.stage.peer, p.dc.chunkSize), b.host.buf.trim);
            Apply(p, Apply(p, b, ReadHashes), Accept) ==
            b.(link := b.link.(stage := Sending(r, Open), pos := r, down := [HelloAck(b.host.alt, |b.host.buf.stream|)]))
  {
    hide Resend, Hellos.Fits;
    var m := HelloAck(b.host.alt, |b.host.buf.stream|);
    assert [] + [m] == [m];
  }

  /** The daemon's HELLO_ACK would fit as its buffer stands. */
  predicate AnswerFits(p: Params, s: Sys)
    requires p.Ok() && s.host.Live?
  {
    Hellos.Fits(p.idLen, |ManifestOf(p.dc, s.host.buf).hashes|)
  }

  /** A reconnect whose handshake is not interrupted. */
  lemma Reconnect(p: Params, s: Sys) returns (s': Sys)
    requires p.Ok() && s.host.Live? && s.host.open && Enabled(p, s, Connect) && HelloFits(p, s.client) && AnswerFits(p, s)
    ensures Leads(p, s, s', Uncut)
    ensures var r := Max(Resend(ManifestOf(p.dc, s.host.buf), ManifestOf(p.cc, s.client.buf), p.dc.chunkSize), s.host.buf.trim);
            s' == s.(link := Up(Sending(r, Open), [HelloAck(s.host.alt, |s.host.buf.stream|)], [], false, r, 0))
  {
    LeadsSelf(p, s, Uncut);
    LeadsStep(p, s, s, Connect, Uncut);
    var a := Apply(p, s, Connect);
    s' := Handshake(p, a);
    LeadsWider(p, a, s', Progress, Uncut);
    LeadsTrans(p, s, a, s', Uncut);
  }

  /** It resends less than two chunks that the client already has. */
  lemma ReconnectOverlap(p: Params, s: Sys) returns (s': Sys)
    requires Inv(p, s) && p.dc.H == p.cc.H && s.host.Live? && s.host.open && Enabled(p, s, Connect)
    requires HelloFits(p, s.client) && AnswerFits(p, s)
    ensures Leads(p, s, s', Uncut) && s' == s.(link := s'.link) && s'.link.Up? && s'.link.stage.Sending?
    ensures s.host.buf.trim <= s'.link.stage.cursor <= Len(s) < s'.link.stage.cursor + 2 * p.dc.chunkSize
  {
    s' := Reconnect(p, s);
    ResendPointCorrect(p.dc, s.host.buf, p.cc, s.client.buf);
  }

  /** From a listening daemon whose shell has exited: a reconnect that is left alone delivers everything. */
  lemma LiveCompletes(p: Params, s: Sys) returns (s': Sys)
    requires Inv(p, s) && s.fate.Running? && s.host.Live? && s.host.sealed && s.host.open && s.link.Down? && s.late == []
    requires HelloFits(p, s.client) && AnswerFits(p, s)
    ensures Leads(p, s, s', Any) && Complete(s', Produced(s.host))
  {
    var a := Reconnect(p, s);
    LeadsKeeps(p, s, a, Uncut);
    LeadsWider(p, s, a, Uncut, Any);
    s' := Finish(p, a);
    LeadsWider(p, a, s', Progress, Any);
    LeadsTrans(p, s, a, s', Any);
  }
}
