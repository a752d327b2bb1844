/** Which sessions can still be completed. */
module Recovery {
  import opened Bytes
  import opened History
  import opened AltScreen
  import opened Chunks
  import opened Clients
  import opened SegmentFiles
  import opened Delivery
  import opened Invariant
  import opened Theorems
  import opened Completion
  import Hellos

  /** The client can still come to have everything the shell produced. */
  ghost predicate Recoverable(p: Params, s: Sys)
    requires p.Ok()
  {
    exists s': Sys :: Leads(p, s, s', Any) && s'.client.buf.stream == Produced(s'.host)
  }

  /** How far the buffer would be trimmed if every acknowledgement still under way were read. */
  ghost function BestTrim(s: Sys): nat
    requires s.host.Live?
  {
    Max(s.host.buf.trim, MaxOf(s.late))
  }

  /** The daemon's HELLO_ACK fits in a frame, or would if those acknowledgements were read. */
  ghost predicate AnswerCanFit(p: Params, s: Sys)
    requires p.Ok() && s.host.Live?
  {
    Hellos.Fits(p.idLen, Max(Div(|s.host.buf.stream|, p.dc.chunkSize) - Div(BestTrim(s), p.dc.chunkSize), 0))
  }

  /**
   Somebody can still be reached: preserved files, a daemon that may yet preserve them, or one that has
   written an EXIT but still listens and whose HELLO_ACK can be sent.
   */
  ghost predicate Answers(p: Params, s: Sys)
    requires p.Ok()
  {
    match s.host
    case Kept(_, _) => true
    case Live(_, _, _, _, open, exit) => !exit || (open && AnswerCanFit(p, s))
    case Gone(_) => false
  }

  /** The abandoned attaches end. */
  lemma {:induction false} Quieten(p: Params, s: Sys) returns (s': Sys)
    requires Inv(p, s) && s.host.Live?
    ensures Leads(p, s, s', Any) && s' == s.(strays := [], late := [])
    decreases |s.strays|
  {
    LeadsSelf(p, s, Any);
    s' := s;
    if s.strays != [] {
      assert StrayOk(s.strays[0], s.host.Live?, Produced(s.host));
      StepKeeps(p, s, StrayEnds(0));
      LeadsStep(p, s, s, StrayEnds(0), Any);
      s' := Quieten(p, Apply(p, s, StrayEnds(0)));
      LeadsTrans(p, s, Apply(p, s, StrayEnds(0)), s', Any);
    }
  }

  /** A daemon that has written no EXIT may preserve its files. */
  lemma CanPreserve(p: Params, s: Sys) returns (s': Sys)
    requires Inv(p, s) && s.host.Live? && s.host.sealed && !s.host.exit && s.link.Down?
    ensures Leads(p, s, s', Any) && s'.host.Kept? && s'.link.Down? && s'.client == s.client && s'.fate == s.fate
    ensures Produced(s'.host) == Produced(s.host)
  {
    assert p.Ok();
    var a := Quieten(p, s);
    hide Inv, TileInfos, Leads;
    var b := StopListening(p, a);
    LeadsTrans(p, s, a, b, Any);
    s' := PreserveNow(p, b);
    LeadsTrans(p, s, b, s', Any);
  }

  lemma StopListening(p: Params, a: Sys) returns (b: Sys)
    requires p.Ok() && a.host.Live?
    ensures Leads(p, a, b, Any) && b == a.(host := a.host.(open := false))
  {
    LeadsSelf(p, a, Any);
    b := a;
    if a.host.open {
      LeadsStep(p, a, a, CloseListener, Any);
      b := Apply(p, a, CloseListener);
    }
  }

  lemma PreserveNow(p: Params, a: Sys) returns (s': Sys)
    requires p.Ok() && Enabled(p, a, Preserve)
    ensures Leads(p, a, s', Any) && s'.host.Kept? && s' == a.(host := s'.host) && Produced(s'.host) == Produced(a.host)
  {
    LeadsSelf(p, a, Any);
    LeadsStep(p, a, a, Preserve, Any);
    s' := Apply(p, a, Preserve);
  }

  /** The digest count of a manifest, from the trim point. */
  lemma ManifestCount(c: Config, v: View)
    requires WellFormed(c, v) && c.disk
    ensures Div(v.trim, c.chunkSize) <= Div(|v.stream|, c.chunkSize)
    ensures |ManifestOf(c, v).hashes| == Div(|v.stream|, c.chunkSize) - Div(v.trim, c.chunkSize)
  {
    ManifestReaches(c, v);
    DivMonotone(v.trim, |v.stream|, c.chunkSize);
  }

  /** Reading the acknowledgements that are still under way takes the trim point as far as they reach. */
  lemma ReadLate(p: Params, s: Sys) returns (s': Sys)
    requires Inv(p, s) && s.host.Live?
    ensures Leads(p, s, s', Any) && s'.host.Live?
    ensures s'.host == s.host.(buf := s'.host.buf) && s'.host.buf.stream == s.host.buf.stream
    ensures s'.host.buf.trim == BestTrim(s) && s'.link == s.link && s'.client == s.client && s'.fate == s.fate
    ensures Inv(p, s')
  {
    LeadsSelf(p, s, Any);
    s' := s;
    if s.host.buf.trim < MaxOf(s.late) {
      var i :| 0 <= i < |s.late| && s.late[i] == MaxOf(s.late);
      StepKeeps(p, s, LateAck(i));
      TrimmedWellFormed(p.dc, s.host.buf, s.late[i]);
      assert WellFormed(p.dc, s.host.buf) && s.late[i] <= |s.host.buf.stream|;
      hide Inv, Trimmed, WellFormed, Without, MaxOf, Leads;
      LeadsStep(p, s, s, LateAck(i), Any);
      s' := Apply(p, s, LateAck(i));
    }
  }

  /** A listening daemon whose HELLO_ACK can be made to fit can still deliver everything. */
  lemma CanAnswer(p: Params, s: Sys)
    requires Inv(p, s) && s.fate.Running? && s.host.Live? && s.host.sealed && s.host.open && s.link.Down?
    requires HelloFits(p, s.client) && AnswerCanFit(p, s)
    ensures Recoverable(p, s)
  {
    var a := ReadLate(p, s);
    var b := Quieten(p, a);
    LeadsTrans(p, s, a, b, Any);
    LeadsKeeps(p, s, b, Any);
    ManifestCount(p.dc, b.host.buf);
    var s' := LiveCompletes(p, b);
    LeadsTrans(p, s, b, s', Any);
  }

  lemma AnswersRecover(p: Params, s: Sys)
    requires Inv(p, s) && s.fate.Running? && s.link.Down? && Ended(s.host)
    requires HelloFits(p, s.client) && Answers(p, s) && Len(s) < |Produced(s.host)|
    ensures Recoverable(p, s)
  {
    if s.host.Live? && s.host.exit {
      CanAnswer(p, s);
    } else {
      var a := s;
      LeadsSelf(p, s, Any);
      if s.host.Live? {
        a := CanPreserve(p, s);
        LeadsKeeps(p, s, a, Any);
      }
      var s' := ReplayCompletes(p, a);
      LeadsTrans(p, s, a, s', Any);
    }
  }

  /** Disconnected, and no attach will be made or answered. */
  predicate Shut(p: Params, s: Sys)
    requires p.Ok()
  {
    s.link.Down? && (s.fate.GaveUp? || !HelloFits(p, s.client) || s.host.Gone? || (s.host.Live? && s.host.exit && !s.host.open))
  }

  /** In the handshake of a live daemon, with no HELLO_ACK sent or about to be. */
  predicate Awaiting(p: Params, s: Sys) {
    s.link.Up? && Handshaking(s.link.stage) && !s.link.stage.ReplayHello? && (s.link.stage.GotHashes? ==> Stuck(p, s))
  }

  /** The daemon cannot send HELLO_ACK: the client waits for it in vain, or there will be no replay either. */
  ghost predicate Mute(p: Params, s: Sys)
    requires p.Ok()
  {
    && s.host.Live? && !AnswerCanFit(p, s)
    && (if s.link.Down? then s.host.exit else Awaiting(p, s))
  }

  /** Nobody will answer this client any more. */
  ghost predicate Stranded(p: Params, s: Sys)
    requires p.Ok()
  {
    Ended(s.host) && (Shut(p, s) || Mute(p, s))
  }

  lemma StrandedAnswer(p: Params, s: Sys)
    requires Inv(p, s) && s.host.Live? && !AnswerCanFit(p, s)
    ensures !AnswerFits(p, s)
  {
    ManifestCount(p.dc, s.host.buf);
    DivMonotone(s.host.buf.trim, BestTrim(s), p.dc.chunkSize);
  }

  /** Fewer acknowledgements under way, or one of them read, do not help. */
  lemma AnswerStaysTooLarge(p: Params, s: Sys, s': Sys)
    requires Inv(p, s) && Inv(p, s') && s.host.Live? && s'.host.Live? && !AnswerCanFit(p, s)
    requires s'.host.buf.stream == s.host.buf.stream && BestTrim(s') <= BestTrim(s)
    ensures !AnswerCanFit(p, s')
  {
    DivMonotone(BestTrim(s'), BestTrim(s), p.dc.chunkSize);
  }

  lemma FewerLate(xs: seq<nat>, ys: seq<nat>)
    requires forall y :: y in ys ==> y in xs
    ensures MaxOf(ys) <= MaxOf(xs)
  {
  }

  /** Neither the trim point nor the acknowledgements under way rise while nobody is served. */
  lemma BestTrimStays(p: Params, s: Sys, t: Step)
    requires Inv(p, s) && Enabled(p, s, t) && s.host.Live? && Apply(p, s, t).host.Live? && Ended(s.host)
    requires s.link.Down? || Handshaking(s.link.stage)
    ensures Apply(p, s, t).host.buf.stream == s.host.buf.stream && BestTrim(Apply(p, s, t)) <= BestTrim(s)
  {
    assert p.Ok();
    assert s.link.Up? ==> s.link.up == [];
    if t.LateAck? {
      assert WellFormed(p.dc, s.host.buf);
      hide *;
      LateAckBest(p, s, t.i);
    } else {
      assert s.host.sealed && (s.link.Up? ==> Handshaking(s.link.stage));
      hide *;
      OthersBest(p, s, t);
    }
  }

  lemma LateAckBest(p: Params, s: Sys, i: nat)
    requires p.Ok() && Enabled(p, s, LateAck(i)) && WellFormed(p.dc, s.host.buf)
    ensures Apply(p, s, LateAck(i)).host.buf.stream == s.host.buf.stream && BestTrim(Apply(p, s, LateAck(i))) <= BestTrim(s)
  {
    TrimmedWellFormed(p.dc, s.host.buf, s.late[i]);
    assert s.late[i] in s.late;
    FewerLate(s.late, Without(s.late, i));
    hide WellFormed, Trimmed, Without;
  }

  lemma OthersBest(p: Params, s: Sys, t: Step)
    requires p.Ok() && Enabled(p, s, t) && s.host.Live? && Apply(p, s, t).host.Live? && s.host.sealed && !t.LateAck?
    requires s.link.Down? || (Handshaking(s.link.stage) && s.link.up == [])
    ensures Apply(p, s, t).host.buf.stream == s.host.buf.stream && BestTrim(Apply(p, s, t)) <= BestTrim(s)
  {
    LateShrinks(p, s, t);
    FewerLate(s.late, Apply(p, s, t).late);
    hide Apply, Enabled;
  }

  lemma LateShrinks(p: Params, s: Sys, t: Step)
    requires p.Ok() && Enabled(p, s, t) && s.host.Live? && Apply(p, s, t).host.Live? && s.host.sealed && !t.LateAck?
    requires s.link.Down? || (Handshaking(s.link.stage) && s.link.up == [])
    ensures Apply(p, s, t).host.buf == s.host.buf
    ensures forall y :: y in Apply(p, s, t).late ==> y in s.late
  {
    hide HashesFrom, Hellos.Fits, ScanFrom, Resend, Received, HelloFits;
  }

  lemma ShutStep(p: Params, s: Sys, t: Step)
    requires p.Ok() && Ended(s.host) && Shut(p, s) && Enabled(p, s, t)
    ensures Shut(p, Apply(p, s, t)) && Apply(p, s, t).client == s.client
  {
    hide HelloFits, ScanFrom, AckedTo, TileInfos;
  }

  /** The link and the flags of a daemon that cannot answer. */
  lemma MuteMoves(p: Params, s: Sys, t: Step)
    requires p.Ok() && Ended(s.host) && Mute(p, s) && Enabled(p, s, t)
    requires s.link.Up? ==> s.link.down == [] && s.link.up == [] && !s.link.attached
    requires !AnswerFits(p, s)
    ensures var s' := Apply(p, s, t);
            && s'.client == s.client
            && (Shut(p, s') || (s'.host.Live? && if s'.link.Down? then s'.host.exit else Awaiting(p, s')))
  {
    hide HelloFits, ScanFrom, AckedTo, TileInfos, AnswerCanFit, Hellos.Fits, HashesFrom;
  }

  lemma StrandedStep(p: Params, s: Sys, t: Step)
    requires Inv(p, s) && Stranded(p, s) && Enabled(p, s, t)
    ensures Stranded(p, Apply(p, s, t)) && Apply(p, s, t).client == s.client && Produced(Apply(p, s, t).host) == Produced(s.host)
  {
    var s' := Apply(p, s, t);
    StepKeeps(p, s, t);
    StepGrows(p, s, t);
    if Shut(p, s) {
      ShutStep(p, s, t);
    } else {
      StrandedAnswer(p, s);
      assert s.link.Up? ==> s.link.down == [] && s.link.up == [] && !s.link.attached;
      MuteMoves(p, s, t);
      hide Inv, Apply, Enabled, AnswerCanFit, HelloFits, Stuck;
      if s'.host.Live? {
        BestTrimStays(p, s, t);
        AnswerStaysTooLarge(p, s, s');
      }
    }
  }

  lemma {:induction false} StaysStranded(p: Params, s: Sys, ts: seq<Step>, s': Sys)
    requires Inv(p, s) && Stranded(p, s) && Run(p, s, ts, s')
    ensures s'.client == s.client && Produced(s'.host) == Produced(s.host)
    decreases |ts|
  {
    assert p.Ok();
    if ts != [] {
      StepKeeps(p, s, ts[0]);
      StrandedStep(p, s, ts[0]);
      hide Enabled, Apply, Inv, Stranded;
      StaysStranded(p, Apply(p, s, ts[0]), ts[1..], s');
    }
  }

  /**
   Exactly which disconnected clients of an ended session can still get everything: those that have it,
   and those whose HELLO fits in a frame while somebody can still be reached.
   */
  lemma RecoverableIff(p: Params, s: Sys)
    requires Inv(p, s) && s.fate.Running? && s.link.Down? && Ended(s.host)
    ensures Recoverable(p, s) <==> Len(s) == |Produced(s.host)| || (HelloFits(p, s.client) && Answers(p, s))
  {
    if Len(s) == |Produced(s.host)| {
      LeadsSelf(p, s, Any);
    } else if HelloFits(p, s.client) && Answers(p, s) {
      AnswersRecover(p, s);
    } else {
      forall s': Sys | Leads(p, s, s', Any)
        ensures s'.client.buf.stream != Produced(s'.host)
      {
        var ts: seq<Step> :| Run(p, s, ts, s') && All(ts, Any);
        StaysStranded(p, s, ts, s');
      }
    }
  }

  /** An attach made now would be answered, and can be served to the end. */
  ghost predicate AnswersNow(p: Params, s: Sys)
    requires p.Ok()
  {
    Reachable(s.host) && (s.host.Live? ==> AnswerCanFit(p, s))
  }

  /** A client in the handshake of such a daemon can get everything. */
  lemma HelloAnswered(p: Params, a: Sys)
    requires Inv(p, a) && a.fate.Running? && a.host.Live? && a.host.sealed && a.link.Up? && a.link.stage.Hello?
    requires AnswerCanFit(p, a)
    ensures Recoverable(p, a)
  {
    var b := ReadLate(p, a);
    var c := Quieten(p, b);
    LeadsTrans(p, a, b, c, Any);
    LeadsKeeps(p, a, c, Any);
    ManifestCount(p.dc, c.host.buf);
    HandshakeServed(p, c);
    var s': Sys :| Leads(p, c, s', Any) && s'.client.buf.stream == Produced(s'.host);
    LeadsTrans(p, a, c, s', Any);
  }

  lemma HandshakeServed(p: Params, c: Sys)
    requires Inv(p, c) && c.fate.Running? && c.host.Live? && c.host.sealed && c.link.Up? && c.link.stage.Hello?
    requires c.late == [] && AnswerFits(p, c)
    ensures Recoverable(p, c)
  {
    assert c.link.down == [];
    var d := Handshake(p, c);
    LeadsKeeps(p, c, d, Progress);
    LeadsWider(p, c, d, Progress, Any);
    var s' := Finish(p, d);
    LeadsWider(p, d, s', Progress, Any);
    LeadsTrans(p, c, d, s', Any);
  }

  /** What dialling makes of a client whom nobody can serve. */
  lemma DialledInVain(p: Params, s: Sys)
    requires Inv(p, s) && s.fate.Running? && s.link.Down? && Ended(s.host)
    requires !HelloFits(p, s.client) || !AnswersNow(p, s)
    ensures var a := Apply(p, s, Connect);
            Stranded(p, a) && a.client == s.client && Produced(a.host) == Produced(s.host)
  {
    hide Inv, HelloFits;
  }

  lemma DialledWell(p: Params, s: Sys)
    requires Inv(p, s) && s.fate.Running? && s.link.Down? && Ended(s.host)
    requires HelloFits(p, s.client) && AnswersNow(p, s)
    ensures Recoverable(p, Apply(p, s, Connect))
  {
    var a := Apply(p, s, Connect);
    StepKeeps(p, s, Connect);
    if s.host.Live? {
      HelloAnswered(p, a);
    } else {
      var s' := ReplayAnswers(p, a);
    }
  }

  /**
   Exactly when a disconnected client of an ended session does well to dial now: when it has everything,
   or its HELLO fits in a frame and there is somebody to answer it who can. Otherwise the attempt ends
   it, although waiting might not have.
   */
  lemma DialIff(p: Params, s: Sys)
    requires Inv(p, s) && s.fate.Running? && s.link.Down? && Ended(s.host)
    ensures Recoverable(p, Apply(p, s, Connect)) <==>
            Len(s) == |Produced(s.host)| || (HelloFits(p, s.client) && AnswersNow(p, s))
  {
    var a := Apply(p, s, Connect);
    StepKeeps(p, s, Connect);
    if HelloFits(p, s.client) && AnswersNow(p, s) {
      DialledWell(p, s);
    } else {
      DialledInVain(p, s);
      LeadsSelf(p, a, Any);
      if Len(s) != |Produced(s.host)| {
        forall s': Sys | Leads(p, a, s', Any)
          ensures s'.client.buf.stream != Produced(s'.host)
        {
          var ts: seq<Step> :| Run(p, a, ts, s') && All(ts, Any);
          StaysStranded(p, a, ts, s');
        }
      }
    }
  }
}
