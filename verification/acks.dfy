/** What acknowledgements achieve: the daemon gets to give up what the client has. */
module Acknowledgements {
  import opened Bytes
  import opened History
  import opened AltScreen
  import opened Clients
  import opened Delivery
  import opened Invariant
  import opened Theorems
  import Hellos
  import Streaming

  /**
   The client's watermark is no private matter: it is what HELLO announced, an acknowledgement on its
   way, or below what the daemon has already given up.
   */
  ghost predicate Acknowledged(s: Sys) {
    s.link.Up? && s.link.attached && s.host.Live? ==>
      && s.link.greeted <= s.client.acked
      && (s.client.acked == s.link.greeted || s.client.acked in s.link.up || s.client.acked <= s.host.buf.trim)
  }

  /** A watermark that moves has been sent. */
  lemma ReceivedAcks(c: Config, k: Client, off: nat, x: seq<byte>)
    requires k.acked <= |k.buf.stream|
    ensures var r := Received(c, k, off, x);
            if r.1.None? then r.0.acked == k.acked else r.1.value == r.0.acked >= k.acked
  {
    hide ScanFrom;
    if NewBytes(|k.buf.stream|, off, x).Some? {
      AppendedGrows(c, k.buf, NewBytes(|k.buf.stream|, off, x).value);
    }
  }

  lemma OutputAcknowledged(p: Params, s: Sys)
    requires Inv(p, s) && Acknowledged(s) && Enabled(p, s, Deliver) && s.link.down[0].Output?
    ensures Acknowledged(Apply(p, s, Deliver))
  {
    ReceivedAcks(p.cc, s.client, s.link.down[0].off, s.link.down[0].payload);
    assert s.client.acked <= Len(s);
    hide Inv, Received;
  }

  /** Taking HELLO_ACK: both ends know what the client holds, and it is in alt-screen if the daemon is. */
  lemma GreetedAt(p: Params, s: Sys)
    requires Inv(p, s) && Enabled(p, s, Deliver) && s.link.down[0].HelloAck?
    ensures var s' := Apply(p, s, Deliver);
            && s'.link.attached && s'.link.greeted == s'.client.acked == Len(s') == Len(s)
            && s'.client.inAlt == (s.link.down[0].alt || s.client.inAlt)
  {
    hide Inv;
  }

  lemma DeliverAcknowledged(p: Params, s: Sys)
    requires Inv(p, s) && Acknowledged(s) && Enabled(p, s, Deliver)
    ensures Acknowledged(Apply(p, s, Deliver))
  {
    match s.link.down[0]
    case HelloAck(_, _) => GreetedAt(p, s); hide Inv;
    case Output(_, _) => OutputAcknowledged(p, s);
    case Exit => hide Inv;
  }

  lemma TrimAcknowledged(p: Params, s: Sys, t: Step, off: nat)
    requires Inv(p, s) && Acknowledged(s) && Enabled(p, s, t)
    requires (t.ProcessAck? && off == s.link.up[0]) || (t.LateAck? && off == s.late[t.i])
    ensures Acknowledged(Apply(p, s, t))
  {
    TrimmedWellFormed(p.dc, s.host.buf, off);
    assert s.client.acked <= Len(s) <= |s.host.buf.stream| && WellFormed(p.dc, s.host.buf);
    hide Inv, WellFormed, Trimmed;
    assert t.ProcessAck? ==> s.link.up == [off] + s.link.up[1..];
  }

  /** Steps that leave the client's books, the acknowledgements on their way and the trim point alone. */
  lemma AsideAcknowledged(p: Params, s: Sys, t: Step)
    requires p.Ok() && Acknowledged(s) && Enabled(p, s, t)
    requires !t.Deliver? && !t.IdleAck? && !t.ProcessAck? && !t.LateAck?
    ensures Acknowledged(Apply(p, s, t))
  {
    hide ScanFrom, Hellos.Fits, HelloFits, Reachable, LeftBehind, Without;
    hide Streaming.Moved, Streaming.Sent, Streaming.CanMove, Streaming.Finished, Streaming.Piece;
  }

  lemma IdleAcknowledged(p: Params, s: Sys)
    requires Inv(p, s) && Acknowledged(s) && Enabled(p, s, IdleAck)
    ensures Acknowledged(Apply(p, s, IdleAck))
  {
    assert s.client.acked <= Len(s);
    hide Inv;
  }

  lemma StepAcknowledged(p: Params, s: Sys, t: Step)
    requires Inv(p, s) && Acknowledged(s) && Enabled(p, s, t)
    ensures Acknowledged(Apply(p, s, t))
  {
    assert p.Ok();
    hide Inv, Acknowledged, Apply;
    if t.Deliver? {
      DeliverAcknowledged(p, s);
    } else if t.IdleAck? {
      IdleAcknowledged(p, s);
    } else if t.ProcessAck? {
      TrimAcknowledged(p, s, t, s.link.up[0]);
    } else if t.LateAck? {
      TrimAcknowledged(p, s, t, s.late[t.i]);
    } else {
      AsideAcknowledged(p, s, t);
    }
  }

  lemma {:induction false} RunAcknowledged(p: Params, s: Sys, ts: seq<Step>, s': Sys)
    requires Inv(p, s) && Acknowledged(s) && Run(p, s, ts, s')
    ensures Inv(p, s') && Acknowledged(s')
    decreases |ts|
  {
    assert p.Ok();
    hide Enabled, Apply, Inv, Acknowledged;
    if ts != [] {
      StepKeeps(p, s, ts[0]);
      StepAcknowledged(p, s, ts[0]);
      RunAcknowledged(p, Apply(p, s, ts[0]), ts[1..], s');
    }
  }

  /** In every run the watermark of an attached client has been sent, or was announced in HELLO. */
  lemma WatermarkSent(p: Params, ts: seq<Step>, s: Sys)
    requires p.Ok() && Run(p, Start, ts, s) && s.link.Up? && s.link.attached && s.host.Live?
    ensures s.link.greeted <= s.client.acked <= Len(s)
    ensures s.client.acked == s.link.greeted || s.client.acked in s.link.up || s.client.acked <= s.host.buf.trim
  {
    StartOk(p);
    RunAcknowledged(p, Start, ts, s);
    hide ScanFrom, InAlt, WellFormed, QueueOk, UpOk, TermOk, FlagOk;
  }

  /**
   Once the acknowledgements on their way are processed, the daemon holds less than 5 MiB of what the
   client has received since HELLO; and after an idle acknowledgement none of it.
   */
  lemma DaemonReleases(p: Params, ts: seq<Step>, s: Sys)
    requires p.Ok() && Run(p, Start, ts, s) && s.link.Up? && s.link.attached && s.host.Live? && s.link.up == []
    ensures Len(s) - Max(s.host.buf.trim, s.link.greeted) < 0x50_0000
    ensures s.link.greeted < s.client.acked == Len(s) ==> s.host.buf.trim == Len(s)
  {
    WatermarkSent(p, ts, s);
    AcksBehindStreamer(p, ts, s);
    ExactlyOnce(p, ts, s);
    hide Run;
  }

  /** The idle acknowledgement covers everything received, whenever there is anything to acknowledge. */
  lemma IdleAckCovers(p: Params, s: Sys)
    requires Inv(p, s) && Enabled(p, s, IdleAck)
    ensures var s' := Apply(p, s, IdleAck);
            s'.client.acked == Len(s') == Len(s) && s'.link.up == s.link.up + (if s.client.acked < Len(s) then [Len(s)] else [])
  {
    assert s.client.acked <= Len(s);
    hide Inv;
    assert s.link.up + [] == s.link.up;
  }
}
