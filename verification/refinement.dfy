/** The end of a daemon in the delivery system is the verdict of the daemon's flags. */
module Refinement {
  import opened Bytes
  import D = Delivery
  import L = Lifecycle

  /** A live daemon in both systems, with the same flags. */
  ghost predicate Mirrors(d: D.Sys, s: L.State) {
    && d.host.Live? && s.removed.None?
    && d.host.open == s.listening && d.host.exit == s.core.exitDelivered
    && ((forall id :: id in s.attaches ==> s.attaches[id].phase.Left?) ==> D.Unattended(d))
  }

  /** What the delivery system calls the daemon's decision. */
  function Verdict(s: L.State): D.Step {
    if L.Preserve(s.core) then D.Preserve else if s.core.exitDelivered then D.Remove else D.Abort
  }

  /**
   Whenever the daemon decides, the delivery system can make the step of that name, and keeps the files
   exactly if the daemon does.
   */
  lemma VerdictRefines(p: D.Params, d: D.Sys, s: L.State)
    requires p.Ok() && Mirrors(d, s) && L.Enabled(s, L.Decide) && d.host.sealed
    ensures D.Enabled(p, d, Verdict(s))
    ensures D.Apply(p, d, Verdict(s)).host.Kept? <==> L.Apply(s, L.Decide).removed == Some(false)
    ensures D.Apply(p, d, Verdict(s)).host.Gone? <==> L.Apply(s, L.Decide).removed == Some(true)
  {
  }

  /** Nor can it end in the other way: after an EXIT the files go, before one they are not removed as delivered. */
  lemma VerdictExcludes(p: D.Params, d: D.Sys, s: L.State)
    requires p.Ok() && Mirrors(d, s) && L.Enabled(s, L.Decide) && d.host.sealed
    ensures D.Enabled(p, d, D.Remove) <==> s.core.exitDelivered
    ensures D.Enabled(p, d, D.Preserve) <==> !s.core.exitDelivered
  {
  }

  /** `Abort` is the verdict of reachable flags exactly if nothing was delivered and nobody asked to keep. */
  lemma AbortIff(ts: seq<L.Step>, s: L.State)
    requires L.Run(L.Start, ts, s)
    ensures Verdict(s).Abort? <==> !s.core.exitDelivered && !s.capOrSignal && (s.clientAsked || !s.core.exited)
  {
    L.RunKeepsInv(L.Start, ts, s);
  }

  /** The listener closes in both systems together. */
  lemma ListenerRefines(p: D.Params, d: D.Sys, s: L.State, t: L.Step)
    requires p.Ok() && Mirrors(d, s) && L.Enabled(s, t) && (t.StopListener? || t.AcceptFails?)
    ensures D.Enabled(p, d, D.CloseListener) && Mirrors(D.Apply(p, d, D.CloseListener), L.Apply(s, t))
  {
  }

  /** EXIT written by the client's own attach, or by one it has given up on, sets the flag in both. */
  lemma ExitRefines(p: D.Params, d: D.Sys, s: L.State, id: nat, u: D.Step)
    requires p.Ok() && Mirrors(d, s) && L.Enabled(s, L.ExitWritten(id)) && D.Enabled(p, d, u) && (u.SendExit? || u.StrayExit?)
    ensures Mirrors(D.Apply(p, d, u), L.Apply(s, L.ExitWritten(id)))
  {
    assert id in L.Apply(s, L.ExitWritten(id)).attaches && !L.Apply(s, L.ExitWritten(id)).attaches[id].phase.Left?;
  }
}
