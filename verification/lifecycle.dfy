/**
 The daemon's shared flags in `internal/daemon/daemon.go`: which attach owns the session, when the
 listener stops, and whether the session directory survives. Each critical section is one step; a
 run is any interleaving of them.
 */
module Lifecycle {
  import opened Bytes

  /** The fields guarded by `daemon.mu`. Connections are numbered as they are accepted. */
  datatype Core = Core(active: Option<nat>, epoch: nat, exited: bool, shutdown: bool,
                       signalShutdown: bool, preserveOnExit: bool, exitDelivered: bool)

  const FreshCore: Core := Core(None, 0, false, false, false, false, false)

  function Registered(c: Core, conn: nat): Core {
    c.(active := Some(conn), epoch := c.epoch + 1)
  }

  function ReaderEnded(c: Core, conn: nat): Core {
    if c.active == Some(conn) then c.(epoch := c.epoch + 1) else c
  }

  function Detached(c: Core, conn: nat): Core {
    if c.active == Some(conn) then c.(active := None) else c
  }

  function Aborted(c: Core): Core {
    c.(shutdown := true)
  }

  function Signalled(c: Core): Core {
    c.(signalShutdown := true, preserveOnExit := true)
  }

  function Capped(c: Core): Core {
    c.(shutdown := true, preserveOnExit := true)
  }

  function CommandExited(c: Core): Core {
    c.(exited := true)
  }

  function Delivered(c: Core): Core {
    c.(exitDelivered := true)
  }

  predicate MustLeave(c: Core, epoch: nat) {
    !(c.epoch == epoch && !c.shutdown && !c.exited)
  }

  predicate StopAccepting(c: Core, graceOver: bool) {
    c.shutdown || c.signalShutdown || (c.exited && c.active.None? && (c.exitDelivered || graceOver))
  }

  predicate Preserve(c: Core) {
    !c.exitDelivered && (c.preserveOnExit || (c.exited && !c.shutdown))
  }

  /**
   The daemon object: every method is one section executed under the mutex, and is proved to make the
   move that the runs below are made of.
   */
  class Daemon {
    var activeConn: Option<nat>
    var epoch: nat
    var exited: bool
    var shutdown: bool
    var signalShutdown: bool
    var preserveOnExit: bool
    var exitDelivered: bool

    function View(): Core
      reads this
    {
      Core(activeConn, epoch, exited, shutdown, signalShutdown, preserveOnExit, exitDelivered)
    }

    constructor ()
      ensures View() == FreshCore
    {
      activeConn, epoch := None, 0;
      exited, shutdown, signalShutdown, preserveOnExit, exitDelivered := false, false, false, false, false;
    }

    /** Takes over the session; `kicked` is the connection that must be closed. */
    method Register(conn: nat) returns (mine: nat, kicked: Option<nat>)
      modifies this
      ensures View() == Registered(old(View()), conn) && mine == epoch
      ensures kicked == if old(activeConn) == Some(conn) then None else old(activeConn)
    {
      kicked := None;
      if activeConn.Some? && activeConn.value != conn {
        kicked := activeConn;
      }
      activeConn := Some(conn);
      epoch := epoch + 1;
      mine := epoch;
    }

    method ReaderEnd(conn: nat)
      modifies this
      ensures View() == ReaderEnded(old(View()), conn)
    {
      if activeConn == Some(conn) {
        epoch := epoch + 1;
      }
    }

    method Detach(conn: nat)
      modifies this
      ensures View() == Detached(old(View()), conn)
    {
      if activeConn == Some(conn) {
        activeConn := None;
      }
    }

    method OnShutdownFrame()
      modifies this
      ensures View() == Aborted(old(View()))
    {
      shutdown := true;
    }

    method OnSignal()
      modifies this
      ensures View() == Signalled(old(View()))
    {
      signalShutdown := true;
      preserveOnExit := true;
    }

    method OnDiskCap()
      modifies this
      ensures View() == Capped(old(View()))
    {
      shutdown := true;
      preserveOnExit := true;
    }

    method OnCommandExit()
      modifies this
      ensures View() == CommandExited(old(View()))
    {
      exited := true;
    }

    method OnExitWritten()
      modifies this
      ensures View() == Delivered(old(View()))
    {
      exitDelivered := true;
    }

    /** The accept-stopper's test, as its loop makes it. */
    method ShouldStop(graceOver: bool) returns (stop: bool)
      ensures stop == StopAccepting(View(), graceOver)
    {
      if shutdown || signalShutdown {
        return true;
      }
      if exited && activeConn == None {
        if exitDelivered {
          return true;
        }
        if graceOver {
          return true;
        }
      }
      return false;
    }

    method DecidePreserve() returns (keep: bool)
      ensures keep == Preserve(View())
    {
      keep := !exitDelivered && (preserveOnExit || (exited && !shutdown));
    }

    /** One look of a waiting attach: whether its loop is over, and whether it then sends EXIT. */
    method Wake(mine: nat) returns (leave: bool, sendsExit: bool)
      ensures leave == MustLeave(View(), mine)
      ensures sendsExit == (leave && epoch == mine && !shutdown)
    {
      leave := !(epoch == mine && !shutdown && !exited);
      var superseded := epoch != mine;
      sendsExit := leave && !(superseded || shutdown);
    }

    /**
     Every step of the runs below is executed by one of these methods. `answer` is the verdict of the
     section, where it has one: stop listening, send EXIT, or keep the session directory.
     */
    method Perform(t: Step, ghost s: State) returns (answer: bool)
      requires Enabled(s, t) && View() == s.core
      modifies this
      ensures View() == Apply(s, t).core
      ensures t.StopListener? ==> answer
      ensures t.Leave? ==> Apply(s, t).attaches[t.id].phase == Leaving(answer)
      ensures t.Decide? ==> Apply(s, t).removed == Some(!answer)
    {
      answer := false;
      match t
      case Register(id) =>
        var mine, kicked := Register(id);
      case ShutdownFrame(_) => OnShutdownFrame();
      case ReaderEnd(id) => ReaderEnd(id);
      case Leave(_, epoch) =>
        var leave: bool;
        leave, answer := Wake(epoch);
      case ExitWritten(_) => OnExitWritten();
      case Detach(id) => Detach(id);
      case CommandExits => OnCommandExit();
      case Signal => OnSignal();
      case DiskCapHit => OnDiskCap();
      case StopListener(graceOver) => answer := ShouldStop(graceOver);
      case Decide => answer := DecidePreserve();
      case _ =>
    }
  }

  // ----- Runs -----

  /** Where an attach goroutine stands. `Leaving(true)` is the branch that drains and sends EXIT. */
  datatype Phase = Handshake | Waiting | Leaving(sendsExit: bool) | Left

  datatype Attach = Attach(phase: Phase, epoch: nat, reading: bool)

  /**
   The flags plus every attach ever accepted; the other fields record what has happened. `removed` is
   the daemon's own verdict. `intruder` says that an attach dialled after the listener had closed and
   spawned a replay daemon on the directory; `wiped`, that this one has removed it.
   */
  datatype State = State(core: Core, attaches: map<nat, Attach>, listening: bool, acceptFailed: bool,
                         clientAsked: bool, capOrSignal: bool, removed: Option<bool>, intruder: bool, wiped: bool)

  const Start: State := State(FreshCore, map[], true, false, false, false, None, false, false)

  datatype Step =
    | Accept(id: nat)
    | Refuse(id: nat)
    | Register(id: nat)
    | ShutdownFrame(id: nat)
    | ReaderEnd(id: nat)
    | Leave(id: nat, epoch: nat)
    | ExitWritten(id: nat)
    | Detach(id: nat)
    | CommandExits
    | Signal
    | DiskCapHit
    | StopListener(graceOver: bool)
    | AcceptFails
    | Decide
    | LateDial
    | IntruderFails

  /**
   The intruder finds no clean marker. It refuses to serve, but removes the directory if nobody connects
   to it, its HELLO cannot be read or HELLO_ACK cannot be written, before the daemon's verdict or after.
   */
  predicate Enabled(s: State, t: Step) {
    && (t.IntruderFails? || s.removed.None?)
    && match t
       case Accept(id) => s.listening && id !in s.attaches
       case Refuse(id) => id in s.attaches && s.attaches[id].phase.Handshake?
       case Register(id) => id in s.attaches && s.attaches[id].phase.Handshake?
       case ShutdownFrame(id) => id in s.attaches && s.attaches[id].reading
       case ReaderEnd(id) => id in s.attaches && s.attaches[id].reading
       case Leave(id, epoch) =>
         id in s.attaches && s.attaches[id].phase.Waiting? && epoch == s.attaches[id].epoch && MustLeave(s.core, epoch)
       case ExitWritten(id) => id in s.attaches && s.attaches[id].phase == Leaving(true)
       case Detach(id) => id in s.attaches && s.attaches[id].phase.Leaving? && !s.attaches[id].reading
       case CommandExits => true
       case Signal => true
       case DiskCapHit => true
       case StopListener(graceOver) => s.listening && StopAccepting(s.core, graceOver)
       case AcceptFails => s.listening
       case LateDial => !s.listening
       case IntruderFails => s.intruder && !s.wiped
       case Decide => !s.listening && forall id :: id in s.attaches ==> s.attaches[id].phase.Left?
  }

  function Apply(s: State, t: Step): State
    requires Enabled(s, t)
  {
    match t
    case Accept(id) => s.(attaches := s.attaches[id := Attach(Handshake, 0, false)])
    case Refuse(id) => s.(attaches := s.attaches[id := s.attaches[id].(phase := Left)])
    case Register(id) =>
      var c := Registered(s.core, id);
      s.(core := c, attaches := s.attaches[id := Attach(Waiting, c.epoch, true)])
    case ShutdownFrame(id) => s.(core := Aborted(s.core), clientAsked := true)
    case ReaderEnd(id) =>
      s.(core := ReaderEnded(s.core, id), attaches := s.attaches[id := s.attaches[id].(reading := false)])
    case Leave(id, _) =>
      var superseded := s.core.epoch != s.attaches[id].epoch;
      s.(attaches := s.attaches[id := s.attaches[id].(phase := Leaving(!superseded && !s.core.shutdown))])
    case ExitWritten(id) => s.(core := Delivered(s.core))
    case Detach(id) =>
      s.(core := Detached(s.core, id), attaches := s.attaches[id := s.attaches[id].(phase := Left)])
    case CommandExits => s.(core := CommandExited(s.core))
    case Signal => s.(core := Signalled(s.core), capOrSignal := true)
    case DiskCapHit => s.(core := Capped(s.core), capOrSignal := true)
    case StopListener(_) => s.(listening := false)
    case AcceptFails => s.(listening := false, acceptFailed := true)
    case Decide => s.(removed := Some(!Preserve(s.core)))
    case LateDial => s.(intruder := true)
    case IntruderFails => s.(wiped := true)
  }

  ghost predicate Run(s: State, ts: seq<Step>, s': State)
    decreases |ts|
  {
    if ts == [] then s == s'
    else Enabled(s, ts[0]) && Run(Apply(s, ts[0]), ts[1..], s')
  }

  /** An attach that still waits and still holds the newest epoch. */
  predicate Current(s: State, id: nat) {
    id in s.attaches && s.attaches[id].phase.Waiting? && s.attaches[id].epoch == s.core.epoch
  }

  /** Epochs are handed out once each, in order, when an attach registers. */
  ghost predicate Epochs(s: State) {
    && (forall id: nat :: id in s.attaches ==> s.attaches[id].epoch <= s.core.epoch)
    && (forall id: nat :: id in s.attaches ==>
          if s.attaches[id].phase.Handshake? then s.attaches[id].epoch == 0 && !s.attaches[id].reading
          else s.attaches[id].phase.Left? || 0 < s.attaches[id].epoch)
    && (forall id: nat, id': nat :: id in s.attaches && id' in s.attaches && id != id' ==>
          s.attaches[id].epoch != s.attaches[id'].epoch || s.attaches[id].epoch == 0)
  }

  /** The newest epoch's holder owns the connection slot. */
  ghost predicate Ownership(s: State) {
    forall id: nat :: Current(s, id) ==> s.core.active == Some(id)
  }

  /** Why each flag is up, and what the verdict was based on. */
  ghost predicate Flags(s: State) {
    && s.core.preserveOnExit == s.capOrSignal
    && (s.core.signalShutdown ==> s.capOrSignal)
    && (s.clientAsked ==> s.core.shutdown)
    && (s.core.shutdown ==> s.clientAsked || s.capOrSignal)
    && (!s.listening ==> s.acceptFailed || s.core.shutdown || s.core.signalShutdown || s.core.exited)
    && (s.removed.Some? ==> !s.listening && s.removed.value == !Preserve(s.core))
    && (s.wiped ==> s.intruder) && (s.intruder ==> !s.listening)
  }

  ghost predicate Inv(s: State) {
    Epochs(s) && Ownership(s) && Flags(s)
  }

  lemma RegisterKeepsEpochs(s: State, id: nat)
    requires Epochs(s) && Enabled(s, Register(id))
    ensures Epochs(Apply(s, Register(id)))
  {
  }

  lemma StepKeepsEpochs(s: State, t: Step)
    requires Epochs(s) && Enabled(s, t)
    ensures Epochs(Apply(s, t))
  {
    if t.Register? {
      RegisterKeepsEpochs(s, t.id);
    } else if t.Accept? || t.Refuse? || t.Leave? || t.Detach? || t.ReaderEnd? {
      AttachKeepsEpochs(s, t);
    }
  }

  lemma AttachKeepsEpochs(s: State, t: Step)
    requires Epochs(s) && Enabled(s, t) && (t.Accept? || t.Refuse? || t.Leave? || t.Detach? || t.ReaderEnd?)
    ensures Epochs(Apply(s, t))
  {
  }

  lemma StepKeepsOwnership(s: State, t: Step)
    requires Epochs(s) && Ownership(s) && Enabled(s, t)
    ensures Ownership(Apply(s, t))
  {
    forall id: nat | Current(Apply(s, t), id)
      ensures Apply(s, t).core.active == Some(id)
    {
      assert id in s.attaches && s.attaches[id].epoch == s.core.epoch && s.attaches[id].phase.Waiting? ==> Current(s, id);
    }
  }

  lemma StepKeepsInv(s: State, t: Step)
    requires Inv(s) && Enabled(s, t)
    ensures Inv(Apply(s, t))
  {
    StepKeepsEpochs(s, t);
    StepKeepsOwnership(s, t);
  }

  lemma {:induction false} RunKeepsInv(s: State, ts: seq<Step>, s': State)
    requires Inv(s) && Run(s, ts, s')
    ensures Inv(s')
    decreases |ts|
  {
    if ts != [] {
      StepKeepsInv(s, ts[0]);
      RunKeepsInv(Apply(s, ts[0]), ts[1..], s');
    }
  }

  /** In every reachable state a current attach owns the slot, and there is at most one. */
  lemma SingleOwner(ts: seq<Step>, s: State, id: nat, id': nat)
    requires Run(Start, ts, s) && Current(s, id)
    ensures s.core.active == Some(id)
    ensures Current(s, id') ==> id == id'
  {
    RunKeepsInv(Start, ts, s);
  }

  /** A current attach loses the session only to a newer attach, its own reader, or by leaving. */
  lemma OnlyNewerOrSelfSupersedes(s: State, t: Step, id: nat)
    requires Inv(s) && Enabled(s, t) && Current(s, id) && !Current(Apply(s, t), id)
    ensures t == ReaderEnd(id) || (t.Leave? && t.id == id) || (t.Register? && t.id != id)
  {
  }

  /** A reader that ends late does nothing to whoever owns the session by then. */
  lemma StaleReaderHarmless(ts: seq<Step>, s: State, stale: nat, owner: nat)
    requires Run(Start, ts, s) && Current(s, owner) && stale != owner && Enabled(s, ReaderEnd(stale))
    ensures Apply(s, ReaderEnd(stale)).core == s.core && Current(Apply(s, ReaderEnd(stale)), owner)
  {
    SingleOwner(ts, s, owner, owner);
  }

  /**
   Unless a shutdown was asked for, the listener stops only on a session that nobody owns and whose
   command has exited; and then some EXIT frame was written or the grace period is over.
   */
  lemma StopsUnowned(ts: seq<Step>, s: State, graceOver: bool)
    requires Run(Start, ts, s) && Enabled(s, StopListener(graceOver))
    requires !s.clientAsked && !s.capOrSignal
    ensures s.core.exited && (s.core.exitDelivered || graceOver)
    ensures forall id: nat :: !Current(s, id)
  {
    RunKeepsInv(Start, ts, s);
  }

  /** An attach that has lost the session: out of its loop, or certain to leave it. */
  ghost predicate Superseded(s: State, id: nat) {
    && id in s.attaches
    && !s.attaches[id].phase.Handshake?
    && (s.attaches[id].phase.Waiting? ==> s.attaches[id].epoch != s.core.epoch)
  }

  lemma StaysSuperseded(s: State, t: Step, id: nat)
    requires Epochs(s) && Superseded(s, id) && Enabled(s, t)
    ensures Superseded(Apply(s, t), id)
  {
  }

  /** Once superseded, always superseded: it never waits as owner again, and its exit stays enabled. */
  lemma {:induction false} SupersededLeaves(s: State, ts: seq<Step>, s': State, id: nat)
    requires Inv(s) && Superseded(s, id) && Run(s, ts, s')
    ensures Superseded(s', id) && !Current(s', id)
    ensures s'.attaches[id].phase.Waiting? && s'.removed.None? ==> Enabled(s', Leave(id, s'.attaches[id].epoch))
    decreases |ts|
  {
    if ts != [] {
      StepKeepsInv(s, ts[0]);
      StaysSuperseded(s, ts[0], id);
      SupersededLeaves(Apply(s, ts[0]), ts[1..], s', id);
    }
  }

  /** A waiting attach whose reader has ended no longer owns the session. */
  ghost predicate ReadersOk(s: State) {
    forall id: nat :: id in s.attaches && s.attaches[id].phase.Waiting? && !s.attaches[id].reading ==> Superseded(s, id)
  }

  /** The end of its reader takes the session from an attach, whoever owned it. */
  lemma ReaderEndSupersedes(s: State, id: nat)
    requires Inv(s) && Enabled(s, ReaderEnd(id))
    ensures Superseded(Apply(s, ReaderEnd(id)), id)
  {
    assert Current(s, id) ==> s.core.active == Some(id);
  }

  lemma StepKeepsReaders(s: State, t: Step)
    requires Inv(s) && ReadersOk(s) && Enabled(s, t)
    ensures ReadersOk(Apply(s, t))
  {
    var s' := Apply(s, t);
    forall id: nat | id in s'.attaches && s'.attaches[id].phase.Waiting? && !s'.attaches[id].reading
      ensures Superseded(s', id)
    {
      if t == ReaderEnd(id) {
        ReaderEndSupersedes(s, id);
      } else {
        assert id in s.attaches && s.attaches[id] == s'.attaches[id];
        StaysSuperseded(s, t, id);
      }
    }
  }

  lemma {:induction false} RunKeepsReaders(s: State, ts: seq<Step>, s': State)
    requires Inv(s) && ReadersOk(s) && Run(s, ts, s')
    ensures ReadersOk(s') && Inv(s')
    decreases |ts|
  {
    if ts != [] {
      StepKeepsInv(s, ts[0]);
      StepKeepsReaders(s, ts[0]);
      hide ReadersOk, Inv;
      RunKeepsReaders(Apply(s, ts[0]), ts[1..], s');
    }
  }

  /**
   A client that has gone away does not keep its attach: in every reachable state an attach whose
   reader has ended, if it still waits, has lost the session and can leave.
   */
  lemma GoneClientLeaves(ts: seq<Step>, s: State, id: nat)
    requires Run(Start, ts, s) && id in s.attaches && s.attaches[id].phase.Waiting? && !s.attaches[id].reading
    ensures Superseded(s, id) && !Current(s, id)
    ensures s.removed.None? ==> Enabled(s, Leave(id, s.attaches[id].epoch))
  {
    RunKeepsReaders(Start, ts, s);
  }

  // ----- What the flags say about a run -----

  ghost predicate Asked(ts: seq<Step>) {
    exists id: nat :: ShutdownFrame(id) in ts
  }

  ghost predicate Told(ts: seq<Step>) {
    exists id: nat :: ExitWritten(id) in ts
  }

  lemma SplitRun(ts: seq<Step>)
    requires ts != []
    ensures forall t :: t in ts <==> t == ts[0] || t in ts[1..]
    ensures Asked(ts) <==> ts[0].ShutdownFrame? || Asked(ts[1..])
    ensures Told(ts) <==> ts[0].ExitWritten? || Told(ts[1..])
  {
    assert forall t :: t in ts <==> t == ts[0] || t in ts[1..];
    assert ts[0].ShutdownFrame? ==> ShutdownFrame(ts[0].id) in ts;
    assert ts[0].ExitWritten? ==> ExitWritten(ts[0].id) in ts;
  }

  lemma {:induction false} FlagsGrow(s: State, ts: seq<Step>, s': State)
    requires Run(s, ts, s')
    ensures s'.core.exited <==> s.core.exited || CommandExits in ts
    ensures s'.core.shutdown <==> s.core.shutdown || Asked(ts) || DiskCapHit in ts
    ensures s'.core.signalShutdown <==> s.core.signalShutdown || Signal in ts
    ensures s'.core.preserveOnExit <==> s.core.preserveOnExit || Signal in ts || DiskCapHit in ts
    ensures s'.core.exitDelivered <==> s.core.exitDelivered || Told(ts)
    decreases |ts|
  {
    if ts != [] {
      FlagsGrow(Apply(s, ts[0]), ts[1..], s');
      FlagsStep(s, ts[0]);
      SplitRun(ts);
      hide *;
    }
  }

  lemma QuietStep(s: State, t: Step)
    requires Enabled(s, t)
    requires !t.Register? && !t.ShutdownFrame? && !t.ReaderEnd? && !t.ExitWritten? && !t.Detach?
    requires !t.CommandExits? && !t.Signal? && !t.DiskCapHit?
    ensures Apply(s, t).core == s.core
  {
  }

  lemma FlagsStep(s: State, t: Step)
    requires Enabled(s, t)
    ensures Apply(s, t).core.exited <==> s.core.exited || t.CommandExits?
    ensures Apply(s, t).core.shutdown <==> s.core.shutdown || t.ShutdownFrame? || t.DiskCapHit?
    ensures Apply(s, t).core.signalShutdown <==> s.core.signalShutdown || t.Signal?
    ensures Apply(s, t).core.preserveOnExit <==> s.core.preserveOnExit || t.Signal? || t.DiskCapHit?
    ensures Apply(s, t).core.exitDelivered <==> s.core.exitDelivered || t.ExitWritten?
  {
    if !t.Register? && !t.ShutdownFrame? && !t.ReaderEnd? && !t.ExitWritten? && !t.Detach? && !t.CommandExits?
       && !t.Signal? && !t.DiskCapHit? {
      QuietStep(s, t);
      hide *;
    }
  }

  /** The flags are a record of what has happened, no more and no less. */
  lemma FlagsRecord(ts: seq<Step>, s: State)
    requires Run(Start, ts, s)
    ensures s.core.exited <==> CommandExits in ts
    ensures s.core.shutdown <==> Asked(ts) || DiskCapHit in ts
    ensures s.core.signalShutdown <==> Signal in ts
    ensures s.core.preserveOnExit <==> Signal in ts || DiskCapHit in ts
    ensures s.core.exitDelivered <==> Told(ts)
  {
    FlagsGrow(Start, ts, s);
  }

  /** The attach that registered last. */
  ghost predicate Newest(s: State, id: nat) {
    && id in s.attaches && 0 < s.attaches[id].epoch
    && forall id': nat :: id' in s.attaches && id' != id ==> s.attaches[id'].epoch < s.attaches[id].epoch
  }

  /** It holds the slot until it has left. */
  ghost predicate SlotOk(s: State) {
    forall id: nat {:trigger Newest(s, id)} :: s.core.active == Some(id) <==> Newest(s, id) && !s.attaches[id].phase.Left?
  }

  /** EXIT is for a session whose command has exited. */
  ghost predicate ExitsOk(s: State) {
    && (forall id: nat :: id in s.attaches && s.attaches[id].phase == Leaving(true) ==> s.core.exited)
    && (s.core.exitDelivered ==> s.core.exited)
  }

  lemma NewestStays(s: State, t: Step, id: nat)
    requires Epochs(s) && Enabled(s, t) && !t.Register?
    ensures Newest(Apply(s, t), id) <==> Newest(s, id)
  {
    var s' := Apply(s, t);
    EpochsStay(s, t);
    hide Enabled, Apply, Epochs;
    assert Newest(s', id) && id in s.attaches ==> forall k: nat :: k in s.attaches ==> k in s'.attaches;
  }

  lemma EpochsStay(s: State, t: Step)
    requires Enabled(s, t) && !t.Register?
    ensures var s' := Apply(s, t);
            && (forall k: nat :: k in s.attaches ==> k in s'.attaches && s'.attaches[k].epoch == s.attaches[k].epoch)
            && (forall k: nat :: k in s'.attaches && k !in s.attaches ==> s'.attaches[k].epoch == 0)
  {
  }

  lemma StepKeepsSlot(s: State, t: Step)
    requires Inv(s) && SlotOk(s) && Enabled(s, t)
    ensures SlotOk(Apply(s, t))
  {
    var s' := Apply(s, t);
    forall id: nat
      ensures s'.core.active == Some(id) <==> Newest(s', id) && !s'.attaches[id].phase.Left?
    {
      if t.Register? {
        assert Newest(s', t.id);
      } else {
        NewestStays(s, t, id);
        assert t.Accept? && t.id == id ==> !Newest(s, id);
      }
    }
  }

  lemma StepKeepsExits(s: State, t: Step)
    requires Inv(s) && ExitsOk(s) && Enabled(s, t)
    ensures ExitsOk(Apply(s, t))
  {
  }

  lemma {:induction false} RunKeepsSlot(s: State, ts: seq<Step>, s': State)
    requires Inv(s) && SlotOk(s) && ExitsOk(s) && Run(s, ts, s')
    ensures SlotOk(s') && ExitsOk(s') && Inv(s')
    decreases |ts|
  {
    if ts != [] {
      StepKeepsInv(s, ts[0]);
      StepKeepsSlot(s, ts[0]);
      StepKeepsExits(s, ts[0]);
      hide SlotOk, Inv, ExitsOk;
      RunKeepsSlot(Apply(s, ts[0]), ts[1..], s');
    }
  }

  /** The session is owned by the attach that registered last, until that one has left. */
  lemma SlotHeldIff(ts: seq<Step>, s: State, id: nat)
    requires Run(Start, ts, s)
    ensures s.core.active == Some(id) <==> Newest(s, id) && !s.attaches[id].phase.Left?
    ensures s.core.exitDelivered ==> s.core.exited
  {
    RunKeepsSlot(Start, ts, s);
  }

  /**
   When the listener may stop, in terms of what has happened: a shutdown was asked for, or the command
   has exited, whoever registered last has left, and an EXIT frame was written or the grace period is over.
   */
  lemma StopsIff(ts: seq<Step>, s: State, graceOver: bool)
    requires Run(Start, ts, s) && s.listening && s.removed.None?
    ensures Enabled(s, StopListener(graceOver)) <==>
            || Asked(ts) || DiskCapHit in ts || Signal in ts
            || (CommandExits in ts && (Told(ts) || graceOver) && forall id: nat {:trigger Newest(s, id)} :: Newest(s, id) ==> s.attaches[id].phase.Left?)
  {
    FlagsRecord(ts, s);
    RunKeepsSlot(Start, ts, s);
    assert s.core.active.Some? ==> Newest(s, s.core.active.value);
    hide Run, Newest, Asked, Told;
  }

  /** When a waiting attach leaves its loop, and when it then goes on to send EXIT. */
  lemma LeavesIff(ts: seq<Step>, s: State, id: nat)
    requires Run(Start, ts, s) && s.removed.None? && id in s.attaches && s.attaches[id].phase.Waiting?
    ensures var leave := Leave(id, s.attaches[id].epoch);
            && (Enabled(s, leave) <==> Superseded(s, id) || Asked(ts) || DiskCapHit in ts || CommandExits in ts)
            && (Enabled(s, leave) && Apply(s, leave).attaches[id].phase == Leaving(true) <==>
                  !Superseded(s, id) && !Asked(ts) && DiskCapHit !in ts && CommandExits in ts)
  {
    FlagsRecord(ts, s);
    hide Run, Asked, Told;
  }

  /** Nothing of the session is left: the daemon removed the directory, or somebody else did. */
  predicate DirectoryGone(s: State) {
    s.removed.Some? && (s.removed.value || s.wiped)
  }

  /**
   The daemon's own verdict, exactly: the directory goes if an EXIT frame was written, or if nothing
   asked for preservation and either the client asked for the abort or the command had not been seen to
   exit. After it the directory is gone exactly if the verdict says so or an intruder has wiped it.
   */
  lemma RemovedIff(ts: seq<Step>, s: State)
    requires Run(Start, ts, s) && s.removed.Some?
    ensures s.removed.value <==>
            s.core.exitDelivered || (!s.capOrSignal && (s.clientAsked || !s.core.exited))
    ensures !s.acceptFailed ==>
            (s.removed.value <==> s.core.exitDelivered || (s.clientAsked && !s.capOrSignal))
    ensures DirectoryGone(s) <==>
            s.wiped || s.core.exitDelivered || (!s.capOrSignal && (s.clientAsked || !s.core.exited))
  {
    RunKeepsInv(Start, ts, s);
  }

  /**
   Undelivered output is never deleted unasked, as long as `Accept` itself never fails and no attach
   dials after the listener has closed.
   */
  lemma NeverDeletedUnasked(ts: seq<Step>, s: State)
    requires Run(Start, ts, s) && DirectoryGone(s)
    ensures s.core.exitDelivered || s.clientAsked || s.acceptFailed || (s.wiped && s.intruder)
  {
    RunKeepsInv(Start, ts, s);
  }

  lemma {:induction false} RunSnoc(s: State, ts: seq<Step>, m: State, t: Step)
    requires Run(s, ts, m) && Enabled(m, t)
    ensures Run(s, ts + [t], Apply(m, t))
    decreases |ts|
  {
    if ts == [] {
      assert ([] + [t])[1..] == [] && Run(Apply(m, t), [], Apply(m, t));
    } else {
      RunSnoc(Apply(s, ts[0]), ts[1..], m, t);
      assert (ts + [t])[1..] == ts[1..] + [t];
    }
  }

  ghost predicate Reachable(s: State) {
    exists ts: seq<Step> :: Run(Start, ts, s)
  }

  lemma ReachStep(m: State, t: Step)
    requires Reachable(m) && Enabled(m, t)
    ensures Reachable(Apply(m, t))
  {
    var ts: seq<Step> :| Run(Start, ts, m);
    RunSnoc(Start, ts, m, t);
  }

  /** An attach that dials too late deletes what the daemon has decided to keep. */
  lemma IntruderDeletes() returns (s: State)
    ensures Reachable(s) && s.removed == Some(false) && DirectoryGone(s)
    ensures s.core.exited && !s.core.exitDelivered && !s.clientAsked && !s.acceptFailed
  {
    assert Run(Start, [], Start) && Reachable(Start);
    hide Reachable, Run;
    ReachStep(Start, CommandExits);
    var a := Apply(Start, CommandExits);
    ReachStep(a, StopListener(true));
    var b := Apply(a, StopListener(true));
    ReachStep(b, LateDial);
    var c := Apply(b, LateDial);
    ReachStep(c, Decide);
    var d := Apply(c, Decide);
    ReachStep(d, IntruderFails);
    s := Apply(d, IntruderFails);
  }

  /** The exception: a failing `Accept` ends the daemon before the command's exit is recorded. */
  lemma AcceptFailureDeletes()
    ensures exists ts, s :: Run(Start, ts, s) && s.removed == Some(true) &&
                            !s.core.exitDelivered && !s.clientAsked && !s.capOrSignal
  {
    var s1 := Apply(Start, AcceptFails);
    var s2 := Apply(s1, Decide);
    assert Run(s2, [], s2);
    assert [AcceptFails, Decide][1..] == [Decide] && [Decide][1..] == [];
    assert Run(s1, [Decide], s2);
    assert Run(Start, [AcceptFails, Decide], s2);
  }
}
