/**
 The listener's life cycle with the replaced-path guard, as both socket servers have
 it: an accept source whose cancel handler runs later and alone may close the listen
 descriptor, a rebind that may fail and is tried again, stopping, and for the agent
 transport pausing while descriptors are short, for the prompter starting anew.
 */
module Listener {
  import opened Wrappers

  datatype Kind = AgentTransport | Prompter

  datatype Phase = Idle | Up | Stopping | Gone

  /** The process's open descriptors with the kernel object behind each (an object's
      number may be used again once no descriptor holds it), and the inode the socket
      path names, 0 for none. */
  datatype Os = Os(table: map<int, int>, path: int)

  /** An installed accept source: the descriptor and object it watches. */
  datatype Source = Source(fd: int, obj: int, suspended: bool)

  /** The listener as it was when its cancel was asked for (`m_cancelledListener`). */
  datatype Held = NotHeld | Held(fd: int, obj: int)

  datatype Server = Server(listen: int, source: Option<Source>, identity: Option<int>, cancelled: Held,
                           rebindPending: bool, stopping: bool, guarded: bool)

  /** Pausing: the flag and whether the one-shot retry timer is armed. */
  datatype Pause = Pause(paused: bool, armed: bool)

  /** Cancel handlers not yet run, and the teardown group's count. */
  datatype Flight = Flight(handlers: int, group: int)

  /** What must never happen, counted: a cancel handler that finds the descriptor
      closed or another's, a suspended source cancelled, a running source resumed, an
      accept on something that is not the listener; and the binds made. */
  datatype Tally = Tally(closedEarly: int, suspendedCancels: int, idleResumes: int, strayAccepts: int, binds: int)

  datatype State = State(kind: Kind, phase: Phase, os: Os, server: Server, pause: Pause, flight: Flight, tally: Tally)

  /** How an attempt to bind ends: it leaves something at the path, or the new
      listener. */
  datatype Bound = Fails(leftover: int) | Binds(fd: int, obj: int, ino: int)

  datatype Action =
    | Start(b: Bound)
    | Tick(b: Bound)
    | AcceptReady(exhausted: bool, b: Bound)
    | HandlerRuns(b: Bound)
    | RetryTimer(stale: bool)
    | Stop
    | Finish
    | OpenElsewhere(fd: int, obj: int)
    | CloseElsewhere(fd: int)
    | Replace(ino: int)

  function Boot(kind: Kind, os: Os): State {
    State(kind, Idle, os, Server(-1, None, None, NotHeld, false, false, false), Pause(false, false), Flight(0, 0),
          Tally(0, 0, 0, 0, 0))
  }

  // ---- steps ---------------------------------------------------------------------------

  /** A descriptor number not in use and an object nothing else holds. */
  predicate Unused(os: Os, fd: int, obj: int) {
    0 <= fd && fd !in os.table && forall f | f in os.table :: os.table[f] != obj
  }

  predicate Succeeds(os: Os, b: Bound) {
    b.Binds? && Unused(os, b.fd, b.obj) && 0 < b.ino
  }

  /** `stillNames` */
  predicate NamesOurs(s: State) {
    s.os.path != 0 && s.server.identity == Some(s.os.path)
  }

  /** `ListenSocketObject::of` */
  function ObjectAt(os: Os, fd: int): Held {
    if fd in os.table then Held(fd, os.table[fd]) else NotHeld
  }

  /** `installAcceptSource` after a successful bind. */
  function Install(s: State, b: Bound): State
    requires b.Binds?
  {
    s.(os := Os(s.os.table[b.fd := b.obj], b.ino),
       server := s.server.(listen := b.fd, identity := Some(b.ino), rebindPending := false,
                           source := Some(Source(b.fd, b.obj, false))),
       flight := s.flight.(group := s.flight.group + 1),
       tally := s.tally.(binds := s.tally.binds + 1))
  }

  /** A failed bind has unlinked the path and may have left a file of its own. */
  function BindFailed(s: State, b: Bound): State {
    s.(os := s.os.(path := if b.Fails? then b.leftover else 0))
  }

  /** `rebindListenSocket` */
  function Rebind(s: State, b: Bound): State {
    if Succeeds(s.os, b) then Install(s, b) else BindFailed(s, b)
  }

  /** `resumeAccepting` */
  function Resume(s: State): State {
    if s.server.source.Some? && s.pause.paused then
      s.(server := s.server.(source := Some(s.server.source.value.(suspended := false))),
         pause := s.pause.(paused := false),
         tally := s.tally.(idleResumes := s.tally.idleResumes + if s.server.source.value.suspended then 0 else 1))
    else s.(pause := s.pause.(paused := false))
  }

  /** `pauseAccepting` */
  function PauseAccepting(s: State): State {
    if s.server.source.None? || s.pause.paused then s
    else s.(server := s.server.(source := Some(s.server.source.value.(suspended := true))), pause := Pause(true, true))
  }

  /** `cancelAcceptSource` */
  function CancelSource(s: State): State {
    var r := Resume(s);
    if r.server.source.None? then r
    else r.(server := r.server.(cancelled := ObjectAt(r.os, r.server.listen), source := None),
            flight := r.flight.(handlers := r.flight.handlers + 1),
            tally := r.tally.(suspendedCancels := r.tally.suspendedCancels
                                                  + if r.server.source.value.suspended then 1 else 0))
  }

  /** `checkSocketPath` */
  function CheckPath(s: State, b: Bound): State {
    if s.server.stopping then s
    else if s.server.rebindPending then if s.server.listen < 0 then Rebind(s, b) else s
    else if s.server.source.None? || NamesOurs(s) then s
    else CancelSource(s.(server := s.server.(rebindPending := true)))
  }

  predicate HeldStill(s: State) {
    s.server.cancelled.Held? && ObjectAt(s.os, s.server.listen) == s.server.cancelled
  }

  /** The listen descriptor is closed. */
  function CloseListen(s: State): State {
    s.(os := s.os.(table := s.os.table - {s.server.listen}),
       server := s.server.(cancelled := NotHeld, listen := -1),
       tally := s.tally.(closedEarly := s.tally.closedEarly + if HeldStill(s) then 0 else 1))
  }

  /** `onAcceptSourceCancelled` */
  function SourceCancelled(s: State, b: Bound): State {
    var c := CloseListen(s);
    if c.server.stopping then c
    else
      var d := c.(server := c.server.(identity := None));
      if d.server.rebindPending then Rebind(d, b) else d
  }

  function HandlerDone(s: State): State {
    s.(flight := Flight(s.flight.handlers - 1, s.flight.group - 1))
  }

  /** The accepts: connections they bring are descriptors opened elsewhere. */
  function Accepted(s: State): State {
    s.(tally := s.tally.(strayAccepts := s.tally.strayAccepts
        + if s.server.source.Some? && ObjectAt(s.os, s.server.listen)
                                      == Held(s.server.source.value.fd, s.server.source.value.obj) then 0 else 1))
  }

  /** `onAcceptReady` */
  function OnAcceptReady(s: State, exhausted: bool, b: Bound): State {
    var a := Accepted(s);
    CheckPath(if exhausted && s.kind.AgentTransport? then PauseAccepting(a) else a, b)
  }

  /** The loop block of the destructor and of `stop`. */
  function StopLoop(s: State): State {
    var t := s.(phase := Stopping, server := s.server.(stopping := true, guarded := false),
                pause := s.pause.(armed := false));
    if t.server.source.Some? then CancelSource(t) else t
  }

  /** After the group wait: the path goes if it is still ours. */
  function FinishStop(s: State): State {
    s.(phase := if s.kind.Prompter? then Idle else Gone,
       os := if NamesOurs(s) then s.os.(path := 0) else s.os,
       server := if s.kind.Prompter? then s.server.(identity := None) else s.server)
  }

  function StartUp(s: State, b: Bound): State {
    if Succeeds(s.os, b) then
      var t := Install(s, b);
      t.(phase := Up, server := t.server.(stopping := false, guarded := true))
    else BindFailed(s, b)
  }

  function Elsewhere(s: State, a: Action): State {
    match a
    case OpenElsewhere(fd, obj) => if Unused(s.os, fd, obj) then s.(os := s.os.(table := s.os.table[fd := obj])) else s
    case CloseElsewhere(fd) => if fd != s.server.listen then s.(os := s.os.(table := s.os.table - {fd})) else s
    case Replace(ino) => s.(os := s.os.(path := ino))
    case _ => s
  }

  /** One step; an action that is not enabled changes nothing. */
  function Step(s: State, a: Action): State {
    match a
    case Start(b) => if s.phase.Idle? then StartUp(s, b) else s
    case Tick(b) => if s.server.guarded then CheckPath(s, b) else s
    case AcceptReady(exhausted, b) =>
      if s.server.source.Some? && !s.server.source.value.suspended then OnAcceptReady(s, exhausted, b) else s
    case HandlerRuns(b) => if s.flight.handlers > 0 then HandlerDone(SourceCancelled(s, b)) else s
    case RetryTimer(stale) =>
      if s.phase.Up? && (stale || s.pause.armed)
      then Resume(s.(pause := s.pause.(armed := stale && s.pause.armed))) else s
    case Stop => if s.phase.Up? then StopLoop(s) else s
    case Finish => if s.phase.Stopping? && s.flight.group == 0 then FinishStop(s) else s
    case _ => Elsewhere(s, a)
  }

  function Run(s: State, acts: seq<Action>): State
    decreases |acts|
  {
    if acts == [] then s else Run(Step(s, acts[0]), acts[1..])
  }

  // ---- the invariant ----------------------------------------------------------------------

  /** A live source on the listener, which the path's recorded inode belongs to. */
  predicate Serving(os: Os, v: Server, f: Flight) {
    && v.source.Some? && 0 <= v.listen && ObjectAt(os, v.listen) == Held(v.source.value.fd, v.source.value.obj)
    && v.identity.Some? && v.cancelled.NotHeld? && !v.rebindPending && f == Flight(0, 1)
  }

  /** The source is gone, its cancel handler is on its way and will find the listener
      as it was. */
  predicate Cancelling(os: Os, v: Server, f: Flight) {
    && v.source.None? && 0 <= v.listen && v.cancelled.Held? && ObjectAt(os, v.listen) == v.cancelled
    && f == Flight(1, 1)
  }

  predicate Closed(v: Server, f: Flight) {
    v.source.None? && v.listen == -1 && v.cancelled.NotHeld? && f == Flight(0, 0)
  }

  predicate PhaseOk(phase: Phase, os: Os, v: Server, f: Flight) {
    match phase
    case Idle => Closed(v, f) && !v.guarded
    case Up =>
      && !v.stopping && v.guarded
      && (Serving(os, v, f) || (v.rebindPending && (Cancelling(os, v, f) || Closed(v, f))))
    case Stopping => v.stopping && !v.guarded && (Cancelling(os, v, f) || Closed(v, f))
    case Gone => Closed(v, f) && !v.guarded
  }

  /** Paused exactly while the source is suspended, and then the retry timer is armed. */
  predicate PauseOk(p: Pause, v: Server, phase: Phase) {
    && (p.paused <==> v.source.Some? && v.source.value.suspended)
    && (p.paused ==> p.armed && phase.Up?)
  }

  predicate Clean(t: Tally) {
    t.closedEarly == 0 && t.suspendedCancels == 0 && t.idleResumes == 0 && t.strayAccepts == 0
  }

  predicate OsOk(os: Os) {
    forall f | f in os.table :: 0 <= f
  }

  predicate Inv(s: State) {
    OsOk(s.os) && PhaseOk(s.phase, s.os, s.server, s.flight) && PauseOk(s.pause, s.server, s.phase) && Clean(s.tally)
  }

  // ---- every step keeps it ------------------------------------------------------------------

  lemma CheckPathInv(s: State, b: Bound)
    requires Inv(s) && (s.phase.Up? || s.server.stopping)
    ensures Inv(CheckPath(s, b))
  {
  }

  lemma AcceptInv(s: State, exhausted: bool, b: Bound)
    requires Inv(s) && s.server.source.Some? && !s.server.source.value.suspended
    ensures Inv(OnAcceptReady(s, exhausted, b))
  {
    CheckPathInv(Accepted(s), b);
    CheckPathInv(PauseAccepting(Accepted(s)), b);
  }

  lemma StepInv(s: State, a: Action)
    requires Inv(s)
    ensures Inv(Step(s, a))
  {
    if a.AcceptReady? {
      if s.server.source.Some? && !s.server.source.value.suspended {
        AcceptInv(s, a.exhausted, a.b);
      }
    } else if a.HandlerRuns? {
    } else if a.Tick? && s.server.guarded {
      CheckPathInv(s, a.b);
    }
  }

  lemma {:induction false} RunInv(s: State, acts: seq<Action>)
    requires Inv(s)
    ensures Inv(Run(s, acts))
    decreases |acts|
  {
    if acts != [] {
      StepInv(s, acts[0]);
      RunInv(Step(s, acts[0]), acts[1..]);
    }
  }

  // ---- the promises -------------------------------------------------------------------------

  /** In every run each cancel handler finds the listen descriptor open and still the
      listener recorded at the cancel, every accept is on the listener, and no source
      is cancelled while suspended or resumed while running. */
  lemma NeverClosedEarly(kind: Kind, os: Os, acts: seq<Action>)
    requires OsOk(os)
    ensures var s := Run(Boot(kind, os), acts);
            && Clean(s.tally)
            && (s.flight.handlers > 0 ==>
                  s.server.cancelled.Held? && ObjectAt(s.os, s.server.listen) == s.server.cancelled)
            && (s.server.source.Some? ==>
                  ObjectAt(s.os, s.server.listen) == Held(s.server.source.value.fd, s.server.source.value.obj))
  {
    RunInv(Boot(kind, os), acts);
  }

  /** While up the listener is never stuck: it serves, or one cancel handler is on its
      way with a rebind pending, or it is closed with a rebind pending; and the group
      counts the live source and the pending handler. */
  lemma NeverStuck(kind: Kind, os: Os, acts: seq<Action>)
    requires OsOk(os)
    ensures var s := Run(Boot(kind, os), acts);
            && (s.phase.Up? ==>
                  || Serving(s.os, s.server, s.flight)
                  || (s.server.rebindPending && Cancelling(s.os, s.server, s.flight) && s.flight.handlers == 1)
                  || (s.server.rebindPending && Closed(s.server, s.flight)))
            && s.flight.group == s.flight.handlers + (if s.server.source.Some? then 1 else 0)
  {
    RunInv(Boot(kind, os), acts);
  }

  /** Whatever state an up listener is in, one look at the path and the handler it may
      have asked for leave it serving at a path that is its own, if the bind they make
      succeeds. */
  lemma OneBindRestores(s: State, b: Bound, c: Bound)
    requires Inv(s) && s.phase.Up?
    requires Closed(s.server, s.flight) ==> Succeeds(s.os, b)
    requires var t := Step(s, Tick(b)); t.flight.handlers > 0 ==> Succeeds(CloseListen(t).os, c)
    ensures var t := Step(Step(s, Tick(b)), HandlerRuns(c));
            t.phase.Up? && Serving(t.os, t.server, t.flight) && NamesOurs(t)
  {
  }

  /** Stopping always gets through: the loop block, the handler if there is one, and the
      rest, after which nothing is open, installed or in flight; the path is removed if it
      was ours and left alone if not. */
  lemma StopGetsThrough(s: State, b: Bound)
    requires Inv(s) && s.phase.Up?
    ensures var t := Step(Step(Step(s, Stop), HandlerRuns(b)), Finish);
            && t.phase == (if s.kind.Prompter? then Idle else Gone) && Closed(t.server, t.flight)
            && t.tally.binds == s.tally.binds && !NamesOurs(t)
            && t.os.path == (if NamesOurs(s) then 0 else s.os.path) && t.pause == Pause(false, false)
  {
  }

  /** Nothing binds once stopping, until a start; a transport that is gone stays so. */
  lemma {:induction false} NothingBindsOnceStopping(s: State, acts: seq<Action>)
    requires Inv(s) && !s.phase.Up?
    requires s.phase.Gone? || forall i | 0 <= i < |acts| :: !acts[i].Start?
    ensures !Run(s, acts).phase.Up? && Run(s, acts).tally.binds == s.tally.binds
    decreases |acts|
  {
    if acts != [] {
      var t := Step(s, acts[0]);
      StepInv(s, acts[0]);
      assert !t.phase.Up? && t.tally.binds == s.tally.binds && (s.phase.Gone? ==> t.phase.Gone?);
      NothingBindsOnceStopping(t, acts[1..]);
    }
  }

  /** Only a cancel handler closes the listener or changes what is behind it. */
  lemma OnlyTheHandlerCloses(s: State, a: Action)
    requires Inv(s) && 0 <= s.server.listen && !a.HandlerRuns?
    ensures Step(s, a).server.listen == s.server.listen
    ensures ObjectAt(Step(s, a).os, s.server.listen) == ObjectAt(s.os, s.server.listen) != NotHeld
  {
  }

  /** A pause ends: the retry timer is armed, and firing it lets the source run. */
  lemma PauseEnds(kind: Kind, os: Os, acts: seq<Action>)
    requires OsOk(os)
    ensures var s := Run(Boot(kind, os), acts);
            s.pause.paused ==>
              && s.pause.armed && s.server.source.Some?
              && var t := Step(s, RetryTimer(false));
                 !t.pause.paused && t.server.source == Some(s.server.source.value.(suspended := false))
  {
    RunInv(Boot(kind, os), acts);
  }

  /** A start from idle serves at its own path exactly when its bind succeeds, after a
      stop as well; otherwise nothing is open and it is idle still. */
  lemma StartServes(s: State, b: Bound)
    requires Inv(s) && s.phase.Idle?
    ensures var t := Step(s, Start(b));
            if Succeeds(s.os, b) then
              t.phase.Up? && Serving(t.os, t.server, t.flight) && NamesOurs(t) && t.os.path == b.ino
            else t.phase.Idle? && Closed(t.server, t.flight) && t.os.path == (if b.Fails? then b.leftover else 0)
  {
  }

  /** Out of descriptors, the agent's listener pauses until its timer fires, unless its path
      was taken from it: then its source is cancelled and it rebinds. The prompter's does
      not pause. */
  lemma ExhaustionPauses(s: State, b: Bound)
    requires Inv(s) && s.server.source.Some? && !s.server.source.value.suspended
    ensures var t := Step(s, AcceptReady(true, b));
            && (NamesOurs(s) && s.kind.AgentTransport? ==>
                  t.pause == Pause(true, true) && t.server.source == Some(s.server.source.value.(suspended := true)))
            && (NamesOurs(s) && s.kind.Prompter? ==> t.pause == s.pause && t.server == s.server)
            && (!NamesOurs(s) ==> t.server.source.None? && t.server.rebindPending && t.flight.handlers == 1
                                  && !t.pause.paused)
  {
  }

  /** Anyone can put another file at the path; the next look at it cancels the source and asks
      for a rebind. */
  lemma ReplacementIsSeen(s: State, ino: int, b: Bound)
    requires Inv(s) && s.phase.Up? && s.server.source.Some? && s.server.identity != Some(ino)
    ensures var t := Step(s, Replace(ino));
            var u := Step(t, Tick(b));
            && t.os.path == ino && t.server == s.server
            && u.server.source.None? && u.server.rebindPending && u.flight.handlers == 1 && u.phase.Up?
  {
  }

  /** A descriptor number the listener gave up may be somebody else's next, and is then no
      longer taken for the listener's. */
  lemma NumberIsReused(s: State, fd: int, obj: int)
    requires Inv(s) && Unused(s.os, fd, obj)
    ensures var t := Step(s, OpenElsewhere(fd, obj));
            && ObjectAt(t.os, fd) == Held(fd, obj) && fd != s.server.listen && t.server == s.server
            && ObjectAt(Step(t, CloseElsewhere(fd)).os, fd) == NotHeld
  {
  }
}
