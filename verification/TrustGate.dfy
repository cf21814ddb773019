/**
 The trust-tier detour of the frontend: gate on the loop, a person asked on a
 worker, the verdict back on the loop, and the teardown of frontend and transport
 racing all of it. The guard's mutex is modelled step by step: what it protects is
 that the checks of `alive` and the uses behind them are not one step.
 */
module TrustGate {

  // ---- requests and the gate ----------------------------------------------

  datatype Verb = SetConfig | ResetConfig | ImportList

  /** `ConfigStore::mutability` of the key a request names. */
  datatype Tier = UnknownKey | NotWritable | PlainTier | TrustTier

  datatype Authorization = Granted | Denied | Undecided

  /** `described`: the key has a sentence to put to a person. `fdInRange`: the
      import names a descriptor that came with the request. */
  datatype Request = Request(caller: int, verb: Verb, tier: Tier, described: bool, fdInRange: bool)

  datatype SyncError =
    | UnknownConfigKey | ReadOnlyConfig | NotAuthorized | CommunicationError | RateLimited | InvalidRequest

  /** What happened to one request, in order. */
  datatype Event =
    | WasGranted
    | WasCharged
    | WasAsked
    | WasAnswered(ok: bool)
    | Applied            // the trust change ran: the value is written, or the descriptor read
    | AppliedPlain       // a change of the plain tier
    | RepliedError(error: SyncError)
    | RepliedByApply     // the reply the change itself sends, success or error

  /** What the loop answers a request with at once, or that it asks a person. */
  datatype Gate = Refuse(events: seq<Event>) | ApplyNow(events: seq<Event>) | Ask(events: seq<Event>)

  predicate IsTrust(r: Request) {
    r.verb == ImportList || r.tier == TrustTier
  }

  /** `confirmThenApply` up to the worker. */
  function ConfirmGate(r: Request, inFlight: bool): Gate {
    var charged := [WasGranted, WasCharged];
    if r.verb != ImportList && !r.described then Refuse(charged + [RepliedError(NotAuthorized)])
    else if inFlight then Refuse(charged + [RepliedError(RateLimited)])
    else Ask(charged + [WasAsked])
  }

  /** `handleSetConfig`, `handleResetConfig` and `handleImportCscaMasterList` up
      to the change or the question. */
  function Decide(r: Request, auth: Authorization, allow: bool, inFlight: bool): Gate {
    if r.verb != ImportList && r.tier == UnknownKey then Refuse([RepliedError(UnknownConfigKey)])
    else if r.verb != ImportList && r.tier == NotWritable then Refuse([RepliedError(ReadOnlyConfig)])
    else if auth == Denied then Refuse([RepliedError(NotAuthorized)])
    else if auth == Undecided then Refuse([RepliedError(CommunicationError)])
    else if !IsTrust(r) then ApplyNow([WasGranted, AppliedPlain, RepliedByApply])
    else if !allow then Refuse([WasGranted, RepliedError(RateLimited)])
    else if r.verb == ImportList && !r.fdInRange then
      Refuse([WasGranted, WasCharged, RepliedError(InvalidRequest)])
    else ConfirmGate(r, inFlight)
  }

  // ---- the machine ---------------------------------------------------------

  /** Where a request is. `Asking` .. `Running` are the outstanding confirmation. */
  datatype Life =
    | Waiting               // its read event is queued
    | Unread                // the connection or the sink was gone
    | Finished              // answered
    | Asking                // a worker waits for the person
    | Answered(ok: bool)
    | Locked(ok: bool)      // the worker holds the guard's mutex
    | Cleared(ok: bool)     // ... and saw the frontend alive
    | Posted(ok: bool)      // the continuation is on the loop queue
    | Running(ok: bool)     // the loop is in the continuation
    | Dropped               // the answer came too late

  predicate Outstanding(l: Life) {
    l.Asking? || l.Answered? || l.Locked? || l.Cleared? || l.Posted? || l.Running?
  }

  datatype Block =
    | Read(id: int)             // a source event that delivers request `id`
    | Continuation(id: int)
    | Disconnect(caller: int)
    | OtherWork                 // any other posted block that uses the frontend
    | QuiesceSync | DrainSync | FinalSync

  datatype Holder = NoOne | ByWorker(id: int) | ByLoop | ByDestructor

  /** The loop thread: between blocks, or inside a continuation. */
  datatype Loop = Idle | AtMutex(id: int) | Inside(id: int) | Using(id: int) | AtUnlock

  /** The host's teardown. With `quiesceFirst` it is the daemon's order. */
  datatype Host =
    | Serving | AwaitQuiesce | Quiesced | AwaitDrain | Drained
    | DestructorLocked | GuardDead | FrontendGone | AwaitFinal | Finalized | TransportGone

  /** Threads, flags and the guard (`alive` is its flag). */
  datatype Control = Control(
    quiesceFirst: bool, host: Host, loop: Loop, quiesced: bool, alive: bool, mutex: Holder)

  /** Connections by caller token, and m_confirmsInFlight. */
  datatype Peers = Peers(open: set<int>, nextCaller: int, inFlight: set<int>)

  /** What the loop was told when it ran a request's read event: the authoriser's and the
      rate limiter's answers, and whether the caller had a confirmation waiting. */
  datatype Ruling = Unruled | Ruled(auth: Authorization, allow: bool, busy: bool)

  /** One request that ever arrived; its index in the book is its id. */
  datatype Entry = Entry(request: Request, life: Life, history: seq<Event>, ruling: Ruling)

  datatype State = State(
    c: Control,
    queue: seq<Block>,
    peers: Peers,
    book: seq<Entry>,
    confirmFault: bool,          // the confirmation path used something freed
    otherFault: bool)            // any other block did

  predicate FrontendExists(h: Host) {
    !h.FrontendGone? && !h.AwaitFinal? && !h.Finalized? && !h.TransportGone?
  }

  predicate TransportExists(h: Host) {
    !h.TransportGone?
  }

  datatype LoopAction = RunBlock(auth: Authorization, allow: bool) | LoopLock | LoopCheck | LoopUse | LoopUnlock

  datatype WorkerAction =
    | PersonAnswers(id: int, ok: bool) | WorkerLock(id: int) | WorkerCheck(id: int) | WorkerPost(id: int) | WorkerUnlock

  datatype HostAction = HostQuiesce | HostDrain | HostLock | HostMark | HostFree | HostFinal | HostRelease

  datatype PeerAction = Connect | CloseConnection(caller: int) | Arrive(r: Request) | PostOther

  datatype Action = OnLoop(l: LoopAction) | OnWorker(w: WorkerAction) | OnHost(h: HostAction) | OnPeer(p: PeerAction)

  predicate Known(s: State, id: int) {
    0 <= id < |s.book|
  }

  /** Request `id` moves to `l` and `es` happened to it. */
  function Move(s: State, id: int, l: Life, es: seq<Event>): State
    requires Known(s, id)
  {
    var e := s.book[id];
    s.(book := s.book[id := Entry(e.request, l, e.history + es, e.ruling)])
  }

  function SetLoop(s: State, l: Loop): State {
    s.(c := s.c.(loop := l))
  }

  function Post(s: State, b: Block): State {
    s.(queue := s.queue + [b])
  }

  /** The sink's handler of one request. */
  function Dispatch(s: State, id: int, auth: Authorization, allow: bool): (t: State)
    requires Known(s, id)
    ensures |t.book| == |s.book|
  {
    var r := s.book[id].request;
    var gate := Decide(r, auth, allow, r.caller in s.peers.inFlight);
    if gate.Ask? then
      Move(s, id, Asking, gate.events).(peers := s.peers.(inFlight := s.peers.inFlight + {r.caller}))
    else
      Move(s, id, Finished, gate.events)
  }

  function RunRead(s: State, id: int, auth: Authorization, allow: bool): State {
    if !Known(s, id) then s
    else if s.c.quiesced || s.book[id].request.caller !in s.peers.open then Move(s, id, Unread, [])
    else if !FrontendExists(s.c.host) then Move(s, id, Unread, []).(otherFault := true)
    else
      var told := Ruled(auth, allow, s.book[id].request.caller in s.peers.inFlight);
      var t := Dispatch(s, id, auth, allow);
      t.(book := t.book[id := t.book[id].(ruling := told)])
  }

  function RunContinuation(s: State, id: int): State {
    if !Known(s, id) || !s.book[id].life.Posted? then s
    else if !TransportExists(s.c.host) then s.(confirmFault := true)
    else if s.c.quiesced then Move(s, id, Dropped, [])
    else SetLoop(Move(s, id, Running(s.book[id].life.ok), []), AtMutex(id))
  }

  function RunDisconnect(s: State, caller: int): State {
    if s.c.quiesced then s
    else if !FrontendExists(s.c.host) then s.(otherFault := true)
    else s.(peers := s.peers.(inFlight := s.peers.inFlight - {caller}))
  }

  function RunOther(s: State): State {
    if !s.c.quiesced && !FrontendExists(s.c.host) then s.(otherFault := true) else s
  }

  /** The block the host waits for in dispatch_sync. */
  function RunSync(s: State, b: Block): State {
    if b.QuiesceSync? then s.(c := s.c.(quiesced := true, host := Quiesced))
    else if b.DrainSync? then s.(c := s.c.(host := Drained))
    else s.(c := s.c.(host := Finalized), peers := s.peers.(open := {}))  // the destructor clears the connections
  }

  /** The head block runs on the loop. */
  function Execute(s: State, b: Block, auth: Authorization, allow: bool): State {
    match b
    case Read(id) => RunRead(s, id, auth, allow)
    case Continuation(id) => RunContinuation(s, id)
    case Disconnect(c) => RunDisconnect(s, c)
    case OtherWork => RunOther(s)
    case _ => RunSync(s, b)
  }

  /** The continuation's body, under the mutex and after the check. */
  function UseFrontend(s: State, id: int): State
    requires Known(s, id)
  {
    if !FrontendExists(s.c.host) || !TransportExists(s.c.host) then SetLoop(s, AtUnlock).(confirmFault := true)
    else
      var es := if s.book[id].life == Running(true) then [Applied, RepliedByApply] else [RepliedError(NotAuthorized)];
      SetLoop(Move(s, id, Finished, es), AtUnlock)
        .(peers := s.peers.(inFlight := s.peers.inFlight - {s.book[id].request.caller}))
  }

  function LoopStep(s: State, a: LoopAction): State {
    match a
    case RunBlock(auth, allow) =>
      if s.c.loop == Idle && s.queue != [] then Execute(s.(queue := s.queue[1..]), s.queue[0], auth, allow) else s
    case LoopLock =>
      if s.c.loop.AtMutex? && s.c.mutex == NoOne then s.(c := s.c.(mutex := ByLoop, loop := Inside(s.c.loop.id))) else s
    case LoopCheck =>
      if !s.c.loop.Inside? || !Known(s, s.c.loop.id) then s
      else if s.c.alive then SetLoop(s, Using(s.c.loop.id))
      else SetLoop(Move(s, s.c.loop.id, Dropped, []), AtUnlock)
    case LoopUse => if s.c.loop.Using? && Known(s, s.c.loop.id) then UseFrontend(s, s.c.loop.id) else s
    case LoopUnlock => if s.c.loop == AtUnlock then s.(c := s.c.(loop := Idle, mutex := NoOne)) else s
  }

  function WorkerStep(s: State, a: WorkerAction): State {
    match a
    case PersonAnswers(id, ok) =>
      if Known(s, id) && s.book[id].life == Asking then Move(s, id, Answered(ok), [WasAnswered(ok)]) else s
    case WorkerLock(id) =>
      if Known(s, id) && s.book[id].life.Answered? && s.c.mutex == NoOne
      then Move(s, id, Locked(s.book[id].life.ok), []).(c := s.c.(mutex := ByWorker(id))) else s
    case WorkerCheck(id) =>
      if Known(s, id) && s.book[id].life.Locked?
      then Move(s, id, if s.c.alive then Cleared(s.book[id].life.ok) else Dropped, []) else s
    case WorkerPost(id) =>
      if !Known(s, id) || !s.book[id].life.Cleared? then s
      else if !TransportExists(s.c.host) then s.(confirmFault := true)
      else Post(Move(s, id, Posted(s.book[id].life.ok), []), Continuation(id))
    case WorkerUnlock =>
      if s.c.mutex.ByWorker? && Known(s, s.c.mutex.id)
         && !s.book[s.c.mutex.id].life.Locked? && !s.book[s.c.mutex.id].life.Cleared?
      then s.(c := s.c.(mutex := NoOne)) else s
  }

  function SetHost(s: State, h: Host): State {
    s.(c := s.c.(host := h))
  }

  function HostStep(s: State, a: HostAction): State {
    var h := s.c.host;
    match a
    case HostQuiesce => if h == Serving && s.c.quiesceFirst then Post(SetHost(s, AwaitQuiesce), QuiesceSync) else s
    case HostDrain => if h == Quiesced then Post(SetHost(s, AwaitDrain), DrainSync) else s
    case HostLock =>
      if h == (if s.c.quiesceFirst then Drained else Serving) && s.c.mutex == NoOne
      then s.(c := s.c.(host := DestructorLocked, mutex := ByDestructor)) else s
    case HostMark =>
      if h == DestructorLocked then s.(c := s.c.(host := GuardDead, alive := false, mutex := NoOne)) else s
    case HostFree => if h == GuardDead then SetHost(s, FrontendGone) else s
    case HostFinal => if h == FrontendGone then Post(SetHost(s, AwaitFinal), FinalSync) else s
    case HostRelease => if h == Finalized then SetHost(s, TransportGone) else s
  }

  function PeerStep(s: State, a: PeerAction): State {
    match a
    case Connect =>
      s.(peers := s.peers.(open := s.peers.open + {s.peers.nextCaller}, nextCaller := s.peers.nextCaller + 1))
    case CloseConnection(c) =>
      if c !in s.peers.open || s.c.loop != Idle then s
      else
        var t := s.(peers := s.peers.(open := s.peers.open - {c}));
        if s.c.quiesced || !FrontendExists(s.c.host) then t else Post(t, Disconnect(c))
    case Arrive(r) =>
      if r.caller !in s.peers.open || !TransportExists(s.c.host) then s
      else Post(s.(book := s.book + [Entry(r, Waiting, [], Unruled)]), Read(|s.book|))
    case PostOther =>
      if s.c.host.AwaitFinal? || s.c.host.Finalized? || s.c.host.TransportGone? then s else Post(s, OtherWork)
  }

  /** An action that is not enabled changes nothing. */
  function Step(s: State, a: Action): State {
    match a
    case OnLoop(l) => LoopStep(s, l)
    case OnWorker(w) => WorkerStep(s, w)
    case OnHost(h) => HostStep(s, h)
    case OnPeer(p) => PeerStep(s, p)
  }

  function Run(s: State, acts: seq<Action>): State
    decreases |acts|
  {
    if acts == [] then s else Run(Step(s, acts[0]), acts[1..])
  }

  function Start(quiesceFirst: bool): State {
    State(Control(quiesceFirst, Serving, Idle, false, true, NoOne), [], Peers({}, 0, {}), [], false, false)
  }
}
