/**
 The transport's connection registry: accepting, reading, sending, broadcasting and
 closing, where any of them may close a connection another is working through.
 */
module Hub {
  import opened OutQueue
  import opened Connection

  const MAX_CONNECTIONS: int := 32

  /** What happens to connections, in order. `told` marks a broadcast's offer. */
  datatype Event =
    | Opened(id: int)
    | Delivered(id: int)
    | Finished(id: int)
    | Closed(id: int, handlers: int)
    | Offered(id: int, told: bool)

  /** Disconnect handler number `handler` called for a connection's caller token,
      which is the connection's number. */
  datatype Note = Note(handler: int, caller: int)

  /** The open connections, the history of every connection ever, and the next id. */
  datatype Live = Live(conns: map<int, Conn>, stories: map<int, Story>, next: int)

  datatype Past = Past(log: seq<Event>, notes: seq<Note>)

  datatype Desk = Desk(handlers: int, sink: bool, lim: Limits)

  datatype State = State(live: Live, kernel: seq<Reply>, desk: Desk, past: Past)

  /** What the request sink does with one request before it returns. */
  datatype Call = Send(id: int, m: Msg) | SendFinal(id: int, m: Msg) | Tell(m: Msg, presence: bool)
                | Want(id: int, wants: bool)

  /** One frame of a read batch: not a request, or one the sink answers by `calls`. */
  datatype Request = Malformed | Good(calls: seq<Call>)

  datatype Action =
    | Accept(known: bool)
    | ReadReady(id: int, batch: seq<Request>, ok: bool)
    | WriteReady(id: int)
    | FirstFrameTimeout(id: int)
    | Outside(call: Call)
    | Register
    | Quiesce
    | Kernel(replies: seq<Reply>)

  function Start(lim: Limits): State {
    State(Live(map[], map[], 1), [], Desk(0, true, lim), Past([], []))
  }

  // ---- operations ---------------------------------------------------------------------

  function Logged(s: State, e: Event): State {
    s.(past := s.past.(log := s.past.log + [e]))
  }

  function WithConn(l: Live, id: int, c: Conn, t: Story): Live {
    l.(conns := l.conns[id := c], stories := l.stories[id := t])
  }

  function Put(s: State, id: int, c: Conn, t: Story): State {
    s.(live := WithConn(s.live, id, c, t))
  }

  /** The disconnect handlers, in registration order. */
  function FanOut(id: int, n: int): seq<Note>
    decreases n
  {
    if n <= 0 then [] else FanOut(id, n - 1) + [Note(n - 1, id)]
  }

  /** `closeConnection` */
  function CloseConn(s: State, id: int): State {
    if id !in s.live.conns then s
    else s.(live := s.live.(conns := s.live.conns - {id}),
            past := Past(s.past.log + [Closed(id, s.desk.handlers)], s.past.notes + FanOut(id, s.desk.handlers)))
  }

  /** The connection's history, with the answers its system calls have used up. */
  function Hearing(s: State, id: int, r: Flushed): Story {
    r.story.(heard := StoryOf(s.live, id).heard + Used(s.kernel, r.kernel))
  }

  function Settle(s: State, id: int, r: Flushed): State {
    var t := Put(s, id, r.conn, Hearing(s, id, r)).(kernel := r.kernel);
    if r.closing then CloseConn(t, id) else t
  }

  function StoryOf(l: Live, id: int): Story {
    if id in l.stories then l.stories[id] else NO_STORY
  }

  /** `enqueueSend`, to a connection that may be gone. */
  function Offer(s: State, id: int, m: Msg, told: bool): State {
    if id !in s.live.conns then s
    else Settle(Logged(s, Offered(id, told)), id,
                Enqueue(s.live.conns[id], StoryOf(s.live, id), m, s.kernel, s.desk.lim))
  }

  function Final(c: Conn): Conn {
    c.(reading := false, final := true)
  }

  /** `sendThenClose` */
  function SendThenClose(s: State, id: int, m: Msg): State {
    if id !in s.live.conns then s
    else Offer(Logged(Put(s, id, Final(s.live.conns[id]), StoryOf(s.live, id)), Finished(id)), id, m, false)
  }

  predicate Eligible(l: Live, id: int, presence: bool) {
    id in l.conns && !l.conns[id].final && (!presence || l.conns[id].wants)
  }

  /** The ids a broadcast is for, up to `n`, ascending. */
  function Audience(l: Live, presence: bool, n: int): seq<int>
    decreases n
  {
    if n <= 0 then []
    else if Eligible(l, n, presence) then Audience(l, presence, n - 1) + [n]
    else Audience(l, presence, n - 1)
  }

  function TellEach(s: State, ids: seq<int>, m: Msg): State
    decreases |ids|
  {
    if ids == [] then s else TellEach(Offer(s, ids[0], m, true), ids[1..], m)
  }

  /** `broadcast` */
  function Broadcast(s: State, m: Msg, presence: bool): State {
    TellEach(s, Audience(s.live, presence, s.live.next - 1), m)
  }

  function Wants(s: State, id: int, wants: bool): State {
    if id !in s.live.conns then s else Put(s, id, s.live.conns[id].(wants := wants), StoryOf(s.live, id))
  }

  function Do(s: State, c: Call): State {
    match c
    case Send(id, m) => Offer(s, id, m, false)
    case SendFinal(id, m) => SendThenClose(s, id, m)
    case Tell(m, presence) => Broadcast(s, m, presence)
    case Want(id, w) => Wants(s, id, w)
  }

  function DoAll(s: State, cs: seq<Call>): State
    decreases |cs|
  {
    if cs == [] then s else DoAll(Do(s, cs[0]), cs[1..])
  }

  predicate Listening(l: Live, id: int) {
    id in l.conns && !l.conns[id].final
  }

  /** The frame loop of `onReadReady`. */
  function Deliver(s: State, id: int, batch: seq<Request>, ok: bool): State
    decreases |batch|
  {
    if batch == [] then if ok then s else CloseConn(s, id)
    else if batch[0].Malformed? then CloseConn(s, id)
    else if !Listening(s.live, id) then s
    else if s.desk.sink then Deliver(DoAll(Logged(s, Delivered(id)), batch[0].calls), id, batch[1..], ok)
    else Deliver(s, id, batch[1..], ok)
  }

  function SawFrame(s: State, id: int, batch: seq<Request>): State {
    if id in s.live.conns && batch != [] then
      Put(s, id, s.live.conns[id].(sawFirst := true), StoryOf(s.live, id))
    else s
  }

  /** `acceptOne`; `known` is whether the peer's credentials could be read. */
  function AcceptOne(s: State, known: bool): State {
    if |s.live.conns.Keys| >= MAX_CONNECTIONS || !known then s
    else Logged(s.(live := WithConn(s.live, s.live.next, NEW_CONN, NO_STORY).(next := s.live.next + 1)),
                Opened(s.live.next))
  }

  function OnReadReady(s: State, id: int, batch: seq<Request>, ok: bool): State {
    if id !in s.live.conns then s else Deliver(SawFrame(s, id, batch), id, batch, ok)
  }

  function OnWriteReady(s: State, id: int): State {
    if id in s.live.conns && s.live.conns[id].writing then
      Settle(s, id, Flush(s.live.conns[id], StoryOf(s.live, id), s.kernel, s.desk.lim))
    else s
  }

  function OnFirstFrameTimeout(s: State, id: int): State {
    if id in s.live.conns && !s.live.conns[id].sawFirst then CloseConn(s, id) else s
  }

  function Step(s: State, a: Action): State {
    match a
    case Accept(known) => AcceptOne(s, known)
    case ReadReady(id, batch, ok) => OnReadReady(s, id, batch, ok)
    case WriteReady(id) => OnWriteReady(s, id)
    case FirstFrameTimeout(id) => OnFirstFrameTimeout(s, id)
    case Outside(call) => Do(s, call)
    case Register => s.(desk := s.desk.(handlers := s.desk.handlers + 1))
    case Quiesce => s.(desk := s.desk.(handlers := 0, sink := false))
    case Kernel(replies) => s.(kernel := replies)
  }

  function Run(s: State, acts: seq<Action>): State
    decreases |acts|
  {
    if acts == [] then s else Run(Step(s, acts[0]), acts[1..])
  }

  // ---- the invariant ------------------------------------------------------------------

  predicate Fine(l: Live, id: int) {
    id in l.conns && id in l.stories && Settled(l.conns[id], l.stories[id])
  }

  /** The stream is in order, and it is what the kernel answered. */
  ghost predicate StoryOk(t: Story) {
    TrailOk(t) && Explained(t.offered, t.trail, t.heard)
  }

  ghost predicate StoryFine(l: Live, id: int) {
    id in l.stories && StoryOk(l.stories[id])
  }

  /** Every connection but `x` is settled, and every history in order. */
  ghost predicate OthersOk(l: Live, x: int) {
    && (forall id | id in l.conns :: id in l.stories)
    && (forall id | id in l.stories :: 1 <= id < l.next)
    && (forall id {:trigger Fine(l, id)} | id in l.conns && id != x :: Fine(l, id))
    && (forall id {:trigger StoryFine(l, id)} | id in l.stories :: StoryFine(l, id))
    && |l.conns.Keys| <= MAX_CONNECTIONS
  }

  ghost predicate LiveOk(l: Live) {
    OthersOk(l, 0) && 0 !in l.conns && 1 <= l.next
  }

  predicate Reaches(e: Event) {
    e.Delivered? || (e.Offered? && e.told)
  }

  /** Event `f` may come after event `e`: after a connection closed, nothing more happens
      to its id; after its final frame was queued, no request of it is delivered and no
      broadcast is offered to it; an id is opened before anything else happens to it. */
  predicate MayFollow(e: Event, f: Event) {
    (e.Closed? || f.Opened? || (e.Finished? && Reaches(f))) ==> f.id != e.id
  }

  ghost predicate OrderOk(log: seq<Event>) {
    forall i, j {:trigger MayFollow(log[i], log[j])} | 0 <= i < j < |log| :: MayFollow(log[i], log[j])
  }

  /** What an event says of the connections as they are now. */
  predicate Stands(e: Event, l: Live) {
    && e.id < l.next && (e.Closed? ==> e.id !in l.conns)
    && (e.Finished? && e.id in l.conns ==> l.conns[e.id].final)
  }

  ghost predicate StandOk(log: seq<Event>, l: Live) {
    forall i {:trigger Stands(log[i], l)} | 0 <= i < |log| :: Stands(log[i], l)
  }

  function NotesOf(log: seq<Event>): seq<Note>
    decreases |log|
  {
    if log == [] then []
    else
      var e := log[|log| - 1];
      NotesOf(log[..|log| - 1]) + (if e.Closed? then FanOut(e.id, e.handlers) else [])
  }

  ghost predicate PastOk(p: Past, l: Live) {
    OrderOk(p.log) && StandOk(p.log, l) && p.notes == NotesOf(p.log)
  }

  ghost predicate Inv(s: State) {
    LiveOk(s.live) && PastOk(s.past, s.live)
  }
}
