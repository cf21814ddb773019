/**
 The connection registry as the transport keeps it, updated in place on the loop.
 Each method is proved against its function in module Hub.
 */
module Transport {
  import opened OutQueue
  import opened Connection
  import opened Hub
  import opened HubProofs

  /** `trySendFrame`; `kernel` is what the system calls will answer. */
  method TrySendFrame(frame: Frame, kernel: seq<Reply>, lim: Limits, ghost k: int, ghost trail: seq<Piece>)
    returns (f: Frame, state: SendState, rest: seq<Reply>, ghost pieces: seq<Piece>)
    ensures var o := TrySend(frame, k, trail, kernel, lim); f == o.frame && state == o.state && rest == o.kernel
    ensures pieces == TrySend(frame, k, trail, kernel, lim).trail
  {
    f, rest, pieces := frame, kernel, trail;
    if |f.fds| > lim.frameFds {
      state := Error;
      return;
    }
    while f.sent < |f.bytes|
      invariant Sending(f, k, pieces, rest) == Sending(frame, k, trail, kernel)
      decreases |rest|
    {
      if rest == [] {
        state := WouldBlock;
        return;
      }
      var answer := rest[0];
      rest := rest[1..];
      match answer
      case Interrupted =>
      case Busy =>
        state := WouldBlock;
        return;
      case Broken =>
        state := Error;
        return;
      case Accepted(n) =>
        var w := Taken(n, |f.bytes| - f.sent);
        pieces := pieces + [Piece(k, f.bytes[f.sent..f.sent + w], if f.riding then [] else f.fds)];
        f := f.(sent := f.sent + w, riding := true);
    }
    f := f.(fds := []);
    state := Sent;
  }

  /** The loop of `flushWrites`: the front frame is sent as far as the kernel takes it
      and leaves the queue once it is out. */
  method Drain(conn: Conn, kernel: seq<Reply>, lim: Limits, ghost story: Story)
    returns (c: Conn, closing: bool, rest: seq<Reply>, ghost t: Story)
    ensures var r := Flush(conn, story, kernel, lim); c == r.conn && rest == r.kernel && closing == r.closing
    ensures t == Flush(conn, story, kernel, lim).story
  {
    c, rest, t := conn, kernel, story;
    while c.queue != []
      invariant Flush(c, t, rest, lim) == Flush(conn, story, kernel, lim)
      decreases |c.queue|
    {
      var f, state;
      ghost var pieces;
      f, state, rest, pieces := TrySendFrame(c.queue[0], rest, lim, t.done, t.trail);
      t := t.(trail := pieces, part := f.sent);
      if state == WouldBlock {
        c := c.(queue := c.queue[0 := f], writing := true);
        closing := false;
        return;
      }
      if state == Error {
        c := c.(queue := c.queue[0 := f]);
        closing := true;
        return;
      }
      c := c.(bytes := c.bytes - |c.queue[0].bytes|, queue := c.queue[1..]);
      t := t.(done := t.done + 1, part := 0);
    }
    c := c.(writing := false);
    closing := c.final;
  }

  class Transport {
    var connections: map<int, Conn>
    var nextConnId: int
    var kernel: seq<Reply>
    var handlers: int
    var sink: bool
    var notes: seq<Note>
    const lim: Limits
    ghost var stories: map<int, Story>
    ghost var log: seq<Event>

    ghost function Value(): State
      reads this
    {
      State(Live(connections, stories, nextConnId), kernel, Desk(handlers, sink, lim), Past(log, notes))
    }

    /** Each open connection has its history. */
    ghost predicate Valid()
      reads this
    {
      forall id | id in connections :: id in stories
    }

    constructor (lim: Limits)
      ensures Valid() && Value() == Start(lim)
    {
      this.lim := lim;
      connections, nextConnId, kernel, handlers, sink, notes := map[], 1, [], 0, true, [];
      stories, log := map[], [];
    }

    /** `closeConnection` */
    method CloseConnection(id: int)
      requires Valid()
      modifies this`connections, this`notes, this`log
      ensures Valid() && Value() == CloseConn(old(Value()), id)
    {
      if id !in connections {
        return;
      }
      connections := connections - {id};
      log := log + [Closed(id, handlers)];
      Notify(id);
    }

    /** The client-liveness fan-out. */
    method Notify(caller: int)
      modifies this`notes
      ensures notes == old(notes) + FanOut(caller, handlers)
    {
      var i := 0;
      while i < handlers
        invariant 0 <= i && (i <= handlers || (i == 0 && handlers < 0))
        invariant notes == old(notes) + FanOut(caller, i)
      {
        notes := notes + [Note(i, caller)];
        i := i + 1;
      }
    }

    /** `flushWrites` */
    method FlushWrites(id: int)
      requires Valid() && id in connections
      modifies this
      ensures Valid() && Value() == Settle(old(Value()), id, old(Flush(connections[id], stories[id], kernel, lim)))
    {
      var c, closing, rest;
      ghost var t;
      c, closing, rest, t := Drain(connections[id], kernel, lim, stories[id]);
      Store(id, c, t.(heard := stories[id].heard + Used(kernel, rest)), rest);
      if closing {
        CloseConnection(id);
      }
    }

    method Store(id: int, c: Conn, ghost t: Story, rest: seq<Reply>)
      requires Valid()
      modifies this`connections, this`stories, this`kernel
      ensures Valid() && Value() == Put(old(Value()), id, c, t).(kernel := rest)
    {
      connections := connections[id := c];
      stories := stories[id := t];
      kernel := rest;
    }

    /** The frame joins the queue; `over` says that is too much. */
    method Enlist(id: int, m: Msg, ghost told: bool) returns (over: bool)
      requires Valid() && id in connections
      modifies this
      ensures Valid() && id in connections
      ensures var was := old(Value());
              var c, t := Pushed(was.live.conns[id], m), was.live.stories[id];
              && Value() == Put(Logged(was, Offered(id, told)), id, c, t.(offered := t.offered + [m]))
              && over == TooMuch(c)
    {
      var c := connections[id];
      c := c.(queue := c.queue + [FrameOf(m)], bytes := c.bytes + |m.bytes|);
      log := log + [Offered(id, told)];
      Store(id, c, stories[id].(offered := stories[id].offered + [m]), kernel);
      over := c.bytes > MAX_QUEUED_BYTES || |c.queue| > MAX_QUEUED_FRAMES;
    }

    /** `enqueueSend`, to a connection that may be gone. */
    method EnqueueSend(id: int, m: Msg, ghost told: bool)
      requires Valid()
      modifies this
      ensures Valid() && Value() == Offer(old(Value()), id, m, told)
    {
      if id !in connections {
        return;
      }
      OfferStored(Value(), id, m, told);
      var over := Enlist(id, m, told);
      if over {
        CloseConnection(id);
      } else {
        FlushWrites(id);
      }
    }

    /** `sendThenClose` */
    method SendThenClose(id: int, m: Msg)
      requires Valid()
      modifies this
      ensures Valid() && Value() == Hub.SendThenClose(old(Value()), id, m)
      ensures old(Inv(Value())) ==> Inv(Value())
    {
      if Inv(Value()) {
        SendThenCloseInv(Value(), id, m);
      }
      if id !in connections {
        return;
      }
      Store(id, connections[id].(reading := false, final := true), stories[id], kernel);
      log := log + [Finished(id)];
      EnqueueSend(id, m, false);
    }

    /** The snapshot of the ids a broadcast is for. */
    method Listeners(presence: bool) returns (ids: seq<int>)
      ensures ids == Audience(Value().live, presence, nextConnId - 1)
    {
      ids := [];
      var n := 0;
      while n < nextConnId - 1
        invariant 0 <= n && (n <= nextConnId - 1 || (n == 0 && nextConnId < 1))
        invariant ids == Audience(Value().live, presence, n)
      {
        n := n + 1;
        if n in connections && !connections[n].final && (!presence || connections[n].wants) {
          ids := ids + [n];
        }
      }
    }

    /** `broadcast` */
    method Broadcast(m: Msg, presence: bool)
      requires Valid()
      modifies this
      ensures Valid() && Value() == Hub.Broadcast(old(Value()), m, presence)
      ensures old(Inv(Value())) ==> Inv(Value())
    {
      if Inv(Value()) {
        BroadcastInv(Value(), m, presence);
      }
      var ids := Listeners(presence);
      OfferToEach(ids, m);
    }

    /** Each id is looked up again: an earlier offer may have closed it. */
    method OfferToEach(ids: seq<int>, m: Msg)
      requires Valid()
      modifies this
      ensures Valid() && Value() == TellEach(old(Value()), ids, m)
    {
      var rest := ids;
      while rest != []
        invariant Valid() && TellEach(Value(), rest, m) == TellEach(old(Value()), ids, m)
        decreases |rest|
      {
        EnqueueSend(rest[0], m, true);
        rest := rest[1..];
      }
    }

    method SetWants(id: int, wants: bool)
      requires Valid()
      modifies this
      ensures Valid() && Value() == Wants(old(Value()), id, wants)
    {
      if id in connections {
        Store(id, connections[id].(wants := wants), stories[id], kernel);
      }
    }

    /** What the sink calls back with while it handles a request. */
    method Perform(calls: seq<Call>)
      requires Valid()
      modifies this
      ensures Valid() && Value() == DoAll(old(Value()), calls)
    {
      var rest := calls;
      while rest != []
        invariant Valid() && DoAll(Value(), rest) == DoAll(old(Value()), calls)
        decreases |rest|
      {
        var call := rest[0];
        rest := rest[1..];
        match call
        case Send(id, m) => EnqueueSend(id, m, false);
        case SendFinal(id, m) => SendThenClose(id, m);
        case Tell(m, presence) => Broadcast(m, presence);
        case Want(id, w) => SetWants(id, w);
      }
    }

    /** `onReadReady`: `batch` and `ok` are what the reassembler hands over. */
    method OnReadReady(id: int, batch: seq<Request>, ok: bool)
      requires Valid()
      modifies this
      ensures Valid() && Value() == Hub.OnReadReady(old(Value()), id, batch, ok)
      ensures old(Inv(Value())) ==> Inv(Value())
    {
      if Inv(Value()) {
        ReadReadyInv(Value(), id, batch, ok);
      }
      if id !in connections {
        return;
      }
      if batch != [] {
        Store(id, connections[id].(sawFirst := true), stories[id], kernel);
      }
      var rest := batch;
      while rest != []
        invariant Valid() && Deliver(Value(), id, rest, ok) == Hub.OnReadReady(old(Value()), id, batch, ok)
        decreases |rest|
      {
        if rest[0].Malformed? {
          CloseConnection(id);
          return;
        }
        if id !in connections || connections[id].final {
          return;
        }
        if sink {
          log := log + [Delivered(id)];
          Perform(rest[0].calls);
        }
        rest := rest[1..];
      }
      if !ok {
        CloseConnection(id);
      }
    }

    /** `acceptOne` */
    method AcceptOne(known: bool)
      requires Valid()
      modifies this
      ensures Valid() && Value() == Hub.AcceptOne(old(Value()), known)
      ensures old(Inv(Value())) ==> Inv(Value())
    {
      if Inv(Value()) {
        AcceptInv(Value(), known);
      }
      if |connections.Keys| >= MAX_CONNECTIONS || !known {
        return;
      }
      var id := nextConnId;
      nextConnId := nextConnId + 1;
      Store(id, NEW_CONN, NO_STORY, kernel);
      log := log + [Opened(id)];
    }
  }

  /** An offer is: queue the frame, then close the connection if that was too much, or
      flush it. */
  lemma OfferStored(s: State, id: int, m: Msg, told: bool)
    requires id in s.live.conns && id in s.live.stories
    ensures var c, t := Pushed(s.live.conns[id], m), s.live.stories[id].(offered := s.live.stories[id].offered + [m]);
            var p := Put(Logged(s, Offered(id, told)), id, c, t);
            Offer(s, id, m, told) == if TooMuch(c) then CloseConn(p, id)
                                     else Settle(p, id, Flush(c, t, s.kernel, s.desk.lim))
  {
    var c, t := Pushed(s.live.conns[id], m), s.live.stories[id].(offered := s.live.stories[id].offered + [m]);
    var u := Logged(s, Offered(id, told));
    if TooMuch(c) {
      assert Used(s.kernel, s.kernel) == [] && t.heard + [] == t.heard;
    } else {
      StoredThenSettled(u, id, c, t, Flush(c, t, s.kernel, s.desk.lim));
    }
  }

  /** Storing a connection and then settling it is settling it. */
  lemma StoredThenSettled(s: State, id: int, c: Conn, t: Story, r: Flushed)
    requires StoryOf(s.live, id).heard == t.heard
    ensures Settle(Put(s, id, c, t), id, r) == Settle(s, id, r)
  {
    assert s.live.conns[id := c][id := r.conn] == s.live.conns[id := r.conn];
    assert s.live.stories[id := t][id := Hearing(s, id, r)] == s.live.stories[id := Hearing(s, id, r)];
  }
}
