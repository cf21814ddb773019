/**
 What the registry's operations do, each said without the function that does it: which
 requests of a batch reach the sink, what the sink's calls come to, who is accepted, what
 a write-ready event sends and what a close fires.
 */
module HubEffects {
  import opened OutQueue
  import opened Connection
  import opened Hub
  import opened HubProofs

  // ---- one call ------------------------------------------------------------------------------

  /** Connection `x` is as it was, and was offered nothing. */
  predicate Untouched(l: Live, k: Live, x: int) {
    && (x in l.conns <==> x in k.conns) && (x in l.conns ==> k.conns[x] == l.conns[x])
    && StoryOf(k, x) == StoryOf(l, x)
  }

  /** The connection is gone, or it has its final frame and no longer reads. */
  predicate Ending(l: Live, id: int) {
    id !in l.conns || (l.conns[id].final && !l.conns[id].reading)
  }

  lemma {:induction false} SendDoes(s: State, id: int, m: Msg, told: bool, x: int)
    requires Inv(s)
    ensures var t := Offer(s, id, m, told);
            && (x != id || id !in s.live.conns ==> Untouched(s.live, t.live, x))
            && (id in s.live.conns ==> StoryOf(t.live, id).offered == StoryOf(s.live, id).offered + [m])
  {
    if id in s.live.conns {
      OfferOffers(s, id, m, told);
      if x != id {
        OfferSpares(s, id, m, told, x);
      }
    }
  }

  lemma {:induction false} SettleEnds(s: State, id: int, r: Flushed)
    requires r.closing || (r.conn.final && !r.conn.reading)
    ensures Ending(Settle(s, id, r).live, id) && Settle(s, id, r).live.stories[id].offered == r.story.offered
  {
  }

  lemma {:induction false} FinalDoes(s: State, id: int, m: Msg)
    requires Inv(s) && id in s.live.conns
    ensures var t := SendThenClose(s, id, m);
            Ending(t.live, id) && StoryOf(t.live, id).offered == StoryOf(s.live, id).offered + [m]
  {
    LiveOthers(s.live, id);
    var c, t := Final(s.live.conns[id]), s.live.stories[id];
    var u := Logged(Put(s, id, c, t), Finished(id));
    EnqueueOk(c, t, m, s.kernel, s.desk.lim);
    SettleEnds(Logged(u, Offered(id, false)), id, Enqueue(c, t, m, s.kernel, s.desk.lim));
  }

  lemma {:induction false} FinalSpares(s: State, id: int, m: Msg, x: int)
    requires x != id || id !in s.live.conns
    ensures Untouched(s.live, SendThenClose(s, id, m).live, x)
  {
    if id in s.live.conns {
      var u := Logged(Put(s, id, Final(s.live.conns[id]), StoryOf(s.live, id)), Finished(id));
      OfferSpares(u, id, m, false, x);
    }
  }

  /** What each call of the sink comes to for any connection `x`: a reply is offered to its
      connection and to no other; a final one also ends it; an event is offered to whoever
      is eligible; a wish is noted. A connection that is gone ignores them. */
  lemma {:induction false} CallDoes(s: State, c: Call, x: int)
    requires Inv(s)
    ensures var l, k := s.live, Do(s, c).live;
            match c
            case Send(id, m) =>
              if x == id && id in l.conns then StoryOf(k, x).offered == StoryOf(l, x).offered + [m]
              else Untouched(l, k, x)
            case SendFinal(id, m) =>
              if x == id && id in l.conns
              then Ending(k, x) && StoryOf(k, x).offered == StoryOf(l, x).offered + [m] else Untouched(l, k, x)
            case Tell(m, presence) =>
              OfferedTo(l, k, x, m, x in l.conns && !l.conns[x].final && (!presence || l.conns[x].wants))
            case Want(id, w) =>
              if x == id && id in l.conns
              then x in k.conns && k.conns[x] == l.conns[x].(wants := w) && StoryOf(k, x) == StoryOf(l, x)
              else Untouched(l, k, x)
  {
    match c
    case Send(id, m) => SendDoes(s, id, m, false, x);
    case SendFinal(id, m) =>
      if x == id && id in s.live.conns {
        FinalDoes(s, id, m);
      } else {
        FinalSpares(s, id, m, x);
      }
    case Tell(m, presence) => BroadcastOffersOnce(s, m, presence, x);
    case Want(id, w) =>
  }

  /** The calls are made one after the other, all of them, in order. */
  lemma {:induction false} CallsRun(s: State, cs: seq<Call>) returns (ts: seq<State>)
    ensures |ts| == |cs| + 1 && ts[0] == s && ts[|cs|] == DoAll(s, cs)
    ensures forall i | 0 <= i < |cs| :: ts[i + 1] == Do(ts[i], cs[i])
    decreases |cs|
  {
    if cs == [] {
      ts := [s];
    } else {
      var rest := CallsRun(Do(s, cs[0]), cs[1..]);
      ts := [s] + rest;
    }
  }

  // ---- deliveries, counted ----------------------------------------------------------------------

  /** How often a request of the connection reached the sink. */
  function Deliveries(log: seq<Event>, id: int): int
    decreases |log|
  {
    if log == [] then 0
    else Deliveries(log[..|log| - 1], id) + if log[|log| - 1] == Delivered(id) then 1 else 0
  }

  lemma {:induction false} DeliveriesNext(log: seq<Event>, e: Event, id: int)
    ensures Deliveries(log + [e], id) == Deliveries(log, id) + if e == Delivered(id) then 1 else 0
  {
    assert (log + [e])[..|log|] == log;
  }

  /** What a step inside the sink leaves alone: who is delivered to, the handlers, the sink. */
  ghost predicate Quietly(s: State, t: State, id: int) {
    t.desk == s.desk && Deliveries(t.past.log, id) == Deliveries(s.past.log, id)
  }

  lemma {:induction false} CloseQuietly(s: State, x: int, id: int)
    ensures Quietly(s, CloseConn(s, x), id)
  {
    DeliveriesNext(s.past.log, Closed(x, s.desk.handlers), id);
  }

  lemma {:induction false} OfferQuietly(s: State, x: int, m: Msg, told: bool, id: int)
    ensures Quietly(s, Offer(s, x, m, told), id)
  {
    if x in s.live.conns {
      var u := Logged(s, Offered(x, told));
      var r := Enqueue(s.live.conns[x], StoryOf(s.live, x), m, s.kernel, s.desk.lim);
      DeliveriesNext(s.past.log, Offered(x, told), id);
      CloseQuietly(Put(u, x, r.conn, Hearing(u, x, r)).(kernel := r.kernel), x, id);
    }
  }

  lemma {:induction false} TellQuietly(s: State, ids: seq<int>, m: Msg, id: int)
    ensures Quietly(s, TellEach(s, ids, m), id)
    decreases |ids|
  {
    if ids != [] {
      OfferQuietly(s, ids[0], m, true, id);
      TellQuietly(Offer(s, ids[0], m, true), ids[1..], m, id);
    }
  }

  lemma {:induction false} CallQuietly(s: State, c: Call, id: int)
    ensures Quietly(s, Do(s, c), id)
  {
    match c
    case Send(x, m) => OfferQuietly(s, x, m, false, id);
    case SendFinal(x, m) =>
      if x in s.live.conns {
        var u := Logged(Put(s, x, Final(s.live.conns[x]), StoryOf(s.live, x)), Finished(x));
        DeliveriesNext(s.past.log, Finished(x), id);
        OfferQuietly(u, x, m, false, id);
      }
    case Tell(m, presence) => TellQuietly(s, Audience(s.live, presence, s.live.next - 1), m, id);
    case Want(x, w) =>
  }

  lemma {:induction false} CallsQuietly(s: State, cs: seq<Call>, id: int)
    ensures Quietly(s, DoAll(s, cs), id)
    decreases |cs|
  {
    if cs != [] {
      CallQuietly(s, cs[0], id);
      CallsQuietly(Do(s, cs[0]), cs[1..], id);
    }
  }

  // ---- a batch -------------------------------------------------------------------------------------

  /** One request handed to the sink, from state `s` to `t`: logged, then its calls made; a
      transport whose sink is gone passes over it. */
  predicate HandedOver(s: State, t: State, id: int, r: Request) {
    && r.Good? && Listening(s.live, id)
    && t == (if s.desk.sink then DoAll(Logged(s, Delivered(id)), r.calls) else s)
  }

  /** Why the batch ends at frame `k`, and how: at the end, closing if the status was bad; at
      a frame that is no request, closing; or because the connection was closed or finished
      by what was handed over before. */
  predicate BatchEnds(s: State, t: State, id: int, batch: seq<Request>, k: int, ok: bool)
    requires 0 <= k <= |batch|
  {
    if k == |batch| then (if ok then t == s else t == CloseConn(s, id) && id !in t.live.conns)
    else if batch[k].Malformed? then t == CloseConn(s, id) && id !in t.live.conns
    else !Listening(s.live, id) && t == s
  }

  lemma {:induction false} DeliverRuns(s: State, id: int, batch: seq<Request>, ok: bool)
    returns (k: nat, ss: seq<State>)
    ensures k <= |batch| && |ss| == k + 1 && ss[0] == s
    ensures forall i | 0 <= i < k :: HandedOver(ss[i], ss[i + 1], id, batch[i])
    ensures BatchEnds(ss[k], Deliver(s, id, batch, ok), id, batch, k, ok)
    decreases |batch|
  {
    if batch == [] || batch[0].Malformed? || !Listening(s.live, id) {
      k, ss := 0, [s];
    } else {
      var t := if s.desk.sink then DoAll(Logged(s, Delivered(id)), batch[0].calls) else s;
      var n, rest := DeliverRuns(t, id, batch[1..], ok);
      k, ss := n + 1, [s] + rest;
      forall i | 0 <= i < k
        ensures HandedOver(ss[i], ss[i + 1], id, batch[i])
      {
        if i > 0 {
          assert HandedOver(rest[i - 1], rest[i], id, batch[1..][i - 1]);
        }
      }
    }
  }

  /** A read batch of an open connection: its requests are handed over in order, each with
      its calls made before the next, up to the end, the first frame that is no request, or
      the first after the connection was closed or given its final frame; and it ends as
      BatchEnds says. */
  lemma {:induction false} BatchRuns(s: State, id: int, batch: seq<Request>, ok: bool) returns (k: nat, ss: seq<State>)
    requires id in s.live.conns
    ensures k <= |batch| && |ss| == k + 1
    ensures id in ss[0].live.conns && ss[0].past == s.past && ss[0].desk == s.desk && ss[0].kernel == s.kernel
    ensures ss[0].live.conns[id] == s.live.conns[id].(sawFirst := s.live.conns[id].sawFirst || batch != [])
    ensures forall i | 0 <= i < k :: HandedOver(ss[i], ss[i + 1], id, batch[i])
    ensures BatchEnds(ss[k], OnReadReady(s, id, batch, ok), id, batch, k, ok)
  {
    k, ss := DeliverRuns(SawFrame(s, id, batch), id, batch, ok);
  }

  lemma {:induction false} HandedCount(ss: seq<State>, id: int, batch: seq<Request>, k: nat)
    requires k <= |batch| && |ss| == k + 1 && forall i | 0 <= i < k :: HandedOver(ss[i], ss[i + 1], id, batch[i])
    ensures ss[k].desk == ss[0].desk
    ensures Deliveries(ss[k].past.log, id) == Deliveries(ss[0].past.log, id) + if ss[0].desk.sink then k else 0
    decreases k
  {
    if k > 0 {
      HandedCount(ss[..k], id, batch, k - 1);
      var s := ss[k - 1];
      assert HandedOver(s, ss[k], id, batch[k - 1]);
      DeliveriesNext(s.past.log, Delivered(id), id);
      CallsQuietly(Logged(s, Delivered(id)), batch[k - 1].calls, id);
    }
  }

  /** So the sink sees exactly the requests handed over: none when it is gone. */
  lemma {:induction false} BatchDelivers(s: State, id: int, batch: seq<Request>, ok: bool)
    returns (k: nat, ss: seq<State>)
    requires id in s.live.conns
    ensures k <= |batch| && |ss| == k + 1 && ss[0].past == s.past
    ensures forall i | 0 <= i < k :: HandedOver(ss[i], ss[i + 1], id, batch[i])
    ensures BatchEnds(ss[k], OnReadReady(s, id, batch, ok), id, batch, k, ok)
    ensures Deliveries(OnReadReady(s, id, batch, ok).past.log, id)
            == Deliveries(s.past.log, id) + if s.desk.sink then k else 0
  {
    k, ss := BatchRuns(s, id, batch, ok);
    HandedCount(ss, id, batch, k);
    CloseQuietly(ss[k], id, id);
  }

  // ---- the other events ----------------------------------------------------------------------------

  /** A peer gets a connection exactly when its credentials could be read and fewer than 32
      are open; nothing changes otherwise. */
  lemma {:induction false} AcceptExactly(s: State, known: bool, x: int)
    requires Inv(s)
    ensures var t := AcceptOne(s, known);
            if known && |s.live.conns.Keys| < 32
            then && s.live.next !in s.live.conns && s.live.next in t.live.conns && t.live.next == s.live.next + 1
                 && t.live.conns[s.live.next] == Conn([], 0, true, false, false, true, false)
                 && t.past.log == s.past.log + [Opened(s.live.next)]
                 && (x != s.live.next ==> Untouched(s.live, t.live, x))
            else t == s
  {
  }

  /** A connection without a first frame is reaped, one with is left alone. */
  lemma {:induction false} TimeoutExactly(s: State, id: int)
    ensures var t := OnFirstFrameTimeout(s, id);
            if id in s.live.conns && !s.live.conns[id].sawFirst then id !in t.live.conns else t == s
  {
  }

  /** A write-ready event sends: a front frame the kernel takes whole is out. */
  lemma {:induction false} WriteReadySends(s: State, id: int)
    requires Inv(s) && id in s.live.conns && s.live.conns[id].queue != []
    requires var f := s.live.conns[id].queue[0];
             && |f.fds| <= s.desk.lim.frameFds && s.kernel != [] && s.kernel[0].Accepted?
             && s.kernel[0].n >= |f.bytes| - f.sent
    ensures StoryOf(OnWriteReady(s, id).live, id).done > StoryOf(s.live, id).done
  {
    LiveOthers(s.live, id);
    FrontGetsOut(s.live.conns[id], s.live.stories[id], s.kernel, s.desk.lim);
  }

  lemma {:induction false} FanOutIs(id: int, n: int)
    ensures |FanOut(id, n)| == (if n <= 0 then 0 else n)
    ensures forall i | 0 <= i < n :: FanOut(id, n)[i] == Note(i, id)
    decreases n
  {
    if n > 0 {
      FanOutIs(id, n - 1);
    }
  }

  /** A close takes the connection out, leaves every other alone and calls each registered
      handler once, the first registered first. */
  lemma {:induction false} CloseDoes(s: State, id: int, x: int)
    requires id in s.live.conns
    ensures var t := CloseConn(s, id);
            && id !in t.live.conns && (x != id ==> Untouched(s.live, t.live, x))
            && StoryOf(t.live, id) == StoryOf(s.live, id)
            && |t.past.notes| == |s.past.notes| + (if s.desk.handlers <= 0 then 0 else s.desk.handlers)
            && forall i | 0 <= i < s.desk.handlers :: t.past.notes[|s.past.notes| + i] == Note(i, id)
  {
    FanOutIs(id, s.desk.handlers);
  }

  /** Handlers registered since the loop was last quiesced. */
  function Registered(n: int, acts: seq<Action>): int
    decreases |acts|
  {
    if acts == [] then n
    else Registered(if acts[0].Register? then n + 1 else if acts[0].Quiesce? then 0 else n, acts[1..])
  }

  lemma {:induction false} StepDesk(s: State, a: Action)
    ensures var d := Step(s, a).desk;
            && d.handlers == (if a.Register? then s.desk.handlers + 1 else if a.Quiesce? then 0 else s.desk.handlers)
            && d.sink == (s.desk.sink && !a.Quiesce?) && d.lim == s.desk.lim
  {
    match a
    case Accept(known) =>
    case ReadReady(id, batch, ok) =>
      if id in s.live.conns {
        var k, ss := BatchRuns(s, id, batch, ok);
        HandedCount(ss, id, batch, k);
        CloseQuietly(ss[k], id, id);
      }
    case WriteReady(id) =>
    case FirstFrameTimeout(id) =>
    case Outside(call) => CallQuietly(s, call, 0);
    case Register =>
    case Quiesce =>
    case Kernel(replies) =>
  }

  /** In every run the handlers a close fires are those registered since the last quiesce,
      and requests reach the sink until the first. */
  lemma {:induction false} RunDesk(s: State, acts: seq<Action>)
    ensures Run(s, acts).desk.handlers == Registered(s.desk.handlers, acts)
    ensures Run(s, acts).desk.sink <==> s.desk.sink && forall i | 0 <= i < |acts| :: !acts[i].Quiesce?
    decreases |acts|
  {
    if acts != [] {
      StepDesk(s, acts[0]);
      RunDesk(Step(s, acts[0]), acts[1..]);
    }
  }
}
