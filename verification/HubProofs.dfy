/**
 What every run of the connection registry keeps.
 */
module HubProofs {
  import opened OutQueue
  import opened Connection
  import opened Hub

  // ---- the connections ----------------------------------------------------------------

  /** What `k` shares with `l` outside `id` is as good as before. */
  lemma {:induction false} SharedFine(l: Live, k: Live, id: int)
    requires OthersOk(l, id)
    requires forall x | x in k.conns && x != id :: x in l.conns && k.conns[x] == l.conns[x]
    requires forall x | x in k.stories && x != id :: x in l.stories && k.stories[x] == l.stories[x]
    requires forall x | x in l.stories :: x in k.stories
    requires id in k.stories ==> StoryOk(k.stories[id])
    ensures forall x {:trigger Fine(k, x)} | x in k.conns && x != id :: Fine(k, x)
    ensures forall x {:trigger StoryFine(k, x)} | x in k.stories :: StoryFine(k, x)
  {
    forall x | x in k.conns && x != id
      ensures Fine(k, x)
    {
      assert Fine(l, x);
    }
    forall x | x in k.stories
      ensures StoryFine(k, x)
    {
      assert x != id ==> StoryFine(l, x);
    }
  }

  lemma {:induction false} OthersPut(l: Live, id: int, c: Conn, t: Story)
    requires OthersOk(l, id) && id in l.conns && 1 <= id < l.next && StoryOk(t)
    ensures OthersOk(WithConn(l, id, c, t), id)
  {
    SharedFine(l, WithConn(l, id, c, t), id);
  }

  lemma {:induction false} PutOk(l: Live, id: int, c: Conn, t: Story)
    requires OthersOk(l, id) && id in l.conns && 1 <= id < l.next && Settled(c, t) && StoryOk(t)
    ensures LiveOk(WithConn(l, id, c, t))
  {
    OthersPut(l, id, c, t);
  }

  lemma {:induction false} DropOk(l: Live, id: int, c: Conn, t: Story)
    requires OthersOk(l, id) && id in l.conns && 1 <= id < l.next && StoryOk(t)
    ensures LiveOk(WithConn(l, id, c, t).(conns := l.conns[id := c] - {id}))
  {
    var k := WithConn(l, id, c, t).(conns := l.conns[id := c] - {id});
    SharedFine(l, k, id);
  }

  // ---- the log -------------------------------------------------------------------------

  /** One more event at the end. */
  lemma {:induction false} OrderNext(log: seq<Event>, e: Event)
    requires OrderOk(log) && forall i | 0 <= i < |log| :: MayFollow(log[i], e)
    ensures OrderOk(log + [e])
  {
    var t := log + [e];
    forall i, j | 0 <= i < j < |t|
      ensures MayFollow(t[i], t[j])
    {
      if j < |log| {
        assert MayFollow(log[i], log[j]);
      }
    }
  }

  /** The connections change and one event is added: it stands, and so do those that stood
      before. */
  lemma {:induction false} StandNext(log: seq<Event>, l: Live, e: Event, k: Live)
    requires StandOk(log, l) && Stands(e, k) && forall i | 0 <= i < |log| :: Stands(log[i], l) ==> Stands(log[i], k)
    ensures StandOk(log + [e], k)
  {
    var t := log + [e];
    forall i | 0 <= i < |t|
      ensures Stands(t[i], k)
    {
      if i < |log| {
        assert Stands(log[i], l);
      }
    }
  }

  lemma {:induction false} NotesNext(log: seq<Event>, e: Event)
    ensures NotesOf(log + [e]) == NotesOf(log) + (if e.Closed? then FanOut(e.id, e.handlers) else [])
  {
    assert (log + [e])[..|log|] == log;
  }

  lemma {:induction false} PastPut(p: Past, l: Live, id: int, c: Conn, t: Story)
    requires PastOk(p, l) && id in l.conns && (l.conns[id].final ==> c.final)
    ensures PastOk(p, WithConn(l, id, c, t))
  {
    forall i | 0 <= i < |p.log|
      ensures Stands(p.log[i], WithConn(l, id, c, t))
    {
      assert Stands(p.log[i], l);
    }
  }

  /** An event about an open connection. */
  lemma {:induction false} PastAdd(p: Past, l: Live, e: Event)
    requires PastOk(p, l) && e.id in l.conns && e.id < l.next && !e.Closed? && !e.Opened?
    requires Reaches(e) ==> !l.conns[e.id].final
    requires e.Finished? ==> l.conns[e.id].final
    ensures PastOk(p.(log := p.log + [e]), l)
  {
    forall i | 0 <= i < |p.log|
      ensures MayFollow(p.log[i], e)
    {
      assert Stands(p.log[i], l);
    }
    OrderNext(p.log, e);
    StandNext(p.log, l, e, l);
    NotesNext(p.log, e);
  }

  lemma {:induction false} PastOpen(p: Past, l: Live, c: Conn, t: Story)
    requires PastOk(p, l)
    ensures PastOk(p.(log := p.log + [Opened(l.next)]), WithConn(l, l.next, c, t).(next := l.next + 1))
  {
    var e, k := Opened(l.next), WithConn(l, l.next, c, t).(next := l.next + 1);
    forall i | 0 <= i < |p.log|
      ensures MayFollow(p.log[i], e) && Stands(p.log[i], k)
    {
      assert Stands(p.log[i], l);
    }
    OrderNext(p.log, e);
    StandNext(p.log, l, e, k);
    NotesNext(p.log, e);
  }

  lemma {:induction false} PastClose(p: Past, l: Live, id: int, n: int)
    requires PastOk(p, l) && id in l.conns && id < l.next
    ensures PastOk(Past(p.log + [Closed(id, n)], p.notes + FanOut(id, n)), l.(conns := l.conns - {id}))
  {
    var e, k := Closed(id, n), l.(conns := l.conns - {id});
    forall i | 0 <= i < |p.log|
      ensures MayFollow(p.log[i], e) && Stands(p.log[i], k)
    {
      assert Stands(p.log[i], l);
    }
    OrderNext(p.log, e);
    StandNext(p.log, l, e, k);
    NotesNext(p.log, e);
  }

  // ---- each operation --------------------------------------------------------------------

  lemma {:induction false} CloseInv(s: State, id: int)
    requires OthersOk(s.live, id) && PastOk(s.past, s.live) && 0 !in s.live.conns && 1 <= s.live.next
    requires id !in s.live.conns ==> LiveOk(s.live)
    ensures Inv(CloseConn(s, id))
  {
    if id in s.live.conns {
      var l := s.live;
      assert l.conns[id := l.conns[id]] == l.conns;
      assert l.stories[id := l.stories[id]] == l.stories;
      assert StoryFine(l, id);
      DropOk(l, id, l.conns[id], l.stories[id]);
      PastClose(s.past, l, id, s.desk.handlers);
    }
  }

  lemma {:induction false} SettleInv(s: State, id: int, r: Flushed)
    requires OthersOk(s.live, id) && PastOk(s.past, s.live) && id in s.live.conns && 1 <= id < s.live.next
    requires (!r.closing ==> Settled(r.conn, Hearing(s, id, r))) && (s.live.conns[id].final ==> r.conn.final)
    requires StoryOk(Hearing(s, id, r))
    ensures Inv(Settle(s, id, r))
  {
    var t := Hearing(s, id, r);
    PastPut(s.past, s.live, id, r.conn, t);
    if r.closing {
      DropOk(s.live, id, r.conn, t);
      PastClose(s.past, WithConn(s.live, id, r.conn, t), id, s.desk.handlers);
    } else {
      PutOk(s.live, id, r.conn, t);
    }
  }

  /** The answers heard change no other clause. */
  lemma {:induction false} HeardAside(c: Conn, t: Story, heard: seq<Reply>)
    ensures TrailOk(t.(heard := heard)) == TrailOk(t) && Settled(c, t.(heard := heard)) == Settled(c, t)
  {
  }

  lemma {:induction false} EnqueueStory(c: Conn, t: Story, m: Msg, kernel: seq<Reply>, lim: Limits)
    requires Ready(c, t) && Explained(t.offered, t.trail, t.heard)
    ensures var r := Enqueue(c, t, m, kernel, lim);
            Explained(r.story.offered, r.story.trail, t.heard + Used(kernel, r.kernel))
  {
    EnqueueHeard(c, t, m, kernel, t.heard, lim);
    assert Used(kernel, kernel) == [] && t.heard + [] == t.heard;
  }

  /** Offering to a connection that is about to be settled. */
  lemma {:induction false} OfferInv(s: State, id: int, m: Msg, told: bool)
    requires OthersOk(s.live, id) && PastOk(s.past, s.live) && id in s.live.conns
    requires Ready(s.live.conns[id], s.live.stories[id]) && (told ==> !s.live.conns[id].final)
    ensures Inv(Offer(s, id, m, told))
  {
    var u, t := Logged(s, Offered(id, told)), s.live.stories[id];
    var r := Enqueue(s.live.conns[id], t, m, s.kernel, s.desk.lim);
    assert StoryFine(s.live, id);
    EnqueueOk(s.live.conns[id], t, m, s.kernel, s.desk.lim);
    EnqueueStory(s.live.conns[id], t, m, s.kernel, s.desk.lim);
    HeardAside(r.conn, r.story, t.heard + Used(s.kernel, r.kernel));
    PastAdd(s.past, s.live, Offered(id, told));
    SettleInv(u, id, r);
  }

  lemma {:induction false} LiveOthers(l: Live, id: int)
    requires LiveOk(l)
    ensures OthersOk(l, id)
    ensures id in l.conns ==> id in l.stories && Settled(l.conns[id], l.stories[id]) && 1 <= id < l.next
    ensures id in l.conns ==> Ready(l.conns[id], l.stories[id]) && StoryOk(l.stories[id])
  {
    if id in l.conns {
      assert Fine(l, id) && StoryFine(l, id);
    }
  }

  lemma {:induction false} SendInv(s: State, id: int, m: Msg, told: bool)
    requires Inv(s) && (told ==> Listening(s.live, id) || id !in s.live.conns)
    ensures Inv(Offer(s, id, m, told))
  {
    LiveOthers(s.live, id);
    if id in s.live.conns {
      OfferInv(s, id, m, told);
    }
  }

  lemma {:induction false} SendThenCloseInv(s: State, id: int, m: Msg)
    requires Inv(s)
    ensures Inv(SendThenClose(s, id, m))
  {
    if id in s.live.conns {
      LiveOthers(s.live, id);
      var c, t := s.live.conns[id], s.live.stories[id];
      var l := WithConn(s.live, id, Final(c), t);
      OthersPut(s.live, id, Final(c), t);
      PastPut(s.past, s.live, id, Final(c), t);
      PastAdd(s.past, l, Finished(id));
      OfferInv(Logged(Put(s, id, Final(c), t), Finished(id)), id, m, false);
    }
  }

  /** Changing what a connection wants, or that it has spoken, touches no promise. */
  lemma {:induction false} TweakInv(s: State, id: int, c: Conn)
    requires Inv(s) && id in s.live.conns
    requires c == s.live.conns[id].(wants := c.wants, sawFirst := c.sawFirst)
    ensures Inv(Put(s, id, c, StoryOf(s.live, id)))
  {
    LiveOthers(s.live, id);
    PastPut(s.past, s.live, id, c, s.live.stories[id]);
    PutOk(s.live, id, c, s.live.stories[id]);
  }

  // ---- broadcast ----------------------------------------------------------------------------

  ghost predicate Distinct(ids: seq<int>) {
    forall i, j | 0 <= i < j < |ids| :: ids[i] != ids[j]
  }

  /** None of them has been given its final frame. */
  ghost predicate NoneFinal(ids: seq<int>, l: Live) {
    forall i | 0 <= i < |ids| :: Listening(l, ids[i]) || ids[i] !in l.conns
  }

  ghost predicate AllListen(ids: seq<int>, l: Live) {
    forall i | 0 <= i < |ids| :: Listening(l, ids[i])
  }

  ghost predicate AudienceOk(a: seq<int>, l: Live, presence: bool, n: int) {
    && (forall i | 0 <= i < |a| :: 1 <= a[i] <= n && Eligible(l, a[i], presence))
    && Distinct(a)
    && (forall id | 1 <= id <= n && Eligible(l, id, presence) :: id in a)
  }

  /** Every eligible connection, once. */
  lemma {:induction false} AudienceIs(l: Live, presence: bool, n: int)
    ensures AudienceOk(Audience(l, presence, n), l, presence, n)
    decreases n
  {
    if n > 0 {
      AudienceIs(l, presence, n - 1);
    }
  }

  /** What an offer to one connection leaves of another. */
  lemma {:induction false} OfferSpares(s: State, id: int, m: Msg, told: bool, x: int)
    requires x != id
    ensures var t := Offer(s, id, m, told);
            && (x in t.live.conns <==> x in s.live.conns)
            && (x in s.live.conns ==> t.live.conns[x] == s.live.conns[x])
            && StoryOf(t.live, x) == StoryOf(s.live, x)
  {
  }

  lemma {:induction false} TellEachInv(s: State, ids: seq<int>, m: Msg)
    requires Inv(s)
    requires Distinct(ids) && NoneFinal(ids, s.live)
    ensures Inv(TellEach(s, ids, m))
    decreases |ids|
  {
    if ids != [] {
      var t := Offer(s, ids[0], m, true);
      SendInv(s, ids[0], m, true);
      forall i | 0 <= i < |ids[1..]|
        ensures Listening(t.live, ids[1..][i]) || ids[1..][i] !in t.live.conns
      {
        OfferSpares(s, ids[0], m, true, ids[i + 1]);
      }
      TellEachInv(t, ids[1..], m);
    }
  }

  lemma {:induction false} AudienceListens(l: Live, presence: bool)
    ensures Distinct(Audience(l, presence, l.next - 1)) && AllListen(Audience(l, presence, l.next - 1), l)
    ensures NoneFinal(Audience(l, presence, l.next - 1), l)
  {
    AudienceIs(l, presence, l.next - 1);
  }

  lemma {:induction false} AudienceHas(l: Live, presence: bool, x: int)
    requires LiveOk(l)
    ensures x in Audience(l, presence, l.next - 1) <==> Eligible(l, x, presence)
  {
    AudienceIs(l, presence, l.next - 1);
  }

  lemma {:induction false} BroadcastInv(s: State, m: Msg, presence: bool)
    requires Inv(s)
    ensures Inv(Broadcast(s, m, presence))
  {
    var ids := Audience(s.live, presence, s.live.next - 1);
    AudienceListens(s.live, presence);
    TellEachInv(s, ids, m);
    assert Broadcast(s, m, presence) == TellEach(s, ids, m);
  }

  // ---- runs ---------------------------------------------------------------------------------

  lemma {:induction false} DoInv(s: State, c: Call)
    requires Inv(s)
    ensures Inv(Do(s, c))
  {
    match c
    case Send(id, m) => SendInv(s, id, m, false);
    case SendFinal(id, m) => SendThenCloseInv(s, id, m);
    case Tell(m, presence) => BroadcastInv(s, m, presence);
    case Want(id, w) => if id in s.live.conns { TweakInv(s, id, s.live.conns[id].(wants := w)); }
  }

  lemma {:induction false} DoAllInv(s: State, cs: seq<Call>)
    requires Inv(s)
    ensures Inv(DoAll(s, cs))
    decreases |cs|
  {
    if cs != [] {
      DoInv(s, cs[0]);
      DoAllInv(Do(s, cs[0]), cs[1..]);
    }
  }

  lemma {:induction false} CloseLive(s: State, id: int)
    requires Inv(s)
    ensures Inv(CloseConn(s, id))
  {
    LiveOthers(s.live, id);
    CloseInv(s, id);
  }

  lemma {:induction false} DeliverInv(s: State, id: int, batch: seq<Request>, ok: bool)
    requires Inv(s)
    ensures Inv(Deliver(s, id, batch, ok))
    decreases |batch|
  {
    CloseLive(s, id);
    if batch != [] && !batch[0].Malformed? && Listening(s.live, id) {
      if s.desk.sink {
        var t := Logged(s, Delivered(id));
        LiveOthers(s.live, id);
        PastAdd(s.past, s.live, Delivered(id));
        DoAllInv(t, batch[0].calls);
        DeliverInv(DoAll(t, batch[0].calls), id, batch[1..], ok);
      } else {
        DeliverInv(s, id, batch[1..], ok);
      }
    }
  }

  /** A connection that has neither queued nor sent anything. */
  predicate Blank(c: Conn, t: Story) {
    && c.queue == [] && c.bytes == 0 && !c.writing && !c.final
    && t.offered == [] && t.trail == [] && t.done == 0 && t.part == 0 && t.heard == []
  }

  function Opening(s: State, c: Conn, t: Story): State {
    Logged(s.(live := WithConn(s.live, s.live.next, c, t).(next := s.live.next + 1)), Opened(s.live.next))
  }

  lemma {:induction false} OpeningInv(s: State, c: Conn, t: Story)
    requires Inv(s) && |s.live.conns.Keys| < MAX_CONNECTIONS && Blank(c, t)
    ensures Inv(Opening(s, c, t))
  {
    OpeningLive(s, c, t);
    OpeningPast(s, c, t);
  }

  lemma {:induction false} OpeningLive(s: State, c: Conn, t: Story)
    requires LiveOk(s.live) && |s.live.conns.Keys| < MAX_CONNECTIONS && Blank(c, t)
    ensures LiveOk(Opening(s, c, t).live)
  {
    LiveNew(s.live, c, t, Opening(s, c, t).live);
  }

  lemma {:induction false} OpeningPast(s: State, c: Conn, t: Story)
    requires PastOk(s.past, s.live)
    ensures PastOk(Opening(s, c, t).past, Opening(s, c, t).live)
  {
    PastOpen(s.past, s.live, c, t);
  }

  lemma {:induction false} AcceptInv(s: State, known: bool)
    requires Inv(s)
    ensures Inv(AcceptOne(s, known))
  {
    if |s.live.conns.Keys| < MAX_CONNECTIONS && known {
      OpeningInv(s, NEW_CONN, NO_STORY);
      assert AcceptOne(s, known) == Opening(s, NEW_CONN, NO_STORY);
    }
  }

  lemma {:induction false} LiveNew(l: Live, c: Conn, t: Story, k: Live)
    requires LiveOk(l) && |l.conns.Keys| < MAX_CONNECTIONS && Blank(c, t)
    requires k == WithConn(l, l.next, c, t).(next := l.next + 1)
    ensures LiveOk(k)
  {
    OthersNew(l, c, t);
  }

  lemma {:induction false} OthersNew(l: Live, c: Conn, t: Story)
    requires LiveOk(l) && |l.conns.Keys| < MAX_CONNECTIONS && StoryOk(t)
    ensures OthersOk(WithConn(l, l.next, c, t).(next := l.next + 1), l.next)
  {
    assert l.next !in l.conns;
    SharedFine(l, WithConn(l, l.next, c, t).(next := l.next + 1), l.next);
  }

  lemma {:induction false} ReadReadyInv(s: State, id: int, batch: seq<Request>, ok: bool)
    requires Inv(s)
    ensures Inv(OnReadReady(s, id, batch, ok))
  {
    if id in s.live.conns {
      TweakInv(s, id, s.live.conns[id].(sawFirst := true));
      DeliverInv(SawFrame(s, id, batch), id, batch, ok);
    }
  }

  lemma {:induction false} WriteReadyInv(s: State, id: int)
    requires Inv(s)
    ensures Inv(OnWriteReady(s, id))
  {
    if id in s.live.conns && s.live.conns[id].writing {
      var c, t := s.live.conns[id], s.live.stories[id];
      var r := Flush(c, t, s.kernel, s.desk.lim);
      LiveOthers(s.live, id);
      FlushOk(c, t, s.kernel, s.desk.lim);
      FlushHeard(c, t, s.kernel, t.heard, s.desk.lim);
      HeardAside(r.conn, r.story, t.heard + Used(s.kernel, r.kernel));
      SettleInv(s, id, r);
    }
  }

  lemma {:induction false} StepInv(s: State, a: Action)
    requires Inv(s)
    ensures Inv(Step(s, a))
  {
    match a
    case Accept(known) => AcceptInv(s, known);
    case ReadReady(id, batch, ok) => ReadReadyInv(s, id, batch, ok);
    case WriteReady(id) => WriteReadyInv(s, id);
    case FirstFrameTimeout(id) => CloseLive(s, id);
    case Outside(call) => DoInv(s, call);
    case Register =>
    case Quiesce =>
    case Kernel(replies) =>
  }

  lemma {:induction false} RunInv(s: State, acts: seq<Action>)
    requires Inv(s)
    ensures Inv(Run(s, acts))
    decreases |acts|
  {
    if acts != [] {
      StepInv(s, acts[0]);
      RunInv(Step(s, acts[0]), acts[1..]);
    }
  }

  // ---- the promises ----------------------------------------------------------------------------

  /** After a connection is closed or given its final frame, no later request of it
      reaches the sink and no later broadcast is offered to it, even from the batch
      or the broadcast under way; its id is never opened again. */
  lemma EndedMeansSilent(lim: Limits, acts: seq<Action>, i: int, j: int)
    ensures var log := Run(Start(lim), acts).past.log;
            0 <= i < j < |log| ==>
              && ((log[i].Closed? || log[i].Finished?) && Reaches(log[j]) ==> log[j].id != log[i].id)
              && (log[i].Closed? || log[j].Opened? ==> log[j].id != log[i].id)
  {
    RunInv(Start(lim), acts);
    var log := Run(Start(lim), acts).past.log;
    assert 0 <= i < j < |log| ==> MayFollow(log[i], log[j]);
  }

  /** What the kernel took and what waits make up what was offered, on every open
      connection at every moment, within the bounds; and there are at most 32. */
  lemma EveryStreamWhole(lim: Limits, acts: seq<Action>, id: int)
    ensures var l := Run(Start(lim), acts).live;
            && |l.conns.Keys| <= 32
            && (id in l.conns ==>
                  && id in l.stories && Settled(l.conns[id], l.stories[id])
                  && Data(l.stories[id].trail) + Unsent(l.conns[id].queue) == Concat(l.stories[id].offered)
                  && l.conns[id].bytes == Sum(l.conns[id].queue) <= 4194304
                  && |l.conns[id].queue| <= 4096)
  {
    RunInv(Start(lim), acts);
    var l := Run(Start(lim), acts).live;
    LiveOthers(l, id);
    if id in l.conns {
      StreamWhole(l.stories[id], l.conns[id].queue);
    }
  }

  /** What a connection's history says the kernel took is what the kernel answered to its
      system calls: a piece for each answer that took something, of that many bytes or as
      many as were left of the frame. */
  lemma EveryAnswerCounted(lim: Limits, acts: seq<Action>, id: int)
    ensures var l := Run(Start(lim), acts).live;
            id in l.stories ==> Explained(l.stories[id].offered, l.stories[id].trail, l.stories[id].heard)
  {
    RunInv(Start(lim), acts);
    assert id in Run(Start(lim), acts).live.stories ==> StoryFine(Run(Start(lim), acts).live, id);
  }

  /** A connection that is gone got a prefix of what was offered to it, descriptors
      with the first bytes of their frames. */
  lemma ClosedStreamIsPrefix(lim: Limits, acts: seq<Action>, id: int)
    ensures var l := Run(Start(lim), acts).live;
            id in l.stories ==> TrailOk(l.stories[id]) && Data(l.stories[id].trail) <= Concat(l.stories[id].offered)
  {
    RunInv(Start(lim), acts);
    var l := Run(Start(lim), acts).live;
    if id in l.stories {
      assert StoryFine(l, id);
      TrailPrefix(l.stories[id]);
    }
  }

  lemma {:induction false} ConcatGrows(ms: seq<Msg>, k: int)
    requires 0 <= k <= |ms|
    ensures Concat(ms[..k]) <= Concat(ms)
    decreases |ms| - k
  {
    if k == |ms| {
      assert ms[..k] == ms;
    } else {
      ConcatNext(ms, k);
      ConcatGrows(ms, k + 1);
    }
  }

  lemma {:induction false} SoFarPrefix(ms: seq<Msg>, done: int, part: int)
    requires PositionOk(ms, done, part)
    ensures SoFar(ms, done, part) <= Concat(ms)
  {
    if done == |ms| {
      assert ms[..done] == ms;
    } else {
      ConcatNext(ms, done);
      ConcatGrows(ms, done + 1);
    }
  }

  lemma {:induction false} TrailPrefix(s: Story)
    requires TrailOk(s)
    ensures Data(s.trail) <= Concat(s.offered)
  {
    SoFarPrefix(s.offered, s.done, s.part);
  }

  /** The notes made for one caller. */
  function NotesFor(notes: seq<Note>, id: int): seq<Note>
    decreases |notes|
  {
    if notes == [] then []
    else
      var n := notes[|notes| - 1];
      NotesFor(notes[..|notes| - 1], id) + (if n.caller == id then [n] else [])
  }

  lemma {:induction false} NotesForAppend(a: seq<Note>, b: seq<Note>, id: int)
    ensures NotesFor(a + b, id) == NotesFor(a, id) + NotesFor(b, id)
    decreases |b|
  {
    if b == [] {
      assert a + b == a;
    } else {
      assert (a + b)[..|a + b| - 1] == a + b[..|b| - 1];
      NotesForAppend(a, b[..|b| - 1], id);
    }
  }

  lemma {:induction false} NotesForFan(id: int, x: int, n: int)
    ensures NotesFor(FanOut(x, n), id) == if x == id then FanOut(x, n) else []
    decreases n
  {
    if n > 0 {
      NotesForFan(id, x, n - 1);
      NotesForAppend(FanOut(x, n - 1), [Note(n - 1, x)], id);
      assert NotesFor([Note(n - 1, x)], id) == if x == id then [Note(n - 1, x)] else [] by {
        assert [Note(n - 1, x)][..0] == [];
      }
    }
  }

  ghost predicate ClosedAt(log: seq<Event>, id: int, n: int) {
    exists i | 0 <= i < |log| :: log[i] == Closed(id, n)
  }

  ghost predicate EverClosed(log: seq<Event>, id: int) {
    exists i | 0 <= i < |log| :: log[i].Closed? && log[i].id == id
  }

  /** The last event closes `id`, so no earlier one does. */
  lemma {:induction false} ClosedLast(log: seq<Event>, id: int)
    requires OrderOk(log) && log != [] && log[|log| - 1].Closed? && log[|log| - 1].id == id
    ensures !EverClosed(log[..|log| - 1], id)
    ensures forall n | ClosedAt(log, id, n) :: n == log[|log| - 1].handlers
  {
    var k := |log| - 1;
    forall i | 0 <= i < k
      ensures !(log[i].Closed? && log[i].id == id)
    {
      assert MayFollow(log[i], log[k]);
    }
  }

  lemma {:induction false} ClosedEarlier(log: seq<Event>, id: int)
    requires log != [] && !(log[|log| - 1].Closed? && log[|log| - 1].id == id)
    ensures EverClosed(log[..|log| - 1], id) ==> EverClosed(log, id)
    ensures forall n | ClosedAt(log, id, n) :: ClosedAt(log[..|log| - 1], id, n)
  {
  }

  lemma {:induction false} NotesForNext(log: seq<Event>, id: int)
    requires log != []
    ensures var e := log[|log| - 1];
            NotesFor(NotesOf(log), id) == NotesFor(NotesOf(log[..|log| - 1]), id)
              + (if e.Closed? && e.id == id then FanOut(id, e.handlers) else [])
  {
    var e := log[|log| - 1];
    var fan := if e.Closed? then FanOut(e.id, e.handlers) else [];
    NotesForAppend(NotesOf(log[..|log| - 1]), fan, id);
    if e.Closed? {
      NotesForFan(id, e.id, e.handlers);
    }
  }

  lemma {:induction false} NotesOnce(log: seq<Event>, id: int)
    requires OrderOk(log)
    ensures !EverClosed(log, id) ==> NotesFor(NotesOf(log), id) == []
    ensures forall n | ClosedAt(log, id, n) :: NotesFor(NotesOf(log), id) == FanOut(id, n)
    decreases |log|
  {
    if log != [] {
      OrderShorter(log);
      NotesOnce(log[..|log| - 1], id);
      NotesForNext(log, id);
      if log[|log| - 1].Closed? && log[|log| - 1].id == id {
        ClosedLast(log, id);
      } else {
        ClosedEarlier(log, id);
      }
    }
  }

  lemma {:induction false} OrderShorter(log: seq<Event>)
    requires OrderOk(log) && log != []
    ensures OrderOk(log[..|log| - 1])
  {
    var t := log[..|log| - 1];
    forall i, j | 0 <= i < j < |t|
      ensures MayFollow(t[i], t[j])
    {
      assert MayFollow(log[i], log[j]);
    }
  }

  /** Each closed connection fired every disconnect handler registered at that moment
      exactly once, in registration order; an open one fired none. */
  lemma DisconnectOnce(lim: Limits, acts: seq<Action>, id: int)
    ensures var p := Run(Start(lim), acts).past;
            && (!EverClosed(p.log, id) ==> NotesFor(p.notes, id) == [])
            && (forall n | ClosedAt(p.log, id, n) :: NotesFor(p.notes, id) == FanOut(id, n))
  {
    RunInv(Start(lim), acts);
    NotesOnce(Run(Start(lim), acts).past.log, id);
  }

  // ---- a broadcast offers once -------------------------------------------------------------------

  lemma {:induction false} OfferOffers(s: State, id: int, m: Msg, told: bool)
    requires Inv(s) && id in s.live.conns
    ensures StoryOf(Offer(s, id, m, told).live, id).offered == StoryOf(s.live, id).offered + [m]
  {
    LiveOthers(s.live, id);
    EnqueueOk(s.live.conns[id], s.live.stories[id], m, s.kernel, s.desk.lim);
  }

  /** From `l` to `k`, connection `x` was offered `m` once more and nothing else, if
      `yes`; otherwise it was offered nothing and is as it was. */
  predicate OfferedTo(l: Live, k: Live, x: int, m: Msg, yes: bool) {
    && StoryOf(k, x).offered == StoryOf(l, x).offered + (if yes then [m] else [])
    && (!yes && x in l.conns ==> x in k.conns && k.conns[x] == l.conns[x])
  }

  lemma {:induction false} OfferOffersTo(s: State, id: int, m: Msg, x: int)
    requires Inv(s) && id in s.live.conns
    ensures OfferedTo(s.live, Offer(s, id, m, true).live, x, m, x == id)
  {
    if x == id {
      OfferOffers(s, id, m, true);
    } else {
      OfferSpares(s, id, m, true, x);
    }
  }

  lemma {:induction false} OfferedThen(l: Live, k: Live, j: Live, x: int, m: Msg, first: bool, later: bool)
    requires OfferedTo(l, k, x, m, first) && OfferedTo(k, j, x, m, later) && !(first && later)
    ensures OfferedTo(l, j, x, m, first || later)
  {
  }

  lemma {:induction false} StillListen(s: State, ids: seq<int>, m: Msg)
    requires ids != [] && Distinct(ids) && AllListen(ids, s.live)
    ensures Distinct(ids[1..]) && AllListen(ids[1..], Offer(s, ids[0], m, true).live)
  {
    forall i | 0 <= i < |ids[1..]|
      ensures Listening(Offer(s, ids[0], m, true).live, ids[1..][i])
    {
      OfferSpares(s, ids[0], m, true, ids[i + 1]);
    }
  }

  /** The first offer made, the rest to come. */
  lemma {:induction false} TellRest(l: Live, t: State, ids: seq<int>, m: Msg, x: int)
    requires ids != [] && Distinct(ids) && OfferedTo(l, t.live, x, m, x == ids[0])
    requires Inv(t) && Distinct(ids[1..]) && AllListen(ids[1..], t.live)
    ensures OfferedTo(l, TellEach(t, ids[1..], m).live, x, m, x in ids)
    decreases |ids|, 0
  {
    TellEachOffers(t, ids[1..], m, x);
    OfferedThen(l, t.live, TellEach(t, ids[1..], m).live, x, m, x == ids[0], x in ids[1..]);
    assert x in ids <==> x == ids[0] || x in ids[1..];
  }

  lemma {:induction false} TellEachOffers(s: State, ids: seq<int>, m: Msg, x: int)
    requires Inv(s) && Distinct(ids) && AllListen(ids, s.live)
    ensures OfferedTo(s.live, TellEach(s, ids, m).live, x, m, x in ids)
    decreases |ids|, 1
  {
    if ids != [] {
      assert Listening(s.live, ids[0]);
      SendInv(s, ids[0], m, true);
      OfferOffersTo(s, ids[0], m, x);
      StillListen(s, ids, m);
      TellRest(s.live, Offer(s, ids[0], m, true), ids, m, x);
    }
  }

  lemma {:induction false} TellAudience(s: State, m: Msg, presence: bool, x: int)
    requires Inv(s)
    ensures OfferedTo(s.live, Broadcast(s, m, presence).live, x, m, x in Audience(s.live, presence, s.live.next - 1))
  {
    AudienceListens(s.live, presence);
    TellThese(s, Audience(s.live, presence, s.live.next - 1), m, x, Broadcast(s, m, presence));
  }

  lemma {:induction false} TellThese(s: State, ids: seq<int>, m: Msg, x: int, t: State)
    requires Inv(s) && Distinct(ids) && AllListen(ids, s.live) && t == TellEach(s, ids, m)
    ensures OfferedTo(s.live, t.live, x, m, x in ids)
  {
    TellEachOffers(s, ids, m, x);
  }

  /** A broadcast offers its frame exactly once to each connection eligible at the call
      and to nobody else, whichever of them close on the way. */
  lemma {:induction false} BroadcastOffersOnce(s: State, m: Msg, presence: bool, x: int)
    requires Inv(s)
    ensures OfferedTo(s.live, Broadcast(s, m, presence).live, x, m, Eligible(s.live, x, presence))
  {
    AudienceHas(s.live, presence, x);
    TellAudience(s, m, presence, x);
  }
}
