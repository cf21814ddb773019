/** What every step of the trust detour and its teardown keeps, and what follows
    for whole runs. */
module TrustGateProofs {
  import opened TrustGate

  // ---- invariants -----------------------------------------------------------

  ghost predicate HostOk(c: Control) {
    && (c.alive <==> FrontendExists(c.host) && !c.host.GuardDead?)
    && (c.mutex == ByDestructor <==> c.host.DestructorLocked?)
    && (c.quiesced <==> c.quiesceFirst && !c.host.Serving? && !c.host.AwaitQuiesce?)
    && (c.host.AwaitQuiesce? || c.host.Quiesced? || c.host.AwaitDrain? || c.host.Drained? ==> c.quiesceFirst)
    && (c.host.Finalized? || c.host.TransportGone? ==> c.loop == Idle)
    && (c.mutex == ByLoop <==> c.loop.Inside? || c.loop.Using? || c.loop == AtUnlock)
    && (c.loop.Using? ==> c.alive)
  }

  ghost predicate IsSync(b: Block) {
    b.QuiesceSync? || b.DrainSync? || b.FinalSync?
  }

  /** The host waits for exactly this block. */
  ghost predicate Awaited(b: Block, h: Host) {
    || (b.QuiesceSync? && h.AwaitQuiesce?)
    || (b.DrainSync? && h.AwaitDrain?)
    || (b.FinalSync? && h.AwaitFinal?)
  }

  /** At most one synchronous block is queued, the one the host waits for, and
      continuations run before the last of them or not at all. */
  ghost predicate SyncOk(q: seq<Block>, h: Host) {
    && (forall i | 0 <= i < |q| && IsSync(q[i]) :: Awaited(q[i], h))
    && (forall i, j | 0 <= i < j < |q| && IsSync(q[i]) :: !IsSync(q[j]))
    && (forall i, j | 0 <= i < j < |q| && q[i].FinalSync? :: !q[j].Continuation?)
    && (h.Finalized? || h.TransportGone? ==> forall i | 0 <= i < |q| :: !q[i].Continuation?)
  }

  ghost predicate InContinuation(l: Loop, id: int) {
    l == AtMutex(id) || l == Inside(id) || l == Using(id)
  }

  /** One request against the threads: a worker past the lock holds the mutex, one
      past the check holds it over a live frontend, and a running continuation is
      the one the loop is in. */
  ghost predicate LifeOk(c: Control, id: int, l: Life) {
    && (l.Locked? || l.Cleared? ==> c.mutex == ByWorker(id))
    && (l.Cleared? ==> c.alive)
    && (l.Running? <==> InContinuation(c.loop, id))
    && (l.Dropped? ==> c.quiesced || !c.alive)
  }

  ghost predicate LivesOk(c: Control, book: seq<Entry>) {
    && (forall id | 0 <= id < |book| :: LifeOk(c, id, book[id].life))
    && (c.mutex.ByWorker? ==> 0 <= c.mutex.id < |book|)
    && (c.loop.AtMutex? || c.loop.Inside? || c.loop.Using? ==> 0 <= c.loop.id < |book|)
  }

  /** A queued block speaks of a request in the matching place, and only once. */
  ghost predicate QueueOk(q: seq<Block>, book: seq<Entry>) {
    && (forall i | 0 <= i < |q| ::
          && (q[i].Continuation? ==> 0 <= q[i].id < |book| && book[q[i].id].life.Posted?)
          && (q[i].Read? ==> 0 <= q[i].id < |book| && book[q[i].id].life == Waiting))
    && (forall i, j | 0 <= i < j < |q| :: q[i].Continuation? || q[i].Read? ==> q[i] != q[j])
  }

  /** The key may be written at all, and who may do so is asked. */
  predicate Writable(r: Request) {
    r.verb == ImportList || r.tier == PlainTier || r.tier == TrustTier
  }

  /** A plain-tier change. */
  predicate Plain(r: Request) {
    r.verb != ImportList && r.tier == PlainTier
  }

  /** A trust change that can be put to a person: an import whose descriptor came with it,
      or a trust key with a sentence of its own. */
  predicate Describable(r: Request) {
    if r.verb == ImportList then r.fdInRange else r.tier == TrustTier && r.described
  }

  /** The person is asked exactly about these. */
  predicate Askable(r: Request, a: Ruling) {
    a.Ruled? && Describable(r) && a.auth == Granted && a.allow && !a.busy
  }

  /** Everything else is answered at once, row by row. */
  predicate AtOnce(r: Request, a: Ruling, h: seq<Event>) {
    a.Ruled? &&
    (|| (r.verb != ImportList && r.tier == UnknownKey && h == [RepliedError(UnknownConfigKey)])
     || (r.verb != ImportList && r.tier == NotWritable && h == [RepliedError(ReadOnlyConfig)])
     || (Writable(r) && a.auth == Denied && h == [RepliedError(NotAuthorized)])
     || (Writable(r) && a.auth == Undecided && h == [RepliedError(CommunicationError)])
     || (Plain(r) && a.auth == Granted && h == [WasGranted, AppliedPlain, RepliedByApply])
     || (Writable(r) && !Plain(r) && a.auth == Granted && !a.allow && h == [WasGranted, RepliedError(RateLimited)])
     || (r.verb == ImportList && !r.fdInRange && a.auth == Granted && a.allow
         && h == [WasGranted, WasCharged, RepliedError(InvalidRequest)])
     || (r.verb != ImportList && r.tier == TrustTier && !r.described && a.auth == Granted && a.allow
         && h == [WasGranted, WasCharged, RepliedError(NotAuthorized)])
     || (Describable(r) && a.auth == Granted && a.allow && a.busy
         && h == [WasGranted, WasCharged, RepliedError(RateLimited)]))
  }

  ghost predicate HistoryOk(e: Entry) {
    var asked := [WasGranted, WasCharged, WasAsked];
    var l, h := e.life, e.history;
    if l.Waiting? || l.Unread? then h == [] && e.ruling == Unruled
    else if l.Finished? then FinishedOk(e.request, e.ruling, h)
    else
      && Askable(e.request, e.ruling)
      && (if l.Asking? then h == asked
          else if l.Dropped? then h == asked + [WasAnswered(true)] || h == asked + [WasAnswered(false)]
          else h == asked + [WasAnswered(l.ok)])
  }

  ghost predicate FinishedOk(r: Request, a: Ruling, h: seq<Event>) {
    || AtOnce(r, a, h)
    || (Askable(r, a) && h == [WasGranted, WasCharged, WasAsked, WasAnswered(false), RepliedError(NotAuthorized)])
    || (Askable(r, a) && h == [WasGranted, WasCharged, WasAsked, WasAnswered(true), Applied, RepliedByApply])
  }

  ghost predicate HistoriesOk(book: seq<Entry>) {
    forall id | 0 <= id < |book| :: HistoryOk(book[id])
  }

  /** Caller tokens are handed out once, and a queued disconnect is of a
      connection that is gone. */
  ghost predicate PeersOk(q: seq<Block>, p: Peers, book: seq<Entry>) {
    && (forall c | c in p.open :: c < p.nextCaller)
    && (forall i | 0 <= i < |q| && q[i].Disconnect? :: q[i].caller !in p.open && q[i].caller < p.nextCaller)
    && (forall id | 0 <= id < |book| :: book[id].request.caller < p.nextCaller)
  }

  /** One outstanding confirmation per caller; an open connection with one is in
      the set. */
  ghost predicate FlightOk(p: Peers, book: seq<Entry>) {
    && (forall id | 0 <= id < |book| && Outstanding(book[id].life) ::
          book[id].request.caller in p.inFlight || book[id].request.caller !in p.open)
    && (forall i, j | 0 <= i < j < |book| && Outstanding(book[i].life) && Outstanding(book[j].life) ::
          book[i].request.caller != book[j].request.caller)
  }

  ghost predicate Waits(book: seq<Entry>, caller: int) {
    exists id | 0 <= id < |book| :: book[id].request.caller == caller && Outstanding(book[id].life)
  }

  /** No stuck entry: whoever is in the set has a confirmation outstanding. */
  ghost predicate NoStuckFlight(c: Control, p: Peers, book: seq<Entry>) {
    !c.quiesced && c.alive ==> forall x | x in p.inFlight :: Waits(book, x)
  }

  ghost predicate NoFault(s: State) {
    !s.confirmFault && (s.c.quiesceFirst ==> !s.otherFault)
  }

  ghost predicate Inv(s: State) {
    && HostOk(s.c) && SyncOk(s.queue, s.c.host) && LivesOk(s.c, s.book) && QueueOk(s.queue, s.book)
    && HistoriesOk(s.book) && PeersOk(s.queue, s.peers, s.book) && FlightOk(s.peers, s.book)
    && NoStuckFlight(s.c, s.peers, s.book) && NoFault(s)
  }

  // ---- one entry changes ----------------------------------------------------

  /** No queued block speaks of request `id`. */
  ghost predicate NotQueued(q: seq<Block>, id: int) {
    forall i | 0 <= i < |q| :: q[i] != Continuation(id) && q[i] != Read(id)
  }

  /** The confirmation of `id` stays outstanding, or ends and its caller leaves
      the set, or ends after the frontend. */
  ghost predicate FlightMove(p: Peers, p': Peers, was: Entry, e: Entry) {
    && e.request == was.request && p'.open == p.open && p'.nextCaller == p.nextCaller
    && (Outstanding(e.life) ==> Outstanding(was.life) && p'.inFlight == p.inFlight)
    && (!Outstanding(e.life) && p'.inFlight != p.inFlight ==>
          Outstanding(was.life) && p'.inFlight == p.inFlight - {e.request.caller})
  }

  lemma MoveStuck(c: Control, p: Peers, p': Peers, book: seq<Entry>, id: int, e: Entry)
    requires NoStuckFlight(c, p, book) && 0 <= id < |book| && FlightMove(p, p', book[id], e)
    requires Outstanding(book[id].life) && !Outstanding(e.life) && p'.inFlight == p.inFlight ==>
      c.quiesced || !c.alive || e.request.caller !in p.inFlight
    ensures NoStuckFlight(c, p', book[id := e])
  {
    if !c.quiesced && c.alive {
      forall x | x in p'.inFlight ensures Waits(book[id := e], x) {
        var k :| 0 <= k < |book| && book[k].request.caller == x && Outstanding(book[k].life);
        assert Outstanding(book[id := e][k].life);
      }
    }
  }

  // ---- one block is posted ------------------------------------------------------

  lemma PostPeers(q: seq<Block>, p: Peers, book: seq<Entry>, b: Block)
    requires PeersOk(q, p, book)
    requires b.Disconnect? ==> b.caller !in p.open && b.caller < p.nextCaller
    ensures PeersOk(q + [b], p, book)
  {
  }

  ghost predicate Awaiting(h: Host) {
    h.AwaitQuiesce? || h.AwaitDrain? || h.AwaitFinal?
  }

  /** The host moves on while it waits for nothing. */
  lemma HostMoves(q: seq<Block>, h: Host, h': Host)
    requires SyncOk(q, h) && !Awaiting(h) && !h'.Finalized? && (h'.TransportGone? ==> h.Finalized?)
    ensures SyncOk(q, h')
    ensures forall b | Awaited(b, h') :: SyncOk(q + [b], h')
  {
  }

  lemma PostInv(s: State, b: Block)
    requires Inv(s) && !IsSync(b)
    requires b.Continuation? ==> FrontendExists(s.c.host) && Known(s, b.id) && s.book[b.id].life.Posted?
    requires b.Read? ==> Known(s, b.id) && s.book[b.id].life == Waiting
    requires b.Continuation? || b.Read? ==> NotQueued(s.queue, b.id)
    requires b.Disconnect? ==> b.caller !in s.peers.open && b.caller < s.peers.nextCaller
    ensures Inv(Post(s, b))
  {
    PostPeers(s.queue, s.peers, s.book, b);
  }

  /** Request `id` becomes `e`, with the control and the peers that go with it. */
  lemma MoveInv(s: State, c: Control, p: Peers, id: int, e: Entry)
    requires Inv(s) && Known(s, id) && NotQueued(s.queue, id) && HistoryOk(e)
    requires FlightMove(s.peers, p, s.book[id], e)
    requires Outstanding(s.book[id].life) && !Outstanding(e.life) && p.inFlight == s.peers.inFlight ==>
      c.quiesced || !c.alive || e.request.caller !in p.inFlight
    requires HostOk(c) && LivesOk(c, s.book[id := e])
    requires c == s.c.(loop := c.loop, mutex := c.mutex)
    ensures Inv(s.(c := c, peers := p, book := s.book[id := e]))
  {
    MoveStuck(s.c, s.peers, p, s.book, id, e);
  }

  lemma ControlInv(s: State, c: Control)
    requires Inv(s) && HostOk(c) && LivesOk(c, s.book) && c == s.c.(loop := c.loop, mutex := c.mutex)
    ensures Inv(s.(c := c))
  {
  }

  // ---- worker steps -----------------------------------------------------------

  lemma PersonAnswersInv(s: State, id: int, ok: bool)
    requires Inv(s)
    ensures Inv(WorkerStep(s, PersonAnswers(id, ok)))
  {
    if Known(s, id) && s.book[id].life == Asking {
      var e := Entry(s.book[id].request, Answered(ok), s.book[id].history + [WasAnswered(ok)], s.book[id].ruling);
      assert HistoryOk(s.book[id]) && LifeOk(s.c, id, s.book[id].life);
      MoveInv(s, s.c, s.peers, id, e);
    }
  }

  lemma WorkerLockInv(s: State, id: int)
    requires Inv(s)
    ensures Inv(WorkerStep(s, WorkerLock(id)))
  {
    if Known(s, id) && s.book[id].life.Answered? && s.c.mutex == NoOne {
      var e := Entry(s.book[id].request, Locked(s.book[id].life.ok), s.book[id].history + [], s.book[id].ruling);
      var c := s.c.(mutex := ByWorker(id));
      assert e.history == s.book[id].history;
      assert HistoryOk(s.book[id]) && LifeOk(s.c, id, s.book[id].life);
      assert forall k | 0 <= k < |s.book| ::
          LifeOk(s.c, k, s.book[k].life) ==> k != id ==> LifeOk(c, k, s.book[k].life);
      MoveInv(s, c, s.peers, id, e);
    }
  }

  lemma WorkerCheckInv(s: State, id: int)
    requires Inv(s)
    ensures Inv(WorkerStep(s, WorkerCheck(id)))
  {
    if Known(s, id) && s.book[id].life.Locked? {
      var l := if s.c.alive then Cleared(s.book[id].life.ok) else Dropped;
      var e := Entry(s.book[id].request, l, s.book[id].history + [], s.book[id].ruling);
      assert e.history == s.book[id].history;
      assert HistoryOk(s.book[id]) && LifeOk(s.c, id, s.book[id].life);
      MoveInv(s, s.c, s.peers, id, e);
    }
  }

  lemma WorkerPostInv(s: State, id: int)
    requires Inv(s)
    ensures Inv(WorkerStep(s, WorkerPost(id)))
  {
    if Known(s, id) && s.book[id].life.Cleared? {
      var e := Entry(s.book[id].request, Posted(s.book[id].life.ok), s.book[id].history + [], s.book[id].ruling);
      assert e.history == s.book[id].history;
      assert HistoryOk(s.book[id]) && LifeOk(s.c, id, s.book[id].life);
      MoveInv(s, s.c, s.peers, id, e);
      PostInv(s.(book := s.book[id := e]), Continuation(id));
    }
  }

  lemma WorkerInv(s: State, a: WorkerAction)
    requires Inv(s)
    ensures Inv(WorkerStep(s, a))
  {
    match a
    case PersonAnswers(id, ok) => PersonAnswersInv(s, id, ok);
    case WorkerLock(id) => WorkerLockInv(s, id);
    case WorkerCheck(id) => WorkerCheckInv(s, id);
    case WorkerPost(id) => WorkerPostInv(s, id);
    case WorkerUnlock => ControlInv(s, WorkerStep(s, a).c);
  }

  // ---- host steps -------------------------------------------------------------

  lemma HostAwaitInv(s: State, h: Host, b: Block)
    requires Inv(s) && !Awaiting(s.c.host) && Awaited(b, h) && HostOk(s.c.(host := h))
    ensures Inv(Post(SetHost(s, h), b))
  {
    HostMoves(s.queue, s.c.host, h);
    PostPeers(s.queue, s.peers, s.book, b);
  }

  lemma HostLockInv(s: State)
    requires Inv(s) && s.c.mutex == NoOne && ((s.c.host.Serving? && !s.c.quiesceFirst) || s.c.host.Drained?)
    ensures Inv(s.(c := s.c.(host := DestructorLocked, mutex := ByDestructor)))
  {
  }

  lemma HostMarkInv(s: State)
    requires Inv(s) && s.c.host.DestructorLocked?
    ensures Inv(s.(c := s.c.(host := GuardDead, alive := false, mutex := NoOne)))
  {
  }

  lemma HostPassInv(s: State, h: Host)
    requires Inv(s) && ((s.c.host.GuardDead? && h.FrontendGone?) || (s.c.host.Finalized? && h.TransportGone?))
    ensures Inv(SetHost(s, h))
  {
  }

  lemma HostInv(s: State, a: HostAction)
    requires Inv(s)
    ensures Inv(HostStep(s, a))
  {
    if HostStep(s, a) != s {
      match a
      case HostQuiesce => HostAwaitInv(s, AwaitQuiesce, QuiesceSync);
      case HostDrain => HostAwaitInv(s, AwaitDrain, DrainSync);
      case HostLock => HostLockInv(s);
      case HostMark => HostMarkInv(s);
      case HostFree => HostPassInv(s, FrontendGone);
      case HostFinal => HostAwaitInv(s, AwaitFinal, FinalSync);
      case HostRelease => HostPassInv(s, TransportGone);
    }
  }

  // ---- peer steps -------------------------------------------------------------

  lemma AppendEntry(s: State, r: Request)
    requires Inv(s) && r.caller in s.peers.open
    ensures Inv(s.(book := s.book + [Entry(r, Waiting, [], Unruled)]))
  {
    var b := s.book + [Entry(r, Waiting, [], Unruled)];
    if !s.c.quiesced && s.c.alive {
      forall x | x in s.peers.inFlight ensures Waits(b, x) {
        var k :| 0 <= k < |s.book| && s.book[k].request.caller == x && Outstanding(s.book[k].life);
        assert b[k] == s.book[k];
      }
    }
  }

  lemma CloseInv(s: State, c: int)
    requires Inv(s) && c in s.peers.open
    ensures Inv(s.(peers := s.peers.(open := s.peers.open - {c})))
  {
  }

  lemma PeerInv(s: State, a: PeerAction)
    requires Inv(s)
    ensures Inv(PeerStep(s, a))
  {
    match a
    case Connect =>
    case CloseConnection(c) =>
      if c in s.peers.open {
        CloseInv(s, c);
        PostInv(s.(peers := s.peers.(open := s.peers.open - {c})), Disconnect(c));
      }
    case Arrive(r) =>
      if r.caller in s.peers.open {
        AppendEntry(s, r);
        PostInv(s.(book := s.book + [Entry(r, Waiting, [], Unruled)]), Read(|s.book|));
      }
    case PostOther => PostInv(s, OtherWork);
  }

  // ---- loop steps -------------------------------------------------------------

  /** What a block still promises once it is off the queue. */
  ghost predicate HeadOk(s: State, b: Block) {
    && (b.Continuation? ==> Known(s, b.id) && s.book[b.id].life.Posted? && NotQueued(s.queue, b.id))
    && (b.Continuation? ==> !s.c.host.Finalized? && !s.c.host.TransportGone?)
    && (b.Read? ==> Known(s, b.id) && s.book[b.id].life == Waiting && NotQueued(s.queue, b.id))
    && (b.Disconnect? ==> b.caller !in s.peers.open)
    && (IsSync(b) ==> Awaited(b, s.c.host) && forall i | 0 <= i < |s.queue| :: !IsSync(s.queue[i]))
    && (b.FinalSync? ==> forall i | 0 <= i < |s.queue| :: !s.queue[i].Continuation?)
  }

  lemma PopInv(s: State)
    requires Inv(s) && s.queue != []
    ensures Inv(s.(queue := s.queue[1..])) && HeadOk(s.(queue := s.queue[1..]), s.queue[0])
  {
    assert forall i | 0 <= i < |s.queue[1..]| :: s.queue[1..][i] == s.queue[i + 1];
  }

  /** The gate, input by input. A person is asked exactly about a describable trust change
      that is granted, within the rate and the caller's only one; a plain change is made at
      once exactly when granted; everything else is refused with the error of its row. */
  lemma GateOutcome(r: Request, auth: Authorization, allow: bool, busy: bool)
    ensures var gate, a := Decide(r, auth, allow, busy), Ruled(auth, allow, busy);
      && (gate.Ask? <==> Askable(r, a)) && (gate.ApplyNow? <==> Plain(r) && auth == Granted)
      && (gate.Ask? ==> gate.events == [WasGranted, WasCharged, WasAsked])
      && (!gate.Ask? ==> AtOnce(r, a, gate.events) && Applied !in gate.events)
  {
  }

  /** No two rows meet the same input, so the table leaves nothing open. */
  lemma TableIsExact(r: Request, a: Ruling, h: seq<Event>, g: seq<Event>)
    requires AtOnce(r, a, h)
    ensures !Askable(r, a) && (AtOnce(r, a, g) ==> g == h)
    ensures AppliedPlain in h <==> Plain(r) && a.auth == Granted
  {
  }

  lemma DispatchInv(s: State, id: int, auth: Authorization, allow: bool)
    requires Inv(s) && Known(s, id) && s.book[id].life == Waiting && NotQueued(s.queue, id)
    requires s.book[id].request.caller in s.peers.open && !s.c.quiesced && FrontendExists(s.c.host)
    ensures Inv(RunRead(s, id, auth, allow))
  {
    var r := s.book[id].request;
    var busy := r.caller in s.peers.inFlight;
    var gate := Decide(r, auth, allow, busy);
    assert HistoryOk(s.book[id]) && LifeOk(s.c, id, s.book[id].life);
    var e := Entry(r, if gate.Ask? then Asking else Finished, s.book[id].history + gate.events,
                   Ruled(auth, allow, busy));
    assert e.history == gate.events;
    GateOutcome(r, auth, allow, busy);
    if gate.Ask? {
      AskInv(s, id, e);
    } else {
      MoveInv(s, s.c, s.peers, id, e);
    }
    assert RunRead(s, id, auth, allow).book == s.book[id := e];
  }

  /** A new question: its caller waits for no other, because the set says so. */
  lemma AskInv(s: State, id: int, e: Entry)
    requires Inv(s) && Known(s, id) && s.book[id].life == Waiting && NotQueued(s.queue, id)
    requires e.request == s.book[id].request && e.life == Asking && HistoryOk(e)
    requires e.request.caller in s.peers.open && e.request.caller !in s.peers.inFlight
    ensures Inv(s.(book := s.book[id := e], peers := s.peers.(inFlight := s.peers.inFlight + {e.request.caller})))
  {
    var b := s.book[id := e];
    var p := s.peers.(inFlight := s.peers.inFlight + {e.request.caller});
    assert LifeOk(s.c, id, s.book[id].life);
    assert forall k | 0 <= k < |s.book| && Outstanding(s.book[k].life) :: s.book[k].request.caller != e.request.caller;
    if !s.c.quiesced && s.c.alive {
      forall x | x in p.inFlight ensures Waits(b, x) {
        if x == e.request.caller {
          assert Outstanding(b[id].life);
        } else {
          var k :| 0 <= k < |s.book| && s.book[k].request.caller == x && Outstanding(s.book[k].life);
          assert b[k] == s.book[k];
        }
      }
    }
  }

  lemma RunReadInv(s: State, id: int, auth: Authorization, allow: bool)
    requires Inv(s) && HeadOk(s, Read(id))
    ensures Inv(RunRead(s, id, auth, allow))
  {
    if s.c.quiesced || s.book[id].request.caller !in s.peers.open || !FrontendExists(s.c.host) {
      var e := Entry(s.book[id].request, Unread, s.book[id].history + [], s.book[id].ruling);
      assert HistoryOk(s.book[id]) && LifeOk(s.c, id, s.book[id].life);
      MoveInv(s, s.c, s.peers, id, e);
    } else {
      DispatchInv(s, id, auth, allow);
    }
  }

  lemma RunContinuationInv(s: State, id: int)
    requires Inv(s) && HeadOk(s, Continuation(id)) && s.c.loop == Idle
    ensures Inv(RunContinuation(s, id))
  {
    var l := if s.c.quiesced then Dropped else Running(s.book[id].life.ok);
    var c := if s.c.quiesced then s.c else s.c.(loop := AtMutex(id));
    var e := Entry(s.book[id].request, l, s.book[id].history + [], s.book[id].ruling);
    assert e.history == s.book[id].history;
    assert HistoryOk(s.book[id]) && LifeOk(s.c, id, s.book[id].life);
    assert forall k | 0 <= k < |s.book| && k != id :: LifeOk(s.c, k, s.book[k].life) ==> LifeOk(c, k, s.book[k].life);
    MoveInv(s, c, s.peers, id, e);
  }

  lemma RunDisconnectInv(s: State, caller: int)
    requires Inv(s) && HeadOk(s, Disconnect(caller))
    ensures Inv(RunDisconnect(s, caller))
  {
  }

  lemma RunSyncInv(s: State, b: Block)
    requires Inv(s) && IsSync(b) && HeadOk(s, b) && s.c.loop == Idle
    ensures Inv(RunSync(s, b))
  {
  }

  lemma ExecuteInv(s: State, b: Block, auth: Authorization, allow: bool)
    requires Inv(s) && HeadOk(s, b) && s.c.loop == Idle
    ensures Inv(Execute(s, b, auth, allow))
  {
    match b
    case Read(id) => RunReadInv(s, id, auth, allow);
    case Continuation(id) => RunContinuationInv(s, id);
    case Disconnect(c) => RunDisconnectInv(s, c);
    case OtherWork =>
    case _ => RunSyncInv(s, b);
  }

  /** The check found the frontend gone: the answer is dropped on the loop. */
  lemma LoopCheckInv(s: State)
    requires Inv(s) && s.c.loop.Inside?
    ensures Inv(LoopStep(s, LoopCheck))
  {
    var id := s.c.loop.id;
    assert HistoryOk(s.book[id]) && LifeOk(s.c, id, s.book[id].life);
    if s.c.alive {
      var c := s.c.(loop := Using(id));
      assert forall k | 0 <= k < |s.book| :: LifeOk(s.c, k, s.book[k].life) ==> LifeOk(c, k, s.book[k].life);
      ControlInv(s, c);
    } else {
      var c := s.c.(loop := AtUnlock);
      var e := Entry(s.book[id].request, Dropped, s.book[id].history + [], s.book[id].ruling);
      assert e.history == s.book[id].history;
      assert forall k | 0 <= k < |s.book| && k != id :: LifeOk(s.c, k, s.book[k].life) ==> LifeOk(c, k, s.book[k].life);
      MoveInv(s, c, s.peers, id, e);
    }
  }

  lemma LoopUseInv(s: State)
    requires Inv(s) && s.c.loop.Using?
    ensures Inv(LoopStep(s, LoopUse))
  {
    var id := s.c.loop.id;
    var t := LoopStep(s, LoopUse);
    var e := t.book[id];
    assert HistoryOk(s.book[id]) && LifeOk(s.c, id, s.book[id].life);
    assert s.book[id].life.Running? && FrontendExists(s.c.host);
    assert forall k | 0 <= k < |s.book| && k != id :: LifeOk(s.c, k, s.book[k].life) ==> LifeOk(t.c, k, s.book[k].life);
    MoveInv(s, t.c, t.peers, id, e);
  }

  lemma LoopLockInv(s: State)
    requires Inv(s) && s.c.loop.AtMutex? && s.c.mutex == NoOne
    ensures Inv(LoopStep(s, LoopLock))
  {
  }

  lemma LoopUnlockInv(s: State)
    requires Inv(s) && s.c.loop.AtUnlock?
    ensures Inv(LoopStep(s, LoopUnlock))
  {
  }

  lemma RunBlockInv(s: State, auth: Authorization, allow: bool)
    requires Inv(s) && s.c.loop == Idle && s.queue != []
    ensures Inv(Execute(s.(queue := s.queue[1..]), s.queue[0], auth, allow))
  {
    PopInv(s);
    ExecuteInv(s.(queue := s.queue[1..]), s.queue[0], auth, allow);
  }

  lemma LoopInv(s: State, a: LoopAction)
    requires Inv(s)
    ensures Inv(LoopStep(s, a))
  {
    match a
    case RunBlock(auth, allow) =>
      if s.c.loop == Idle && s.queue != [] {
        RunBlockInv(s, auth, allow);
      }
    case LoopLock => if s.c.loop.AtMutex? && s.c.mutex == NoOne { LoopLockInv(s); }
    case LoopCheck => if s.c.loop.Inside? { LoopCheckInv(s); }
    case LoopUse => if s.c.loop.Using? { LoopUseInv(s); }
    case LoopUnlock => if s.c.loop.AtUnlock? { LoopUnlockInv(s); }
  }

  lemma StepInv(s: State, a: Action)
    requires Inv(s)
    ensures Inv(Step(s, a))
  {
    match a
    case OnLoop(l) => LoopInv(s, l);
    case OnWorker(w) => WorkerInv(s, w);
    case OnHost(h) => HostInv(s, h);
    case OnPeer(p) => PeerInv(s, p);
  }

  // ---- whole runs ---------------------------------------------------------------

  lemma {:induction false} RunInv(s: State, acts: seq<Action>)
    requires Inv(s)
    ensures Inv(Run(s, acts))
    decreases |acts|
  {
    if acts != [] {
      StepInv(s, acts[0]);
      RunInv(Step(s, acts[0]), acts[1..]);
    }
  }

  lemma ReachableInv(quiesceFirst: bool, acts: seq<Action>)
    ensures Inv(Run(Start(quiesceFirst), acts))
  {
    RunInv(Start(quiesceFirst), acts);
  }

  /** In every interleaving of workers, loop and destructors the confirmation path
      never touches the frontend or the transport after they are gone; a host that
      quiesces the loop first is safe from every other posted block too. */
  lemma TeardownIsSafe(quiesceFirst: bool, acts: seq<Action>)
    ensures var s := Run(Start(quiesceFirst), acts);
      && !s.confirmFault && (quiesceFirst ==> !s.otherFault)
      && (s.c.loop.Using? ==> FrontendExists(s.c.host) && TransportExists(s.c.host))
      && (forall id | Known(s, id) && s.book[id].life.Cleared? :: TransportExists(s.c.host))
      && (s.queue != [] && s.queue[0].Continuation? ==> TransportExists(s.c.host))
      && (quiesceFirst && !s.c.quiesced ==> FrontendExists(s.c.host))
  {
    var s := Run(Start(quiesceFirst), acts);
    ReachableInv(quiesceFirst, acts);
    RunKeepsOrder(Start(quiesceFirst), acts);
    assert forall id | Known(s, id) :: LifeOk(s.c, id, s.book[id].life);
  }

  lemma {:induction false} RunKeepsOrder(s: State, acts: seq<Action>)
    ensures Run(s, acts).c.quiesceFirst == s.c.quiesceFirst
    decreases |acts|
  {
    if acts != [] {
      StepKeepsOrder(s, acts[0]);
      RunKeepsOrder(Step(s, acts[0]), acts[1..]);
    }
  }

  lemma StepKeepsOrder(s: State, a: Action)
    ensures Step(s, a).c.quiesceFirst == s.c.quiesceFirst
  {
    match a
    case OnLoop(l) => LoopKeepsOrder(s, l);
    case OnWorker(w) => WorkerKeepsOrder(s, w);
    case OnHost(h) =>
    case OnPeer(p) =>
  }

  lemma LoopKeepsOrder(s: State, a: LoopAction)
    ensures LoopStep(s, a).c.quiesceFirst == s.c.quiesceFirst
  {
    if a.RunBlock? && s.queue != [] {
      ExecuteKeepsOrder(s.(queue := s.queue[1..]), s.queue[0], a.auth, a.allow);
    }
  }

  lemma ExecuteKeepsOrder(s: State, b: Block, auth: Authorization, allow: bool)
    ensures Execute(s, b, auth, allow).c.quiesceFirst == s.c.quiesceFirst
  {
  }

  lemma WorkerKeepsOrder(s: State, a: WorkerAction)
    ensures WorkerStep(s, a).c.quiesceFirst == s.c.quiesceFirst
  {
  }

  /** Once the transport has drained for the last time, no continuation of the
      confirmation path is queued, running or still to be posted. */
  lemma NothingAfterFinalDrain(quiesceFirst: bool, acts: seq<Action>, id: int)
    requires var s := Run(Start(quiesceFirst), acts);
      (s.c.host.Finalized? || s.c.host.TransportGone?) && Known(s, id)
    ensures var s := Run(Start(quiesceFirst), acts);
      && (forall i | 0 <= i < |s.queue| :: !s.queue[i].Continuation?)
      && !s.book[id].life.Running? && !s.book[id].life.Cleared? && s.c.loop == Idle
  {
    ReachableInv(quiesceFirst, acts);
    var s := Run(Start(quiesceFirst), acts);
    assert LifeOk(s.c, id, s.book[id].life);
  }

  /** A host that skips the quiesce is not safe: a posted block runs on a freed
      frontend. */
  lemma UnsafeWithoutQuiesce() returns (acts: seq<Action>)
    ensures Run(Start(false), acts).otherFault
  {
    acts := [OnHost(HostLock), OnHost(HostMark), OnPeer(PostOther), OnHost(HostFree), OnLoop(RunBlock(Granted, true))];
    var s1 := Step(Start(false), acts[0]);
    var s2 := Step(s1, acts[1]);
    var s3 := Step(s2, acts[2]);
    assert s3.queue == [OtherWork];
    var s4 := Step(s3, acts[3]);
    var s5 := Step(s4, acts[4]);
    assert s5.otherFault;
    assert acts[1..][0] == acts[1] && acts[1..][1..] == acts[2..];
    assert acts[2..][0] == acts[2] && acts[2..][1..] == acts[3..];
    assert acts[3..][0] == acts[3] && acts[3..][1..] == acts[4..];
    assert acts[4..][0] == acts[4] && acts[4..][1..] == [];
    assert Run(s4, acts[4..]) == Run(s5, []);
  }

  /** A trust-tier change ran only for a request that was granted, charged, put to
      a person and answered yes, in that order, and it was answered right after. */
  lemma TrustChangeIsGated(quiesceFirst: bool, acts: seq<Action>, id: int)
    requires Known(Run(Start(quiesceFirst), acts), id)
    ensures var e := Run(Start(quiesceFirst), acts).book[id];
      && (Applied in e.history ==>
            && Describable(e.request) && e.ruling == Ruled(Granted, true, false) && e.life == Finished
            && e.history == [WasGranted, WasCharged, WasAsked, WasAnswered(true), Applied, RepliedByApply])
      && (AppliedPlain in e.history <==> Plain(e.request) && e.ruling.Ruled? && e.ruling.auth == Granted)
      && (e.life == Finished && !Askable(e.request, e.ruling) ==> AtOnce(e.request, e.ruling, e.history))
  {
    ReachableInv(quiesceFirst, acts);
    EntryIsGated(Run(Start(quiesceFirst), acts).book[id]);
  }

  lemma EntryIsGated(e: Entry)
    requires HistoryOk(e)
    ensures Applied in e.history ==>
      && Describable(e.request) && e.ruling == Ruled(Granted, true, false) && e.life == Finished
      && e.history == [WasGranted, WasCharged, WasAsked, WasAnswered(true), Applied, RepliedByApply]
    ensures AppliedPlain in e.history <==> Plain(e.request) && e.ruling.Ruled? && e.ruling.auth == Granted
  {
  }

  /** A request that is read is ruled on: what the authoriser and the limiter answered is
      recorded, and the person is asked or the request finished accordingly. */
  lemma ReadIsRuledOn(s: State, auth: Authorization, allow: bool)
    requires Inv(s) && s.c.loop == Idle && s.queue != [] && s.queue[0].Read? && !s.c.quiesced
    requires s.book[s.queue[0].id].request.caller in s.peers.open && FrontendExists(s.c.host)
    ensures var id := s.queue[0].id;
      var t := Step(s, OnLoop(RunBlock(auth, allow)));
      && |t.book| == |s.book| && t.queue == s.queue[1..]
      && t.book[id].ruling == Ruled(auth, allow, s.book[id].request.caller in s.peers.inFlight)
      && t.book[id].request == s.book[id].request
      && t.book[id].life == (if Askable(t.book[id].request, t.book[id].ruling) then Asking else Finished)
  {
    var r := s.book[s.queue[0].id].request;
    GateOutcome(r, auth, allow, r.caller in s.peers.inFlight);
  }

  /** At most one confirmation per caller is outstanding, and a caller the set
      turns away has one. */
  lemma OneConfirmationPerCaller(quiesceFirst: bool, acts: seq<Action>, i: int, j: int, caller: int)
    ensures var s := Run(Start(quiesceFirst), acts);
      && (Known(s, i) && Known(s, j) && Outstanding(s.book[i].life) && Outstanding(s.book[j].life) ==>
            s.book[i].request.caller == s.book[j].request.caller ==> i == j)
      && (caller in s.peers.inFlight && !s.c.quiesced && s.c.alive ==> Waits(s.book, caller))
  {
    ReachableInv(quiesceFirst, acts);
  }

  function IsReply(e: Event): bool {
    e.RepliedError? || e.RepliedByApply?
  }

  function Replies(h: seq<Event>): nat {
    if h == [] then 0 else (if IsReply(h[0]) then 1 else 0) + Replies(h[1..])
  }

  /** Every request read off a connection has one reply or an outstanding
      confirmation while the frontend lives and the loop is not quiesced; never
      two replies. */
  lemma ExactlyOneReply(quiesceFirst: bool, acts: seq<Action>, id: int)
    requires Known(Run(Start(quiesceFirst), acts), id)
    ensures var s := Run(Start(quiesceFirst), acts); var e := s.book[id];
      && Replies(e.history) == (if e.life == Finished then 1 else 0)
      && (s.c.alive && !s.c.quiesced ==>
            e.life == Waiting || e.life == Unread || e.life == Finished || Outstanding(e.life))
  {
    ReachableInv(quiesceFirst, acts);
    var s := Run(Start(quiesceFirst), acts);
    var e := s.book[id];
    assert HistoryOk(e) && LifeOk(s.c, id, e.life);
    CountReplies(e);
  }

  // ---- an answer reaches its reply -----------------------------------------

  lemma {:induction false} RunAppend(s: State, acts: seq<Action>, more: seq<Action>)
    ensures Run(s, acts + more) == Run(Run(s, acts), more)
    decreases |acts|
  {
    if acts == [] {
      assert acts + more == more;
    } else {
      assert (acts + more)[1..] == acts[1..] + more;
      RunAppend(Step(s, acts[0]), acts[1..], more);
    }
  }

  lemma RunOne(s: State, a: Action)
    ensures Run(s, [a]) == Step(s, a)
  {
    assert [a][1..] == [];
    assert Run(s, [a]) == Run(Step(s, a), []);
  }

  /** No teardown has begun, the loop is between two blocks and the mutex is free. */
  ghost predicate AtRest(s: State) {
    Inv(s) && s.c.host.Serving? && s.c.loop == Idle && s.c.mutex == NoOne
  }

  lemma RunFour(s: State, a: Action, b: Action, c: Action, d: Action)
    ensures Run(s, [a] + [b] + [c] + [d]) == Step(Step(Step(Step(s, a), b), c), d)
  {
    RunOne(s, a);
    RunOne(Step(s, a), b);
    RunOne(Step(Step(s, a), b), c);
    RunOne(Step(Step(Step(s, a), b), c), d);
    RunAppend(s, [a], [b]);
    RunAppend(s, [a] + [b], [c]);
    RunAppend(s, [a] + [b] + [c], [d]);
  }

  /** The loop in the continuation of request `id`, up to its unlock. */
  lemma {:induction false} ContinuationEnds(s: State, id: int) returns (t: State, acts: seq<Action>)
    requires Inv(s) && s.c.host.Serving? && s.c.mutex == NoOne && s.c.loop == AtMutex(id) && Known(s, id)
    ensures t == Run(s, acts) && AtRest(t) && t.queue == s.queue && |t.book| == |s.book|
    ensures t.book[id].life == Finished
  {
    RunFour(s, OnLoop(LoopLock), OnLoop(LoopCheck), OnLoop(LoopUse), OnLoop(LoopUnlock));
    acts := [OnLoop(LoopLock)] + [OnLoop(LoopCheck)] + [OnLoop(LoopUse)] + [OnLoop(LoopUnlock)];
    t := Run(s, acts);
    RunInv(s, acts);
  }

  /** The block at the head of the queue runs to its end. */
  lemma {:induction false} HeadRuns(s: State) returns (t: State, acts: seq<Action>)
    requires AtRest(s) && s.queue != []
    ensures t == Run(s, acts) && AtRest(t) && t.queue == s.queue[1..] && |t.book| == |s.book|
    ensures s.queue[0].Continuation? ==> Known(t, s.queue[0].id) && t.book[s.queue[0].id].life == Finished
  {
    var a := OnLoop(RunBlock(Denied, false));
    assert !IsSync(s.queue[0]);
    StepInv(s, a);
    RunOne(s, a);
    t, acts := Step(s, a), [a];
    if s.queue[0].Continuation? {
      var id := s.queue[0].id;
      assert LifeOk(s.c, id, s.book[id].life);
      var more;
      t, more := ContinuationEnds(Step(s, a), id);
      RunAppend(s, [a], more);
      acts := [a] + more;
    }
  }

  lemma {:induction false} QueueDrains(s: State, n: nat, id: int) returns (t: State, acts: seq<Action>)
    requires AtRest(s) && n < |s.queue| && s.queue[n] == Continuation(id)
    ensures t == Run(s, acts) && AtRest(t) && Known(t, id) && t.book[id].life == Finished
    decreases n
  {
    t, acts := HeadRuns(s);
    if n > 0 {
      assert t.queue[n - 1] == Continuation(id);
      var u, more := QueueDrains(t, n - 1, id);
      RunAppend(s, acts, more);
      t, acts := u, acts + more;
    }
  }

  /** The person's answer is taken as given. */
  lemma PersonIsHeard(s: State, id: int, ok: bool)
    requires Known(s, id) && s.book[id].life == Asking
    ensures var t := Step(s, OnWorker(PersonAnswers(id, ok)));
      && |t.book| == |s.book| && t.book[id].life == Answered(ok)
      && t.book[id].history == s.book[id].history + [WasAnswered(ok)]
  {
  }

  lemma {:induction false} WorkerLocks(s: State, id: int)
    requires s.c.alive && s.c.mutex == NoOne && Known(s, id) && s.book[id].life.Answered?
    ensures var t := Step(Step(s, OnWorker(WorkerLock(id))), OnWorker(WorkerCheck(id)));
      && t.c == s.c.(mutex := ByWorker(id)) && t.queue == s.queue && |t.book| == |s.book|
      && t.book[id].life.Cleared?
  {
  }

  lemma {:induction false} WorkerPosts(s: State, id: int)
    requires s.c.host.Serving? && s.c.mutex == ByWorker(id) && Known(s, id) && s.book[id].life.Cleared?
    ensures var t := Step(Step(s, OnWorker(WorkerPost(id))), OnWorker(WorkerUnlock));
      t.c == s.c.(mutex := NoOne) && t.queue == s.queue + [Continuation(id)]
  {
  }

  /** The worker hands the answer to the loop. */
  lemma {:induction false} WorkerHandsOver(s: State, id: int) returns (t: State, acts: seq<Action>)
    requires AtRest(s) && Known(s, id) && s.book[id].life.Answered?
    ensures t == Run(s, acts) && AtRest(t) && t.queue == s.queue + [Continuation(id)]
  {
    var a, b := OnWorker(WorkerLock(id)), OnWorker(WorkerCheck(id));
    var c, d := OnWorker(WorkerPost(id)), OnWorker(WorkerUnlock);
    WorkerLocks(s, id);
    WorkerPosts(Step(Step(s, a), b), id);
    RunFour(s, a, b, c, d);
    acts := [a] + [b] + [c] + [d];
    t := Run(s, acts);
    RunInv(s, acts);
  }

  /** An answered confirmation reaches its one reply, whatever is queued before it, as long
      as no teardown begins: the worker's and the loop's own steps are enough. */
  lemma {:induction false} AnswerReachesItsReply(s: State, id: int) returns (t: State, acts: seq<Action>)
    requires AtRest(s) && Known(s, id) && s.book[id].life.Answered?
    ensures t == Run(s, acts) && Known(t, id) && t.book[id].life == Finished && Replies(t.book[id].history) == 1
    ensures Applied in t.book[id].history <==> s.book[id].life.ok
  {
    var u, first := WorkerHandsOver(s, id);
    var more;
    t, more := QueueDrains(u, |s.queue|, id);
    RunAppend(s, first, more);
    acts := first + more;
    CountReplies(t.book[id]);
    HistoryOnlyGrows(s, acts, id);
    assert HistoryOk(s.book[id]) && HistoryOk(t.book[id]);
    assert t.book[id].history[3] == WasAnswered(s.book[id].life.ok);
  }

  /** The entry is for the same request, and what happened to it is not taken back. */
  predicate Grown(e: Entry, f: Entry) {
    f.request == e.request && e.history <= f.history
  }

  lemma StepGrows(s: State, a: Action, id: int)
    requires Known(s, id)
    ensures Known(Step(s, a), id) && Grown(s.book[id], Step(s, a).book[id])
  {
    match a
    case OnLoop(l) => LoopGrows(s, l, id);
    case OnWorker(w) => WorkerGrows(s, w, id);
    case OnHost(h) =>
    case OnPeer(p) =>
  }

  lemma {:induction false} WorkerGrows(s: State, a: WorkerAction, id: int)
    requires Known(s, id)
    ensures Known(WorkerStep(s, a), id) && Grown(s.book[id], WorkerStep(s, a).book[id])
  {
  }

  lemma LoopGrows(s: State, a: LoopAction, id: int)
    requires Known(s, id)
    ensures Known(LoopStep(s, a), id) && Grown(s.book[id], LoopStep(s, a).book[id])
  {
    if a.RunBlock? && s.c.loop == Idle && s.queue != [] {
      ExecuteGrows(s.(queue := s.queue[1..]), s.queue[0], a.auth, a.allow, id);
    }
  }

  lemma ExecuteGrows(s: State, b: Block, auth: Authorization, allow: bool, id: int)
    requires Known(s, id)
    ensures Known(Execute(s, b, auth, allow), id) && Grown(s.book[id], Execute(s, b, auth, allow).book[id])
  {
    match b
    case Read(k) => ReadGrows(s, k, auth, allow, id);
    case _ =>
  }

  lemma ReadGrows(s: State, k: int, auth: Authorization, allow: bool, id: int)
    requires Known(s, id)
    ensures Known(RunRead(s, k, auth, allow), id) && Grown(s.book[id], RunRead(s, k, auth, allow).book[id])
  {
  }

  /** What happened to a request is never taken back, and it stays that request. */
  lemma {:induction false} HistoryOnlyGrows(s: State, acts: seq<Action>, id: int)
    requires Known(s, id)
    ensures Known(Run(s, acts), id) && s.book[id].history <= Run(s, acts).book[id].history
    ensures Run(s, acts).book[id].request == s.book[id].request
    decreases |acts|
  {
    if acts != [] {
      StepGrows(s, acts[0], id);
      HistoryOnlyGrows(Step(s, acts[0]), acts[1..], id);
    }
  }

  lemma CountReplies(e: Entry)
    requires HistoryOk(e)
    ensures Replies(e.history) == (if e.life == Finished then 1 else 0)
  {
    var h := e.history;
    if h != [] {
      assert Replies(h) == (if IsReply(h[0]) then 1 else 0) + Replies(h[1..]);
      if |h| > 1 {
        assert Replies(h[1..]) == (if IsReply(h[1]) then 1 else 0) + Replies(h[1..][1..]);
        assert h[1..][1..] == h[2..];
        if |h| > 2 {
          assert Replies(h[2..]) == (if IsReply(h[2]) then 1 else 0) + Replies(h[2..][1..]);
          assert h[2..][1..] == h[3..];
          CountTail(e);
        }
      }
    }
  }

  lemma CountTail(e: Entry)
    requires HistoryOk(e) && |e.history| > 2
    ensures Replies(e.history[3..]) == if e.life == Finished && |e.history| > 3 then 1 else 0
  {
    var h := e.history;
    if |h| > 3 {
      assert Replies(h[3..]) == (if IsReply(h[3]) then 1 else 0) + Replies(h[3..][1..]);
      assert h[3..][1..] == h[4..];
      if |h| > 4 {
        assert Replies(h[4..]) == (if IsReply(h[4]) then 1 else 0) + Replies(h[4..][1..]);
        assert h[4..][1..] == h[5..];
        if |h| > 5 {
          assert h[5..] == [RepliedByApply];
          assert [RepliedByApply][1..] == [];
          assert Replies(h[5..]) == 1 + Replies([]);
        }
      }
    }
  }

  /** From the moment the guard is dead no trust change ever runs, whoever answers
      and whatever is still queued. */
  lemma {:induction false} NothingAppliedAfterDeath(s: State, acts: seq<Action>, id: int)
    requires Inv(s) && !s.c.alive && Known(s, id)
    ensures Known(Run(s, acts), id)
    ensures Applied in Run(s, acts).book[id].history ==> Applied in s.book[id].history
    decreases |acts|
  {
    if acts != [] {
      DeadStep(s, acts[0], id);
      StepInv(s, acts[0]);
      NothingAppliedAfterDeath(Step(s, acts[0]), acts[1..], id);
    }
  }

  ghost predicate NoNewChange(s: State, t: State, id: int) {
    && !t.c.alive && Known(s, id) && Known(t, id)
    && (Applied in t.book[id].history ==> Applied in s.book[id].history)
  }

  lemma DeadStep(s: State, a: Action, id: int)
    requires Inv(s) && !s.c.alive && Known(s, id)
    ensures NoNewChange(s, Step(s, a), id)
  {
    match a
    case OnLoop(l) => DeadLoop(s, l, id);
    case OnWorker(w) => DeadWorker(s, w, id);
    case OnHost(h) =>
    case OnPeer(p) =>
  }

  lemma DeadWorker(s: State, a: WorkerAction, id: int)
    requires !s.c.alive && Known(s, id)
    ensures NoNewChange(s, WorkerStep(s, a), id)
  {
  }

  lemma DeadLoop(s: State, a: LoopAction, id: int)
    requires HostOk(s.c) && !s.c.alive && Known(s, id)
    ensures NoNewChange(s, LoopStep(s, a), id)
  {
    if a.RunBlock? && s.queue != [] {
      DeadExecute(s.(queue := s.queue[1..]), s.queue[0], a.auth, a.allow, id);
    }
  }

  lemma DeadRead(s: State, k: int, auth: Authorization, allow: bool, id: int)
    requires !s.c.alive && Known(s, id)
    ensures NoNewChange(s, RunRead(s, k, auth, allow), id)
  {
    if Known(s, k) {
      var r := s.book[k].request;
      GateOutcome(r, auth, allow, r.caller in s.peers.inFlight);
    }
  }

  lemma DeadExecute(s: State, b: Block, auth: Authorization, allow: bool, id: int)
    requires !s.c.alive && Known(s, id)
    ensures NoNewChange(s, Execute(s, b, auth, allow), id)
  {
    match b
    case Read(k) => DeadRead(s, k, auth, allow, id);
    case _ =>
  }

  // ---- the set of callers with a confirmation in flight ----------------------

  /** A caller is in the set only while it is connected or its disconnect is still to run. */
  predicate Tracked(s: State, caller: int) {
    caller in s.peers.inFlight && !s.c.quiesced && FrontendExists(s.c.host) ==>
      caller in s.peers.open || Disconnect(caller) in s.queue
  }

  lemma {:induction false} ReadTracks(s: State, id: int, auth: Authorization, allow: bool, caller: int)
    requires Tracked(s, caller)
    ensures Tracked(RunRead(s, id, auth, allow), caller)
  {
  }

  lemma {:induction false} ExecuteTracks(s: State, b: Block, auth: Authorization, allow: bool, caller: int)
    requires (IsSync(b) ==> Awaited(b, s.c.host)) && (Tracked(s, caller) || b == Disconnect(caller))
    ensures Tracked(Execute(s, b, auth, allow), caller)
  {
    if b.Read? {
      ReadTracks(s, b.id, auth, allow, caller);
    }
  }

  lemma {:induction false} BlockTracks(s: State, auth: Authorization, allow: bool, caller: int)
    requires SyncOk(s.queue, s.c.host) && Tracked(s, caller)
    ensures Tracked(LoopStep(s, RunBlock(auth, allow)), caller)
  {
    if s.c.loop == Idle && s.queue != [] {
      var rest := s.(queue := s.queue[1..]);
      assert s.queue == [s.queue[0]] + rest.queue;
      assert Disconnect(caller) in s.queue ==> s.queue[0] == Disconnect(caller) || Disconnect(caller) in rest.queue;
      ExecuteTracks(rest, s.queue[0], auth, allow, caller);
    }
  }

  lemma {:induction false} PeerTracks(s: State, a: PeerAction, caller: int)
    requires Tracked(s, caller)
    ensures Tracked(PeerStep(s, a), caller)
  {
    var t := PeerStep(s, a);
    assert s.queue <= t.queue;
    assert Disconnect(caller) in s.queue ==> Disconnect(caller) in t.queue;
    if a.CloseConnection? && t.queue != s.queue {
      assert t.queue[|s.queue|] == Disconnect(a.caller);
    }
  }

  lemma {:induction false} StepTracks(s: State, a: Action, caller: int)
    requires Inv(s) && Tracked(s, caller)
    ensures Tracked(Step(s, a), caller)
  {
    var t := Step(s, a);
    if a.OnLoop? && a.l.RunBlock? {
      BlockTracks(s, a.l.auth, a.l.allow, caller);
    } else if a.OnPeer? {
      PeerTracks(s, a.p, caller);
    } else {
      assert s.queue <= t.queue && Disconnect(caller) in s.queue ==> Disconnect(caller) in t.queue;
    }
  }

  lemma {:induction false} RunTracks(s: State, acts: seq<Action>, caller: int)
    requires Inv(s) && Tracked(s, caller)
    ensures Tracked(Run(s, acts), caller)
    decreases |acts|
  {
    if acts != [] {
      StepTracks(s, acts[0], caller);
      StepInv(s, acts[0]);
      RunTracks(Step(s, acts[0]), acts[1..], caller);
    }
  }

  /** In every run, until the frontend is quiesced or gone, no caller that left stays in the
      set once its disconnect has run. */
  lemma {:induction false} NobodyLeftInFlight(quiesceFirst: bool, acts: seq<Action>, caller: int)
    ensures var s := Run(Start(quiesceFirst), acts);
      caller in s.peers.inFlight && !s.c.quiesced && FrontendExists(s.c.host) ==>
        caller in s.peers.open || Disconnect(caller) in s.queue
  {
    RunTracks(Start(quiesceFirst), acts, caller);
  }

  lemma {:induction false} FirstRequestIsAsked(s0: State, r: Request)
    requires s0.c.host.Serving? && s0.c.loop == Idle && !s0.c.quiesced && s0.queue == [] && s0.book == []
    requires s0.peers == Peers({}, 0, {}) && r.caller == 0 && Describable(r)
    ensures var s := Step(Step(Step(s0, OnPeer(Connect)), OnPeer(Arrive(r))), OnLoop(RunBlock(Granted, true)));
      && |s.book| == 1 && s.book[0].life == Asking && s.book[0].request == r && s.c == s0.c && s.queue == []
  {
    var s1 := Step(s0, OnPeer(Connect));
    var s2 := Step(s1, OnPeer(Arrive(r)));
    assert s2.queue == [Read(0)] && s2.book == [Entry(r, Waiting, [], Unruled)];
    GateOutcome(r, Granted, true, false);
  }

  /** A change a person can be asked about does happen: a client connects and asks for it, the
      authoriser and the limiter let it pass, the person says yes. */
  lemma {:induction false} TrustChangeHappens(quiesceFirst: bool, r: Request) returns (acts: seq<Action>)
    requires r.caller == 0 && Describable(r)
    ensures var s := Run(Start(quiesceFirst), acts);
      Known(s, 0) && s.book[0].request == r && Applied in s.book[0].history
  {
    var a, b := OnPeer(Connect), OnPeer(Arrive(r));
    var c, d := OnLoop(RunBlock(Granted, true)), OnWorker(PersonAnswers(0, true));
    var s0 := Start(quiesceFirst);
    FirstRequestIsAsked(s0, r);
    PersonIsHeard(Step(Step(Step(s0, a), b), c), 0, true);
    RunFour(s0, a, b, c, d);
    var first := [a] + [b] + [c] + [d];
    RunInv(s0, first);
    var s := Run(s0, first);
    assert AtRest(s) && s.book[0].life == Answered(true) && s.book[0].request == r;
    var t, more := AnswerReachesItsReply(s, 0);
    RunAppend(s0, first, more);
    acts := first + more;
    HistoryOnlyGrows(s, more, 0);
  }
}
