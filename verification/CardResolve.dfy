/**
 The deferred card resolve: a card the monitor sees is probed on its reader's
 worker and published only when the answer comes back to the loop, while the card
 may be withdrawn at any moment. The monitor thread, the workers, the delays and
 the loop interleave freely; the loop alone runs blocks, in the order posted.
 */
module CardResolve {
  import opened Presence
  import opened Roster

  /** A card and the reader it was inserted in, as a continuation captures it. */
  datatype Inserted = Inserted(card: int, reader: int)

  datatype Block =
    | Arrived(what: Inserted)
    | Left(card: int)
    | Answered(what: Inserted, refused: bool, cardType: string, caps: Blob)
    | AskAgain(what: Inserted)
    | Other(op: Op)

  /** Cards present, and every insertion so far with its reader: once as the monitor
      knows it, once as far as the loop has got. */
  datatype Sight = Sight(live: map<int, int>, host: map<int, int>)

  /** What waits outside the loop's queue. */
  datatype Away = Away(probes: seq<Inserted>, delays: seq<Inserted>)

  /** The frontend's pending cards, the directory, and the cards `publishCard` was
      called for, in order. */
  datatype Front = Front(pending: map<int, int>, dir: Dir, log: seq<int>)

  datatype State = State(monitor: Sight, queue: seq<Block>, away: Away, front: Front, past: Sight)

  datatype Action =
    | Insert(what: Inserted)
    | Remove(card: int)
    | Post(op: Op)
    | ProbeEnds(i: nat, refused: bool, cardType: string, caps: Blob)
    | ProbeLost(i: nat)
    | DelayEnds(i: nat)
    | RunLoop(accepted: bool, wait: bool)

  const START := State(Sight(map[], map[]), [], Away([], []), Front(map[], EMPTY, []), Sight(map[], map[]))

  // ---- steps ------------------------------------------------------------------------

  function See(s: Sight, b: Block): Sight {
    match b
    case Arrived(w) => Sight(s.live[w.card := w.reader], s.host[w.card := w.reader])
    case Left(c) => s.(live := s.live - {c})
    case Answered(_, _, _, _) => s
    case AskAgain(_) => s
    case Other(_) => s
  }

  /** The monitor's rule: ids are fresh, and a reader holds one card at a time. */
  predicate MayArrive(s: Sight, w: Inserted) {
    w.card !in s.host && forall c | c in s.live :: s.live[c] != w.reader
  }

  function Without(s: seq<Inserted>, i: nat): seq<Inserted>
    requires i < |s|
  {
    s[..i] + s[i + 1..]
  }

  /** `scheduleCardResolve`: the worker takes the probe, or its queue is full and the
      loop asks again after a delay. */
  function Schedule(s: State, w: Inserted, accepted: bool): State {
    s.(front := s.front.(pending := s.front.pending[w.card := w.reader]),
       away := if accepted then s.away.(probes := s.away.probes + [w]) else s.away.(delays := s.away.delays + [w]))
  }

  /** `applyCardResolution` */
  function Resolve(s: State, w: Inserted, again: bool, cardType: string, caps: Blob): State {
    if w.card !in s.front.pending then s
    else if again then s.(away := s.away.(delays := s.away.delays + [w]))
    else s.(front := Front(s.front.pending - {w.card},
                           DoPublishCard(s.front.dir, w.card, w.reader, cardType, caps),
                           s.front.log + [w.card]))
  }

  function RunBlock(s: State, b: Block, accepted: bool, wait: bool): State {
    match b
    case Arrived(w) => Schedule(s.(past := See(s.past, b)), w, accepted)
    case Left(c) =>
      s.(past := See(s.past, b),
         front := Front(s.front.pending - {c}, DoWithdraw(s.front.dir, CardId(c)), s.front.log))
    case Answered(w, refused, t, caps) => Resolve(s, w, refused && wait, t, caps)
    case AskAgain(w) => if w.card in s.front.pending then Schedule(s, w, accepted) else s
    case Other(op) => s.(front := s.front.(dir := Do(s.front.dir, op)))
  }

  function Posted(s: State, b: Block): State {
    s.(queue := s.queue + [b])
  }

  /** One step; an action that is not enabled changes nothing. */
  function Step(s: State, a: Action): State {
    match a
    case Insert(w) =>
      if MayArrive(s.monitor, w) then Posted(s.(monitor := See(s.monitor, Arrived(w))), Arrived(w)) else s
    case Remove(c) =>
      if c in s.monitor.live then Posted(s.(monitor := See(s.monitor, Left(c))), Left(c)) else s
    case Post(op) => if SparesCards(op) then Posted(s, Other(op)) else s
    case ProbeEnds(i, refused, t, caps) =>
      if i < |s.away.probes| then
        Posted(s.(away := s.away.(probes := Without(s.away.probes, i))), Answered(s.away.probes[i], refused, t, caps))
      else s
    case ProbeLost(i) =>
      if i < |s.away.probes| then s.(away := s.away.(probes := Without(s.away.probes, i))) else s
    case DelayEnds(i) =>
      if i < |s.away.delays| then
        Posted(s.(away := s.away.(delays := Without(s.away.delays, i))), AskAgain(s.away.delays[i]))
      else s
    case RunLoop(accepted, wait) =>
      if s.queue == [] then s else RunBlock(s.(queue := s.queue[1..]), s.queue[0], accepted, wait)
  }

  function Run(s: State, acts: seq<Action>): State
    decreases |acts|
  {
    if acts == [] then s else Run(Step(s, acts[0]), acts[1..])
  }

  // ---- the invariant ------------------------------------------------------------------

  ghost predicate SightOk(s: Sight) {
    && (forall c | c in s.live :: c in s.host && s.host[c] == s.live[c])
    && (forall c, e | c in s.live && e in s.live && s.live[c] == s.live[e] :: c == e)
  }

  /** A continuation carries the reader its card was inserted in. */
  predicate Known(s: Sight, w: Inserted) {
    w.card in s.host && s.host[w.card] == w.reader
  }

  predicate BlockOk(s: Sight, b: Block) {
    match b
    case Arrived(w) => MayArrive(s, w)
    case Left(_) => true
    case Answered(w, _, _, _) => Known(s, w)
    case AskAgain(w) => Known(s, w)
    case Other(op) => SparesCards(op)
  }

  /** The queue, read from what the loop has seen, is a history the monitor's rule
      allows, and ends in what the monitor sees. */
  ghost predicate QueueOk(past: Sight, q: seq<Block>, now: Sight)
    decreases |q|
  {
    if q == [] then past == now else BlockOk(past, q[0]) && QueueOk(See(past, q[0]), q[1..], now)
  }

  ghost predicate AllKnown(s: Sight, ws: seq<Inserted>) {
    forall i | 0 <= i < |ws| :: Known(s, ws[i])
  }

  ghost predicate AwayOk(past: Sight, away: Away) {
    AllKnown(past, away.probes) && AllKnown(past, away.delays)
  }

  /** Every card the loop has seen arrive and not leave is either pending or
      published, never both, and nothing else is. */
  ghost predicate FrontOk(f: Front, past: Sight) {
    && DirOk(f.dir)
    && (forall c | c in f.pending :: c in past.live && past.live[c] == f.pending[c] && c !in f.log)
    && (forall c | c in past.live :: c in f.pending || c in f.log)
    && (forall c | c in f.log :: c in past.host)
    && (forall i, j | 0 <= i < j < |f.log| :: f.log[i] != f.log[j])
    && (forall c, r :: Published(f.dir, c, r) <==> c in f.log && c in past.live && past.live[c] == r)
  }

  ghost predicate Inv(s: State) {
    SightOk(s.past) && QueueOk(s.past, s.queue, s.monitor) && AwayOk(s.past, s.away) && FrontOk(s.front, s.past)
  }

  // ---- the queue -------------------------------------------------------------------------

  lemma {:induction false} PostOk(past: Sight, q: seq<Block>, now: Sight, b: Block)
    requires QueueOk(past, q, now) && BlockOk(now, b)
    ensures QueueOk(past, q + [b], See(now, b))
    decreases |q|
  {
    if q == [] {
      assert q + [b] == [b];
      assert [b][1..] == [];
      assert QueueOk(See(past, b), [], See(now, b));
    } else {
      assert (q + [b])[1..] == q[1..] + [b];
      PostOk(See(past, q[0]), q[1..], now, b);
    }
  }

  /** Insertions are never forgotten, so what a continuation knows stays known. */
  lemma {:induction false} KnownLater(past: Sight, q: seq<Block>, now: Sight, w: Inserted)
    requires QueueOk(past, q, now) && Known(past, w)
    ensures Known(now, w)
    decreases |q|
  {
    if q != [] {
      KnownLater(See(past, q[0]), q[1..], now, w);
    }
  }

  lemma SeeOk(s: Sight, b: Block)
    requires SightOk(s) && BlockOk(s, b)
    ensures SightOk(See(s, b))
    ensures forall w | Known(s, w) :: Known(See(s, b), w)
  {
  }

  lemma SeeAway(s: Sight, b: Block, away: Away)
    requires SightOk(s) && BlockOk(s, b) && AwayOk(s, away)
    ensures AwayOk(See(s, b), away)
  {
  }

  lemma WithoutKnown(s: Sight, ws: seq<Inserted>, i: nat)
    requires AllKnown(s, ws) && i < |ws|
    ensures AllKnown(s, Without(ws, i)) && Known(s, ws[i])
  {
  }

  // ---- the loop's blocks ----------------------------------------------------------------

  lemma FrontArrived(f: Front, past: Sight, w: Inserted)
    requires FrontOk(f, past) && MayArrive(past, w) && SightOk(past)
    ensures FrontOk(f.(pending := f.pending[w.card := w.reader]), See(past, Arrived(w)))
  {
  }

  lemma FrontLeft(f: Front, past: Sight, c: int)
    requires FrontOk(f, past)
    ensures FrontOk(Front(f.pending - {c}, DoWithdraw(f.dir, CardId(c)), f.log), See(past, Left(c)))
  {
    var d := DoWithdraw(f.dir, CardId(c));
    WithdrawOk(f.dir, CardId(c));
    forall x, r
      ensures Published(d, x, r) <==> x in f.log && x in past.live && x != c && past.live[x] == r
    {
      WithdrawRemoves(f.dir, CardId(c), x, r);
    }
  }

  lemma FrontResolved(f: Front, past: Sight, w: Inserted, cardType: string, caps: Blob)
    requires FrontOk(f, past) && SightOk(past) && Known(past, w) && w.card in f.pending
    ensures FrontOk(Front(f.pending - {w.card}, DoPublishCard(f.dir, w.card, w.reader, cardType, caps),
                          f.log + [w.card]), past)
  {
    var d := DoPublishCard(f.dir, w.card, w.reader, cardType, caps);
    var log := f.log + [w.card];
    PublishCardOk(f.dir, w.card, w.reader, cardType, caps);
    forall c, r
      ensures Published(d, c, r) <==> c in log && c in past.live && past.live[c] == r
    {
      PublishCardAdds(f.dir, w.card, w.reader, cardType, caps, c, r);
    }
  }

  lemma FrontOther(f: Front, past: Sight, op: Op)
    requires FrontOk(f, past) && SparesCards(op)
    ensures FrontOk(f.(dir := Do(f.dir, op)), past)
  {
    var d := Do(f.dir, op);
    DoOk(f.dir, op);
    forall c, r
      ensures Published(d, c, r) <==> c in f.log && c in past.live && past.live[c] == r
    {
      OthersKeep(f.dir, op, c, r);
    }
  }

  lemma RunBlockInv(s: State, b: Block, accepted: bool, wait: bool)
    requires SightOk(s.past) && AwayOk(s.past, s.away) && FrontOk(s.front, s.past)
    requires BlockOk(s.past, b) && QueueOk(See(s.past, b), s.queue, s.monitor)
    ensures Inv(RunBlock(s, b, accepted, wait))
  {
    SeeOk(s.past, b);
    SeeAway(s.past, b, s.away);
    match b
    case Arrived(w) => FrontArrived(s.front, s.past, w);
    case Left(c) => FrontLeft(s.front, s.past, c);
    case Answered(w, refused, t, caps) =>
      if w.card in s.front.pending && !(refused && wait) {
        FrontResolved(s.front, s.past, w, t, caps);
      }
    case AskAgain(w) =>
      if w.card in s.front.pending {
        assert s.front.pending[w.card := w.reader] == s.front.pending;
      }
    case Other(op) => FrontOther(s.front, s.past, op);
  }

  lemma StepInv(s: State, a: Action)
    requires Inv(s)
    ensures Inv(Step(s, a))
  {
    match a
    case Insert(w) => if MayArrive(s.monitor, w) { PostOk(s.past, s.queue, s.monitor, Arrived(w)); }
    case Remove(c) => PostOk(s.past, s.queue, s.monitor, Left(c));
    case Post(op) => if SparesCards(op) { PostOk(s.past, s.queue, s.monitor, Other(op)); }
    case ProbeEnds(i, refused, t, caps) =>
      if i < |s.away.probes| {
        WithoutKnown(s.past, s.away.probes, i);
        KnownLater(s.past, s.queue, s.monitor, s.away.probes[i]);
        PostOk(s.past, s.queue, s.monitor, Answered(s.away.probes[i], refused, t, caps));
      }
    case ProbeLost(i) => if i < |s.away.probes| { WithoutKnown(s.past, s.away.probes, i); }
    case DelayEnds(i) =>
      if i < |s.away.delays| {
        WithoutKnown(s.past, s.away.delays, i);
        KnownLater(s.past, s.queue, s.monitor, s.away.delays[i]);
        PostOk(s.past, s.queue, s.monitor, AskAgain(s.away.delays[i]));
      }
    case RunLoop(accepted, wait) =>
      if s.queue != [] { RunBlockInv(s.(queue := s.queue[1..]), s.queue[0], accepted, wait); }
  }

  lemma {:induction false} RunInv(s: State, acts: seq<Action>)
    requires Inv(s)
    ensures Inv(Run(s, acts))
    decreases |acts|
  {
    if acts != [] {
      StepInv(s, acts[0]);
      RunInv(Step(s, acts[0]), acts[1..]);
    }
  }

  // ---- the promises ------------------------------------------------------------------------

  /** In every run, a card is published exactly while the loop has published it and
      not yet seen it leave, and at most one published card names any reader. */
  lemma OneCardPerReader(acts: seq<Action>)
    ensures var s := Run(START, acts);
            DirOk(s.front.dir) && OneCardEach(s.front.dir)
  {
    RunInv(START, acts);
  }

  /** At the handles: of the published card objects at most one names a reader
      object, so the roster's first match is its only match. */
  lemma FirstMatchIsOnlyMatch(acts: seq<Action>, x: Handle, y: Handle)
    ensures var cards := Run(START, acts).front.dir.shelf.cards;
            x in cards && y in cards && cards[x].reader == cards[y].reader ==> x == y
  {
    var d := Run(START, acts).front.dir;
    OneCardPerReader(acts);
    if x in d.shelf.cards && y in d.shelf.cards && d.shelf.cards[x].reader == d.shelf.cards[y].reader {
      OneNames(d, x, y);
    }
  }

  /** No insertion is published twice. */
  lemma PublishedOnce(acts: seq<Action>, i: int, j: int)
    ensures var log := Run(START, acts).front.log;
            0 <= i < j < |log| ==> log[i] != log[j]
  {
    RunInv(START, acts);
  }

  /** The loop has run this card's withdrawal. */
  predicate Withdrawn(s: State, c: int) {
    c in s.past.host && c !in s.past.live
  }

  lemma StepStaysWithdrawn(s: State, a: Action, c: int)
    requires Inv(s) && Withdrawn(s, c)
    ensures Withdrawn(Step(s, a), c)
    ensures forall i | |s.front.log| <= i < |Step(s, a).front.log| :: Step(s, a).front.log[i] != c
    ensures |s.front.log| <= |Step(s, a).front.log|
  {
  }

  /** A card withdrawn is never published afterwards: it is in no later directory, and
      no later call of `publishCard` is for it. */
  lemma {:induction false} WithdrawnNeverPublished(s: State, acts: seq<Action>, c: int, r: int)
    requires Inv(s) && Withdrawn(s, c)
    ensures Withdrawn(Run(s, acts), c) && !Published(Run(s, acts).front.dir, c, r)
    ensures |s.front.log| <= |Run(s, acts).front.log|
    ensures forall i | |s.front.log| <= i < |Run(s, acts).front.log| :: Run(s, acts).front.log[i] != c
    decreases |acts|
  {
    if acts != [] {
      StepStaysWithdrawn(s, acts[0], c);
      StepInv(s, acts[0]);
      WithdrawnNeverPublished(Step(s, acts[0]), acts[1..], c, r);
      RunLog(Step(s, acts[0]), acts[1..]);
    }
  }

  lemma {:induction false} RunLog(s: State, acts: seq<Action>)
    ensures s.front.log <= Run(s, acts).front.log
    decreases |acts|
  {
    if acts != [] {
      RunLog(Step(s, acts[0]), acts[1..]);
    }
  }

  /** No card is lost or left over: once the loop has caught up, the cards present
      are exactly those published and those still pending, each on one side only. */
  lemma NothingLost(acts: seq<Action>, c: int, r: int)
    ensures var s := Run(START, acts);
            s.queue == [] ==>
              && (c in s.monitor.live && s.monitor.live[c] == r
                  <==> Published(s.front.dir, c, r) || (c in s.front.pending && s.front.pending[c] == r))
              && !(Published(s.front.dir, c, r) && c in s.front.pending)
  {
    RunInv(START, acts);
  }

  // ---- every pending card is on its way ------------------------------------------------------

  predicate Asked(ws: seq<Inserted>, c: int) {
    exists i | 0 <= i < |ws| :: ws[i].card == c
  }

  predicate Resumes(b: Block, c: int) {
    match b
    case Answered(w, _, _, _) => w.card == c
    case AskAgain(w) => w.card == c
    case Arrived(_) => false
    case Left(_) => false
    case Other(_) => false
  }

  predicate Queued(q: seq<Block>, c: int) {
    exists i | 0 <= i < |q| :: Resumes(q[i], c)
  }

  /** A probe of the card is out, a delay for it is running, or the loop will hear of one. */
  predicate OnItsWay(s: State, c: int) {
    Asked(s.away.probes, c) || Asked(s.away.delays, c) || Queued(s.queue, c)
  }

  /** The card whose probe this step loses: its worker went away without an answer. */
  predicate Loses(s: State, a: Action, c: int) {
    a.ProbeLost? && a.i < |s.away.probes| && s.away.probes[a.i].card == c
  }

  /** Some step of the run loses the card's probe. */
  predicate LostIn(s: State, acts: seq<Action>, c: int)
    decreases |acts|
  {
    acts != [] && (Loses(s, acts[0], c) || LostIn(Step(s, acts[0]), acts[1..], c))
  }

  lemma AskedMore(ws: seq<Inserted>, w: Inserted, c: int)
    ensures Asked(ws + [w], c) <==> Asked(ws, c) || w.card == c
  {
    var ms := ws + [w];
    assert ms[|ws|] == w;
    if Asked(ws, c) {
      var i :| 0 <= i < |ws| && ws[i].card == c;
      assert ms[i].card == c;
    }
  }

  lemma AskedWithout(ws: seq<Inserted>, i: nat, c: int)
    requires i < |ws|
    ensures Asked(ws, c) ==> Asked(Without(ws, i), c) || ws[i].card == c
  {
    if Asked(ws, c) {
      var j :| 0 <= j < |ws| && ws[j].card == c;
      if j != i {
        assert Without(ws, i)[if j < i then j else j - 1].card == c;
      }
    }
  }

  lemma QueuedMore(q: seq<Block>, b: Block, c: int)
    ensures Queued(q + [b], c) <==> Queued(q, c) || Resumes(b, c)
  {
    var r := q + [b];
    assert r[|q|] == b;
    if Queued(q, c) {
      var i :| 0 <= i < |q| && Resumes(q[i], c);
      assert Resumes(r[i], c);
    }
  }

  lemma QueuedRest(q: seq<Block>, c: int)
    requires q != []
    ensures Queued(q, c) ==> Resumes(q[0], c) || Queued(q[1..], c)
  {
    if Queued(q, c) {
      var i :| 0 <= i < |q| && Resumes(q[i], c);
      assert i > 0 ==> Resumes(q[1..][i - 1], c);
    }
  }

  /** A block that was `c`'s turn leaves it resolved, or asked again. */
  lemma BlockOnItsWay(s: State, b: Block, accepted: bool, wait: bool, c: int)
    requires c in RunBlock(s, b, accepted, wait).front.pending
    requires c in s.front.pending ==> Resumes(b, c) || OnItsWay(s, c)
    ensures OnItsWay(RunBlock(s, b, accepted, wait), c)
  {
    if b.Arrived? || b.Answered? || b.AskAgain? {
      AskedMore(s.away.probes, b.what, c);
      AskedMore(s.away.delays, b.what, c);
    }
  }

  lemma StepOnItsWay(s: State, a: Action, c: int)
    requires (c in s.front.pending ==> OnItsWay(s, c)) && !Loses(s, a, c) && c in Step(s, a).front.pending
    ensures OnItsWay(Step(s, a), c)
  {
    match a
    case Insert(w) => QueuedMore(s.queue, Arrived(w), c);
    case Remove(x) => QueuedMore(s.queue, Left(x), c);
    case Post(op) => QueuedMore(s.queue, Other(op), c);
    case ProbeEnds(i, refused, t, caps) =>
      if i < |s.away.probes| {
        AskedWithout(s.away.probes, i, c);
        QueuedMore(s.queue, Answered(s.away.probes[i], refused, t, caps), c);
      }
    case DelayEnds(i) =>
      if i < |s.away.delays| {
        AskedWithout(s.away.delays, i, c);
        QueuedMore(s.queue, AskAgain(s.away.delays[i]), c);
      }
    case ProbeLost(i) => if i < |s.away.probes| { AskedWithout(s.away.probes, i, c); }
    case RunLoop(accepted, wait) =>
      if s.queue != [] {
        QueuedRest(s.queue, c);
        BlockOnItsWay(s.(queue := s.queue[1..]), s.queue[0], accepted, wait, c);
      }
  }

  lemma {:induction false} RunOnItsWay(s: State, acts: seq<Action>, c: int)
    requires (c in s.front.pending ==> OnItsWay(s, c)) && !LostIn(s, acts, c)
    ensures c in Run(s, acts).front.pending ==> OnItsWay(Run(s, acts), c)
    decreases |acts|
  {
    if acts != [] {
      if c in Step(s, acts[0]).front.pending {
        StepOnItsWay(s, acts[0], c);
      }
      RunOnItsWay(Step(s, acts[0]), acts[1..], c);
    }
  }

  /** In every run no pending card is forgotten, unless the run lost its probe: a probe is
      out, a delay for it is running, or an answer or a new asking is queued. */
  lemma {:induction false} NoPendingCardForgotten(acts: seq<Action>, c: int)
    ensures var s := Run(START, acts);
            c in s.front.pending && !LostIn(START, acts, c) ==>
              Asked(s.away.probes, c) || Asked(s.away.delays, c) || Queued(s.queue, c)
  {
    if !LostIn(START, acts, c) {
      RunOnItsWay(START, acts, c);
    }
  }

  /** What an answer does to a card still pending: published, named by its reader, unless
      the reader was refused and there is still time to wait; then it is asked again later. */
  lemma AnswerResolves(s: State, w: Inserted, refused: bool, cardType: string, caps: Blob, accepted: bool, wait: bool)
    requires Inv(s) && s.queue != [] && s.queue[0] == Answered(w, refused, cardType, caps)
    ensures var t := Step(s, RunLoop(accepted, wait));
            && (w.card !in s.front.pending ==> t.front == s.front && t.away == s.away)
            && (w.card in s.front.pending && refused && wait ==>
                  t.front == s.front && t.away.probes == s.away.probes && t.away.delays == s.away.delays + [w])
            && (w.card in s.front.pending && !(refused && wait) ==>
                  && w.card !in t.front.pending && Published(t.front.dir, w.card, w.reader)
                  && t.front.log == s.front.log + [w.card] && t.away == s.away)
  {
    if w.card in s.front.pending && !(refused && wait) {
      var f := s.front;
      PublishCardAdds(f.dir, w.card, w.reader, cardType, caps, w.card, w.reader);
    }
  }

  /** With the loop idle, a card inserted and probed comes to be published for its reader. */
  lemma InsertedIsPublished(s: State, w: Inserted, cardType: string, caps: Blob)
    requires Inv(s) && s.queue == [] && s.away.probes == [] && MayArrive(s.monitor, w)
    ensures var t := Step(Step(s, Insert(w)), RunLoop(true, false));
            var u := Step(Step(t, ProbeEnds(0, false, cardType, caps)), RunLoop(true, false));
            && w.card in t.front.pending && t.away.probes == [w]
            && Published(u.front.dir, w.card, w.reader) && w.card !in u.front.pending && u.queue == []
  {
    var a := Step(s, Insert(w));
    StepInv(s, Insert(w));
    var t := Step(a, RunLoop(true, false));
    StepInv(a, RunLoop(true, false));
    assert a.queue == [Arrived(w)] && t.queue == [];
    var b := Step(t, ProbeEnds(0, false, cardType, caps));
    StepInv(t, ProbeEnds(0, false, cardType, caps));
    assert t.away.probes == [w] && b.queue == [Answered(w, false, cardType, caps)];
    AnswerResolves(b, w, false, cardType, caps, true, false);
  }

  /** A card taken out is neither pending nor published once the loop has heard of it, and
      any other operation posted is done to the directory. */
  lemma RemovedIsWithdrawn(s: State, c: int, r: int, op: Op)
    requires Inv(s) && s.queue == []
    ensures c in s.monitor.live ==>
              var t := Step(Step(s, Remove(c)), RunLoop(true, false));
              t.queue == [] && c !in t.front.pending && !Published(t.front.dir, c, r)
    ensures SparesCards(op) ==>
              Step(Step(s, Post(op)), RunLoop(true, false)).front.dir == Do(s.front.dir, op)
  {
    if c in s.monitor.live {
      var a := Step(s, Remove(c));
      assert a.queue == [Left(c)];
      WithdrawRemoves(s.front.dir, CardId(c), c, r);
    }
    if SparesCards(op) {
      var b := Step(s, Post(op));
      assert b.queue == [Other(op)];
    }
  }
}
