/**
 The prompter's connections: one request each, dispatched once, answered by at most one
 reply block on a worker, over a descriptor that its holders share and that closes with
 the last share.
 */
module PrompterDispatch {
  import opened Wrappers
  import opened PrompterCodec

  type Parsed = Result<Request, ParseError>

  /** What the reassembler hands over: nothing yet, the end of the stream or a broken
      frame, or a frame by what its body decodes to. */
  datatype Pumped = Nothing | Ended | Frame(body: Option<Cbor>)

  /** What a reply block sends, and whether it asks the person first. */
  datatype Answer = AskSecret | AskPair | AskConfirm | RefuseConfirm | SweepWindows | RefuseVersion

  /** The holders of the descriptor: the registry's entry, the read source's cancel
      handler until it has run, and the queued reply block. */
  datatype Shares = Shares(registry: bool, handler: bool, reply: bool)

  /** `read` and `parsed` are what the request came to, `answer` the reply block's job;
      `dispatches`, `attempts`, `closes` and `strays` count dispatches, reply attempts,
      closes of the descriptor, and uses of it after a close. */
  datatype Conn = Conn(shares: Shares, reading: bool, parsed: Option<Parsed>, answer: Option<Answer>,
                       dispatches: int, attempts: int, closes: int, strays: int)

  /** A question put to the person, and the connection it is for. */
  datatype Question = Question(id: int, answer: Answer)

  /** Every connection an authorised peer ever made, the refusals of other peers, the
      windows dismissed and the questions put to the person, in order, and the connections
      in the order they were dispatched. */
  datatype State = State(conns: map<int, Conn>, next: int, refusals: int, dismissed: seq<string>,
                         asked: seq<Question>, order: seq<int>)

  datatype Action =
    | Accept(authorised: bool)
    | ReadReady(id: int, pumped: Pumped)
    | HandlerRuns(id: int)
    | ReplyRuns(id: int)
    | Stop

  const START := State(map[], 1, 0, [], [], [])
  const NEW_CONN := Conn(Shares(true, true, false), true, None, None, 0, 0, 0, 0)

  // ---- steps -----------------------------------------------------------------------------------

  /** The reply a request is due: none for a cancel and for what cannot be parsed, unless
      it announced a newer protocol. */
  function Due(p: Parsed): Option<Answer> {
    match p
    case Err(e) => if e == UnsupportedVersion then Some(RefuseVersion) else None
    case Ok(r) =>
      (match r
       case RequestSecret(_, _, _, _, _, _, _, _, _) => Some(AskSecret)
       case CancelCurrent(_) => None
       case RequestSecrets(_, _, _, _, _, _, _, _) => Some(AskPair)
       case ConfirmAction(flow, _, _) => Some(if flow == "configure_trust" then AskConfirm else RefuseConfirm)
       case Reset => Some(SweepWindows))
  }

  predicate Asks(a: Answer) {
    a.AskSecret? || a.AskPair? || a.AskConfirm?
  }

  predicate Open(s: Shares) {
    s.registry || s.handler || s.reply
  }

  /** Shares change; the last one dropped closes the descriptor. */
  function WithShares(c: Conn, s: Shares): Conn {
    c.(shares := s, closes := c.closes + if Open(c.shares) && !Open(s) then 1 else 0)
  }

  function Used(c: Conn): Conn {
    c.(strays := c.strays + if c.closes > 0 then 1 else 0)
  }

  /** `closeConnection`: the source is cancelled, the registry's share dropped. */
  function Retire(c: Conn): Conn {
    WithShares(c.(reading := false), c.shares.(registry := false))
  }

  /** `onReadReady` with a frame: the handler's own share of the descriptor lives until
      the reply block, if any, has taken its share. */
  function Dispatch(c: Conn, p: Parsed): Conn {
    WithShares(c.(reading := false, parsed := Some(p), answer := Due(p), dispatches := c.dispatches + 1),
               c.shares.(registry := false, reply := Due(p).Some?))
  }

  function OnRead(c: Conn, pumped: Pumped): Conn {
    match pumped
    case Nothing => Used(c)
    case Ended => Retire(Used(c))
    case Frame(body) => Dispatch(Used(c), Parse(body))
  }

  function OnHandler(c: Conn): Conn {
    WithShares(c, c.shares.(handler := false))
  }

  /** The reply block: one attempt to send, then its share is dropped. */
  function OnReply(c: Conn): Conn {
    var u := Used(c);
    WithShares(u.(attempts := u.attempts + 1), u.shares.(reply := false))
  }

  function Dismissals(pumped: Pumped): seq<string> {
    if pumped.Frame? && Parse(pumped.body).Ok? && Parse(pumped.body).value.CancelCurrent?
    then [Parse(pumped.body).value.promptId] else []
  }

  /** `stop` retires every connection still in the registry. */
  function RetireAll(m: map<int, Conn>): map<int, Conn> {
    map id | id in m :: if m[id].shares.registry then Retire(m[id]) else m[id]
  }

  function Step(s: State, a: Action): State {
    match a
    case Accept(authorised) =>
      if authorised then s.(conns := s.conns[s.next := NEW_CONN], next := s.next + 1)
      else s.(refusals := s.refusals + 1)
    case ReadReady(id, pumped) =>
      if id in s.conns && s.conns[id].shares.registry && s.conns[id].reading then
        s.(conns := s.conns[id := OnRead(s.conns[id], pumped)], dismissed := s.dismissed + Dismissals(pumped),
           order := if pumped.Frame? then s.order + [id] else s.order)
      else s
    case HandlerRuns(id) =>
      if id in s.conns && s.conns[id].shares.handler && !s.conns[id].reading then
        s.(conns := s.conns[id := OnHandler(s.conns[id])])
      else s
    case ReplyRuns(id) =>
      if id in s.conns && s.conns[id].shares.reply then
        s.(conns := s.conns[id := OnReply(s.conns[id])],
           asked := if s.conns[id].answer.Some? && Asks(s.conns[id].answer.value)
                    then s.asked + [Question(id, s.conns[id].answer.value)] else s.asked)
      else s
    case Stop => s.(conns := RetireAll(s.conns))
  }

  function Run(s: State, acts: seq<Action>): State
    decreases |acts|
  {
    if acts == [] then s else Run(Step(s, acts[0]), acts[1..])
  }

  // ---- the invariant -----------------------------------------------------------------------------

  /** One connection: dispatched at most once, and then out of the registry; the reply it
      is due is queued or was attempted, once; the descriptor is open while anyone holds
      it and closed once after that. */
  predicate ConnOk(c: Conn) {
    && c.strays == 0 && 0 <= c.attempts
    && c.closes == (if Open(c.shares) then 0 else 1)
    && c.dispatches == (if c.parsed.Some? then 1 else 0)
    && (c.reading ==> c.shares.handler)
    && (c.reading <==> c.shares.registry)
    && (c.parsed.Some? ==> !c.shares.registry)
    && c.answer == (if c.parsed.Some? then Due(c.parsed.value) else None)
    && c.attempts + (if c.shares.reply then 1 else 0) == (if c.answer.Some? then 1 else 0)
  }

  predicate Fine(s: State, id: int) {
    id in s.conns && ConnOk(s.conns[id])
  }

  /** What the person was asked: each question by a connection whose parsed request calls
      for it, and which has made its one attempt. */
  predicate AskedOk(conns: map<int, Conn>, q: Question) {
    && q.id in conns && conns[q.id].parsed.Some? && Due(conns[q.id].parsed.value) == Some(q.answer) && Asks(q.answer)
    && conns[q.id].attempts == 1
  }

  ghost predicate AskedOnce(s: State) {
    && (forall i | 0 <= i < |s.asked| :: AskedOk(s.conns, s.asked[i]))
    && (forall i, j | 0 <= i < j < |s.asked| :: s.asked[i].id != s.asked[j].id)
  }

  /** Every question that was due and whose block has run was put to the person. */
  ghost predicate AskedAll(s: State) {
    forall id | id in s.conns && s.conns[id].attempts == 1 && s.conns[id].answer.Some?
                && Asks(s.conns[id].answer.value) :: Question(id, s.conns[id].answer.value) in s.asked
  }

  predicate Dispatched(s: State, id: int) {
    id in s.conns && s.conns[id].parsed.Some?
  }

  predicate Listed(s: State, id: int) {
    id in s.order
  }

  ghost predicate OrderOk(s: State) {
    && (forall i | 0 <= i < |s.order| :: Dispatched(s, s.order[i]))
    && (forall id {:trigger Listed(s, id)} | Dispatched(s, id) :: Listed(s, id))
    && (forall i, j | 0 <= i < j < |s.order| :: s.order[i] != s.order[j])
  }

  /** The prompt ids of the cancels among the connections `order`, in order. */
  function Cancels(order: seq<int>, conns: map<int, Conn>): seq<string>
    decreases |order|
  {
    if order == [] then []
    else Cancels(order[..|order| - 1], conns) + CancelOf(conns, order[|order| - 1])
  }

  function CancelOf(conns: map<int, Conn>, id: int): seq<string> {
    if id in conns && conns[id].parsed.Some? && conns[id].parsed.value.Ok?
       && conns[id].parsed.value.value.CancelCurrent?
    then [conns[id].parsed.value.value.promptId] else []
  }

  ghost predicate OrderInv(s: State) {
    AskedAll(s) && OrderOk(s) && s.dismissed == Cancels(s.order, s.conns)
  }

  ghost predicate Inv(s: State) {
    && (forall id | id in s.conns :: id < s.next)
    && (forall id {:trigger Fine(s, id)} | id in s.conns :: Fine(s, id))
    && AskedOnce(s)
  }

  // ---- every step keeps it ------------------------------------------------------------------------

  /** One connection changes; what was asked before stands. */
  lemma {:induction false} ChangeOne(s: State, t: State, id: int)
    requires Inv(s) && id in s.conns && id in t.conns && t.next == s.next && t.asked == s.asked
    requires t.conns == s.conns[id := t.conns[id]] && ConnOk(t.conns[id])
    requires s.conns[id].attempts == 1 ==>
               t.conns[id].attempts == 1 && t.conns[id].parsed == s.conns[id].parsed
    ensures Inv(t)
  {
    forall x | x in t.conns
      ensures Fine(t, x)
    {
      assert Fine(s, x);
    }
    forall i | 0 <= i < |t.asked|
      ensures AskedOk(t.conns, t.asked[i])
    {
      assert AskedOk(s.conns, s.asked[i]);
    }
  }

  lemma {:induction false} AskInv(s: State, id: int)
    requires Inv(s) && id in s.conns && s.conns[id].shares.reply
    ensures Inv(Step(s, ReplyRuns(id)))
  {
    assert Fine(s, id);
    var t := s.(conns := s.conns[id := OnReply(s.conns[id])]);
    ChangeOne(s, t, id);
    var u := Step(s, ReplyRuns(id));
    assert forall x | x in t.conns :: Fine(t, x);
    forall x | x in u.conns
      ensures Fine(u, x)
    {
      assert Fine(t, x);
    }
    if u.asked != s.asked {
      var q := Question(id, s.conns[id].answer.value);
      assert u.asked == s.asked + [q] && AskedOk(u.conns, q);
      forall i | 0 <= i < |s.asked|
        ensures s.asked[i].id != id
      {
        assert AskedOk(s.conns, s.asked[i]);
      }
      forall i | 0 <= i < |u.asked|
        ensures AskedOk(u.conns, u.asked[i])
      {
        assert i < |s.asked| ==> AskedOk(t.conns, t.asked[i]);
      }
    }
  }

  lemma {:induction false} AcceptInv(s: State)
    requires Inv(s)
    ensures Inv(Step(s, Accept(true)))
  {
    var t := Step(s, Accept(true));
    forall x | x in t.conns
      ensures Fine(t, x)
    {
      assert x != s.next ==> Fine(s, x);
    }
    forall i | 0 <= i < |t.asked|
      ensures AskedOk(t.conns, t.asked[i])
    {
      assert AskedOk(s.conns, s.asked[i]);
    }
  }

  lemma {:induction false} StopInv(s: State)
    requires Inv(s)
    ensures Inv(Step(s, Stop))
  {
    var t := Step(s, Stop);
    forall x | x in t.conns
      ensures Fine(t, x)
    {
      assert Fine(s, x);
    }
    forall i | 0 <= i < |t.asked|
      ensures AskedOk(t.conns, t.asked[i])
    {
      var x := s.asked[i].id;
      assert AskedOk(s.conns, s.asked[i]);
      assert t.conns[x].parsed == s.conns[x].parsed && t.conns[x].attempts == s.conns[x].attempts;
    }
  }

  lemma {:induction false} StepInv(s: State, a: Action)
    requires Inv(s)
    ensures Inv(Step(s, a))
  {
    match a
    case Accept(authorised) =>
      if authorised {
        AcceptInv(s);
      } else {
        var t := Step(s, a);
        forall x | x in t.conns
          ensures Fine(t, x)
        {
          assert Fine(s, x);
        }
      }
    case ReadReady(id, pumped) =>
      if id in s.conns && s.conns[id].shares.registry && s.conns[id].reading {
        assert Fine(s, id);
        ChangeOne(s, Step(s, a), id);
      }
    case HandlerRuns(id) =>
      if id in s.conns && s.conns[id].shares.handler && !s.conns[id].reading {
        assert Fine(s, id);
        ChangeOne(s, Step(s, a), id);
      }
    case ReplyRuns(id) => if id in s.conns && s.conns[id].shares.reply { AskInv(s, id); }
    case Stop => StopInv(s);
  }

  lemma {:induction false} RunInv(s: State, acts: seq<Action>)
    requires Inv(s)
    ensures Inv(Run(s, acts))
    decreases |acts|
  {
    if acts != [] {
      StepInv(s, acts[0]);
      RunInv(Step(s, acts[0]), acts[1..]);
    }
  }

  // ---- order and completeness -------------------------------------------------------------------

  lemma {:induction false} CancelsSame(order: seq<int>, m: map<int, Conn>, n: map<int, Conn>)
    requires forall i | 0 <= i < |order| :: CancelOf(m, order[i]) == CancelOf(n, order[i])
    ensures Cancels(order, m) == Cancels(order, n)
    decreases |order|
  {
    if order != [] {
      CancelsSame(order[..|order| - 1], m, n);
    }
  }

  /** No connection's parsed request changes, none is dispatched, and who made its attempt
      is as before or was asked. */
  lemma {:induction false} OrderKept(s: State, t: State)
    requires OrderInv(s) && t.order == s.order && t.dismissed == s.dismissed
    requires forall q | q in s.asked :: q in t.asked
    requires forall id | id in s.conns :: id in t.conns && t.conns[id].parsed == s.conns[id].parsed
    requires forall id | id in t.conns :: t.conns[id].parsed.Some? ==> id in s.conns
    requires forall id | id in t.conns && t.conns[id].attempts == 1 && t.conns[id].answer.Some?
                && Asks(t.conns[id].answer.value) ::
                (id in s.conns && s.conns[id].attempts == 1 && s.conns[id].answer == t.conns[id].answer)
                || Question(id, t.conns[id].answer.value) in t.asked
    ensures OrderInv(t)
  {
    forall i | 0 <= i < |s.order|
      ensures Dispatched(t, t.order[i]) && CancelOf(s.conns, s.order[i]) == CancelOf(t.conns, s.order[i])
    {
      assert Dispatched(s, s.order[i]);
    }
    forall id | Dispatched(t, id)
      ensures Listed(t, id)
    {
      assert Dispatched(s, id) && Listed(s, id);
    }
    CancelsSame(s.order, s.conns, t.conns);
  }

  /** Connection `id` is dispatched: its entry alone changes, and it joins the order's end. */
  predicate Joins(s: State, t: State, id: int) {
    && id in s.conns && s.conns[id].parsed == None && id in t.conns && t.conns[id].parsed.Some?
    && t.conns == s.conns[id := t.conns[id]] && t.order == s.order + [id]
  }

  lemma {:induction false} JoinKeeps(s: State, t: State, id: int, i: int)
    requires OrderOk(s) && Joins(s, t, id) && 0 <= i < |s.order|
    ensures s.order[i] != id && Dispatched(t, s.order[i])
    ensures CancelOf(s.conns, s.order[i]) == CancelOf(t.conns, s.order[i])
  {
    assert Dispatched(s, s.order[i]);
  }

  lemma {:induction false} JoinListed(s: State, t: State, id: int, x: int)
    requires OrderOk(s) && Joins(s, t, id) && Dispatched(t, x)
    ensures Listed(t, x)
  {
    if x == id {
      assert t.order[|s.order|] == id;
    } else {
      assert Dispatched(s, x) && Listed(s, x);
    }
  }

  lemma {:induction false} JoinOrder(s: State, t: State, id: int)
    requires OrderOk(s) && Joins(s, t, id)
    ensures OrderOk(t)
  {
    forall i | 0 <= i < |t.order|
      ensures Dispatched(t, t.order[i]) && (i < |s.order| ==> t.order[i] != id)
    {
      if i < |s.order| {
        JoinKeeps(s, t, id, i);
      }
    }
    forall x | Dispatched(t, x)
      ensures Listed(t, x)
    {
      JoinListed(s, t, id, x);
    }
  }

  lemma {:induction false} JoinCancels(s: State, t: State, id: int)
    requires OrderOk(s) && Joins(s, t, id)
    ensures Cancels(t.order, t.conns) == Cancels(s.order, s.conns) + CancelOf(t.conns, id)
  {
    forall i | 0 <= i < |s.order|
      ensures CancelOf(s.conns, s.order[i]) == CancelOf(t.conns, s.order[i])
    {
      JoinKeeps(s, t, id, i);
    }
    CancelsSame(s.order, s.conns, t.conns);
    assert t.order[..|s.order|] == s.order;
  }

  /** One more connection at the end of the order, its cancel, if it is one, at the end of
      the dismissals. */
  lemma {:induction false} OrderAdded(s: State, t: State, id: int)
    requires OrderInv(s) && Joins(s, t, id) && t.conns[id].attempts == 0
    requires t.asked == s.asked && t.dismissed == s.dismissed + CancelOf(t.conns, id)
    ensures OrderInv(t)
  {
    JoinOrder(s, t, id);
    JoinCancels(s, t, id);
  }

  lemma {:induction false} OrderNext(s: State, id: int, body: Option<Cbor>)
    requires Inv(s) && OrderInv(s) && id in s.conns && s.conns[id].shares.registry && s.conns[id].reading
    ensures OrderInv(Step(s, ReadReady(id, Frame(body))))
  {
    assert Fine(s, id);
    DispatchDoes(s.conns[id], body);
    OrderAdded(s, Step(s, ReadReady(id, Frame(body))), id);
  }

  lemma {:induction false} DispatchDoes(c: Conn, body: Option<Cbor>)
    ensures var d := OnRead(c, Frame(body)); d.parsed == Some(Parse(body)) && d.attempts == c.attempts
  {
  }

  lemma {:induction false} ReadOrder(s: State, id: int, pumped: Pumped)
    requires Inv(s) && OrderInv(s) && id in s.conns && s.conns[id].shares.registry && s.conns[id].reading
    ensures OrderInv(Step(s, ReadReady(id, pumped)))
  {
    assert Fine(s, id);
    if pumped.Frame? {
      OrderNext(s, id, pumped.body);
    } else {
      assert s.dismissed + [] == s.dismissed;
      OrderKept(s, Step(s, ReadReady(id, pumped)));
    }
  }

  lemma {:induction false} ReplyOrder(s: State, id: int)
    requires Inv(s) && OrderInv(s) && id in s.conns && s.conns[id].shares.reply
    ensures OrderInv(Step(s, ReplyRuns(id)))
  {
    assert Fine(s, id);
    OrderKept(s, Step(s, ReplyRuns(id)));
  }

  lemma {:induction false} OtherOrder(s: State, a: Action)
    requires Inv(s) && OrderInv(s) && !a.ReadReady? && !a.ReplyRuns?
    ensures OrderInv(Step(s, a))
  {
    OrderKept(s, Step(s, a));
  }

  lemma {:induction false} StepOrder(s: State, a: Action)
    requires Inv(s) && OrderInv(s)
    ensures OrderInv(Step(s, a))
  {
    if a.ReadReady? {
      if a.id in s.conns && s.conns[a.id].shares.registry && s.conns[a.id].reading {
        ReadOrder(s, a.id, a.pumped);
      }
    } else if a.ReplyRuns? {
      if a.id in s.conns && s.conns[a.id].shares.reply {
        ReplyOrder(s, a.id);
      }
    } else {
      OtherOrder(s, a);
    }
  }

  lemma {:induction false} RunOrder(s: State, acts: seq<Action>)
    requires Inv(s) && OrderInv(s)
    ensures OrderInv(Run(s, acts))
    decreases |acts|
  {
    if acts != [] {
      StepOrder(s, acts[0]);
      StepInv(s, acts[0]);
      RunOrder(Step(s, acts[0]), acts[1..]);
    }
  }

  // ---- the promises ---------------------------------------------------------------------------------

  lemma {:induction false} RunFine(acts: seq<Action>, id: int)
    ensures var s := Run(START, acts); (id in s.conns ==> ConnOk(s.conns[id])) && AskedOnce(s)
  {
    var s := Run(START, acts);
    RunInv(START, acts);
    if id in s.conns {
      assert Fine(s, id);
    }
  }

  /** A request other than a cancel, or a message of a newer protocol. */
  predicate NeedsReply(p: Parsed) {
    p == Err(UnsupportedVersion) || (p.Ok? && !p.value.CancelCurrent?)
  }

  /** What a reply block is to do, message by message. */
  lemma DueExactly(p: Parsed)
    ensures Due(p).Some? <==> NeedsReply(p)
    ensures Due(p) == Some(AskSecret) <==> p.Ok? && p.value.RequestSecret?
    ensures Due(p) == Some(AskPair) <==> p.Ok? && p.value.RequestSecrets?
    ensures Due(p) == Some(AskConfirm) <==> p.Ok? && p.value.ConfirmAction? && p.value.flow == "configure_trust"
    ensures Due(p) == Some(RefuseConfirm) <==> p.Ok? && p.value.ConfirmAction? && p.value.flow != "configure_trust"
    ensures Due(p) == Some(SweepWindows) <==> p.Ok? && p.value.Reset?
    ensures Due(p) == Some(RefuseVersion) <==> p == Err(UnsupportedVersion)
  {
  }

  /** Each connection is dispatched at most once. A request other than a cancel, or one
      announcing a newer protocol, gets exactly one reply attempt once its block has
      run; nothing else gets any. */
  lemma OneReplyAttempt(acts: seq<Action>, id: int)
    ensures var s := Run(START, acts);
            id in s.conns ==>
              var c := s.conns[id];
              && c.dispatches == (if c.parsed.Some? then 1 else 0)
              && (c.shares.reply ==> c.parsed.Some? && NeedsReply(c.parsed.value))
              && c.attempts == (if c.parsed.Some? && NeedsReply(c.parsed.value) && !c.shares.reply then 1 else 0)
  {
    RunFine(acts, id);
  }

  /** The descriptor closes once, when the registry, the cancel handler and the reply
      block have all dropped their shares, and is never used after. */
  lemma DescriptorClosesOnce(acts: seq<Action>, id: int)
    ensures var s := Run(START, acts);
            id in s.conns ==>
              && s.conns[id].closes == (if Open(s.conns[id].shares) then 0 else 1)
              && s.conns[id].strays == 0
              && (s.conns[id].reading || s.conns[id].shares.reply ==> s.conns[id].closes == 0)
  {
    RunFine(acts, id);
  }

  /** The person is asked at most once per connection, and only for what an authorised
      peer's parsed request calls for: never for a confirmation this build cannot
      describe, and never for a message of a newer protocol. */
  lemma PersonAskedOnce(acts: seq<Action>, i: int, j: int)
    ensures var s := Run(START, acts);
            && (0 <= i < j < |s.asked| ==> s.asked[i].id != s.asked[j].id)
            && (0 <= i < |s.asked| ==>
                  && s.asked[i].id in s.conns && s.conns[s.asked[i].id].parsed.Some?
                  && s.conns[s.asked[i].id].parsed.value.Ok?
                  && var r := s.conns[s.asked[i].id].parsed.value.value;
                     match s.asked[i].answer
                     case AskSecret => r.RequestSecret?
                     case AskPair => r.RequestSecrets?
                     case AskConfirm => r.ConfirmAction? && r.flow == "configure_trust"
                     case _ => false)
  {
    RunFine(acts, 0);
    var s := Run(START, acts);
    if 0 <= i < |s.asked| {
      assert AskedOk(s.conns, s.asked[i]);
    }
  }

  /** A connection whose reply block has run was put to the person whenever its request
      calls for it, and with that kind of question. */
  lemma PersonWasAsked(acts: seq<Action>, id: int)
    ensures var s := Run(START, acts);
            id in s.conns && s.conns[id].attempts == 1 && s.conns[id].parsed.Some? && s.conns[id].parsed.value.Ok? ==>
              var r := s.conns[id].parsed.value.value;
              && (r.RequestSecret? ==> Question(id, AskSecret) in s.asked)
              && (r.RequestSecrets? ==> Question(id, AskPair) in s.asked)
              && (r.ConfirmAction? && r.flow == "configure_trust" ==> Question(id, AskConfirm) in s.asked)
  {
    RunFine(acts, id);
    RunInv(START, acts);
    RunOrder(START, acts);
  }

  /** The windows dismissed are those of the cancels dispatched, in the order they were. */
  lemma DismissalsInOrder(acts: seq<Action>)
    ensures var s := Run(START, acts); OrderOk(s) && s.dismissed == Cancels(s.order, s.conns)
  {
    RunOrder(START, acts);
  }

  /** A frame of a connection in the registry is dispatched by what it parses to; the end of
      the stream retires the connection undispatched. */
  lemma FrameIsDispatched(s: State, id: int, pumped: Pumped)
    requires Inv(s) && id in s.conns && s.conns[id].shares.registry
    ensures var t := Step(s, ReadReady(id, pumped));
            && id in t.conns
            && (pumped.Nothing? ==> t.conns[id].shares.registry && t.conns[id].parsed == None)
            && (pumped.Ended? ==>
                  !t.conns[id].shares.registry && t.conns[id].parsed == None && !t.conns[id].shares.reply)
            && (pumped.Frame? ==>
                  && !t.conns[id].shares.registry && t.conns[id].parsed == Some(Parse(pumped.body))
                  && t.conns[id].dispatches == 1 && (t.conns[id].shares.reply <==> NeedsReply(Parse(pumped.body))))
  {
    assert Fine(s, id);
  }

  /** No descriptor is left open: after a stop, the handler and the reply block let go of
      every connection's. */
  lemma {:induction false} EveryDescriptorCloses(s: State, id: int)
    requires Inv(s) && id in s.conns
    ensures var t := Step(Step(Step(s, Stop), HandlerRuns(id)), ReplyRuns(id));
            id in t.conns && t.conns[id].closes == 1
  {
    var a := Step(s, Stop);
    var b := Step(a, HandlerRuns(id));
    var c := Step(b, ReplyRuns(id));
    StepInv(s, Stop);
    StepInv(a, HandlerRuns(id));
    StepInv(b, ReplyRuns(id));
    assert Fine(a, id) && Fine(b, id) && Fine(c, id);
  }

  /** Entry by entry the same connections are as good. */
  lemma {:induction false} SameEntriesInv(s: State, t: State)
    requires Inv(s) && t.next == s.next && t.asked == s.asked
    requires forall id | id in t.conns :: id in s.conns && t.conns[id] == s.conns[id]
    requires forall id | id in s.conns :: id in t.conns
    ensures Inv(t)
  {
    forall x | x in t.conns
      ensures Fine(t, x)
    {
      assert Fine(s, x);
    }
    forall i | 0 <= i < |t.asked|
      ensures AskedOk(t.conns, t.asked[i])
    {
      assert AskedOk(s.conns, s.asked[i]);
    }
  }

  // ---- the server's side, as it keeps it -----------------------------------------------------------

  class Connections {
    var conns: map<int, Conn>
    var nextConnId: int
    ghost var refusals: int
    ghost var dismissed: seq<string>
    ghost var asked: seq<Question>
    ghost var order: seq<int>

    ghost function Value(): State
      reads this
    {
      State(conns, nextConnId, refusals, dismissed, asked, order)
    }

    /** Every connection dispatched at most once, answered as it is due, its descriptor
        open exactly while someone holds it. */
    ghost predicate Valid()
      reads this
    {
      Inv(Value())
    }

    constructor ()
      ensures Valid() && Value() == START
    {
      conns, nextConnId := map[], 1;
      refusals, dismissed, asked, order := 0, [], [], [];
    }

    /** `acceptOne`: an unauthorised peer is told so and gets no connection. */
    method AcceptOne(authorised: bool)
      requires Valid()
      modifies this
      ensures Valid() && Value() == Step(old(Value()), Accept(authorised))
      ensures !authorised ==> conns == old(conns)
      ensures authorised ==> old(nextConnId) !in old(conns) && old(nextConnId) in conns
    {
      StepInv(Value(), Accept(authorised));
      if !authorised {
        refusals := refusals + 1;
        return;
      }
      conns := conns[nextConnId := NEW_CONN];
      nextConnId := nextConnId + 1;
    }

    /** `onReadReady`: a frame is the connection's first and only request; it leaves the
        registry, and a reply block is queued exactly when one is due. */
    method OnReadReady(id: int, pumped: Pumped)
      requires Valid()
      modifies this
      ensures Valid() && Value() == Step(old(Value()), ReadReady(id, pumped))
      ensures pumped.Frame? && id in old(conns) && old(conns)[id].shares.registry ==>
                && old(conns)[id].dispatches == 0 && conns[id].dispatches == 1 && !conns[id].shares.registry
                && conns[id].parsed == Some(Parse(pumped.body)) && conns[id].closes == 0
                && (conns[id].shares.reply <==> NeedsReply(Parse(pumped.body)))
    {
      StepInv(Value(), ReadReady(id, pumped));
      if id in conns {
        assert Fine(Value(), id);
      }
      if id !in conns || !conns[id].shares.registry || !conns[id].reading {
        return;
      }
      dismissed := dismissed + Dismissals(pumped);
      var c := Used(conns[id]);
      if pumped.Ended? {
        c := Retire(c);
      } else if pumped.Frame? {
        var parsed := Parse(pumped.body);
        c := Dispatch(c, parsed);
        order := order + [id];
      }
      conns := conns[id := c];
    }

    /** The cancel handler of a retired read source. */
    method CancelHandler(id: int)
      requires Valid() && id in conns && conns[id].shares.handler && !conns[id].reading
      modifies this
      ensures Valid() && Value() == Step(old(Value()), HandlerRuns(id))
      ensures conns[id].closes == (if conns[id].shares.reply then 0 else 1)
    {
      StepInv(Value(), HandlerRuns(id));
      assert Fine(Value(), id);
      conns := conns[id := OnHandler(conns[id])];
      assert Fine(Value(), id);
    }

    /** The reply block a dispatch queued: the one attempt, on an open descriptor, and the
        person is asked only if the request calls for it. */
    method ReplyBlock(id: int)
      requires Valid() && id in conns && conns[id].shares.reply
      modifies this
      ensures Valid() && Value() == Step(old(Value()), ReplyRuns(id))
      ensures old(conns)[id].attempts == 0 && old(conns)[id].closes == 0 && conns[id].attempts == 1
      ensures conns[id].parsed.Some? && NeedsReply(conns[id].parsed.value)
      ensures conns[id].parsed == Some(Err(UnsupportedVersion)) ==> asked == old(asked)
      ensures conns[id].parsed.value.Ok? ==>
                var r := conns[id].parsed.value.value;
                var confirm := r.ConfirmAction? && r.flow == "configure_trust";
                asked == old(asked) + if r.RequestSecret? then [Question(id, AskSecret)]
                                      else if r.RequestSecrets? then [Question(id, AskPair)]
                                      else if confirm then [Question(id, AskConfirm)]
                                      else []
    {
      StepInv(Value(), ReplyRuns(id));
      assert Fine(Value(), id);
      DueExactly(conns[id].parsed.value);
      if conns[id].answer.Some? && Asks(conns[id].answer.value) {
        asked := asked + [Question(id, conns[id].answer.value)];
      }
      conns := conns[id := OnReply(conns[id])];
    }

    /** The connections' part of `stop`: entry by entry what the step `Stop` leaves, none of
        them in the registry or reading. */
    method RetireEvery()
      requires Valid()
      modifies this`conns
      ensures Valid() && conns.Keys == old(conns).Keys
      ensures forall id | id in conns :: conns[id] == Step(old(Value()), Stop).conns[id]
      ensures forall id | id in conns :: !conns[id].shares.registry && !conns[id].reading
    {
      ghost var stopped := Step(Value(), Stop);
      StepInv(Value(), Stop);
      var rest := conns.Keys;
      while rest != {}
        invariant rest <= conns.Keys && conns.Keys == old(conns).Keys
        invariant forall id | id in rest :: conns[id] == old(conns)[id]
        invariant forall id | id in conns && id !in rest :: conns[id] == RetireAll(old(conns))[id]
        decreases |rest|
      {
        var id := Next(rest);
        if conns[id].shares.registry {
          conns := conns[id := Retire(conns[id])];
        }
        rest := rest - {id};
      }
      SameEntriesInv(stopped, Value());
      forall id | id in conns
        ensures !conns[id].shares.registry && !conns[id].reading
      {
        assert Fine(Value(), id);
      }
    }
  }
}
