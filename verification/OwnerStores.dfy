/**
 The frontend's per-owner stores: who launched each operation, and the signed documents
 kept for a while for whoever launched the signing. The loop alone touches the stores;
 workers and the disconnect of a client reach them by posted blocks, delays by blocks
 posted later. An operation may run and finish while the loop is still launching it.
 */
module OwnerStores {
  import opened Wrappers

  type Op = int
  type Caller = int
  type Artifact = string

  datatype Record = Record(artifact: Artifact, owner: Caller)

  datatype Block =
    | Stash(op: Op, record: Record)
    | Prune(op: Op)
    | Evict(op: Op)
    | Drop(caller: Caller)

  /** `m_opOwners` and `m_signResults`. */
  datatype Stores = Stores(owners: map<Op, Caller>, results: map<Op, Record>)

  /** What clients got: a document, or a cancel passed on to the operation manager. */
  datatype Outcome = Handed(caller: Caller, op: Op, artifact: Artifact) | Cancelled(caller: Caller, op: Op)

  /** History: who launched each operation and which were launched with the sink for
      signed documents (`signs`), the document each has signed, the launches that have
      returned, the clients ever connected, the blocks run, and what clients got. */
  datatype Past = Past(launched: map<Op, Caller>, signs: set<Op>, signed: map<Op, Artifact>, entered: set<Op>,
                       callers: set<Caller>, ran: seq<Block>, log: seq<Outcome>)

  // ---- the stores' operations ---------------------------------------------------------------

  function WithoutOwner(m: map<Op, Caller>, c: Caller): map<Op, Caller> {
    map op | op in m && m[op] != c :: m[op]
  }

  function WithoutOwned(m: map<Op, Record>, c: Caller): map<Op, Record> {
    map op | op in m && m[op].owner != c :: m[op]
  }

  /** What each posted block does to the stores. */
  function Apply(s: Stores, b: Block): Stores {
    match b
    case Stash(op, r) => s.(results := s.results[op := r])
    case Prune(op) => s.(owners := s.owners - {op})
    case Evict(op) => s.(results := s.results - {op})
    case Drop(c) => Stores(WithoutOwner(s.owners, c), WithoutOwned(s.results, c))
  }

  /** `handleGetSignResult`: the document, or the one answer for everything else. */
  function SignResult(s: Stores, caller: Caller, op: Op): Option<Artifact> {
    if op in s.results && s.results[op].owner == caller then Some(s.results[op].artifact) else None
  }

  /** `handleCancel`: whether the cancel is passed on; the client is told nothing. */
  predicate MayCancel(s: Stores, caller: Caller, op: Op) {
    op in s.owners && s.owners[op] == caller
  }

  // ---- what the stores hold, from history alone ------------------------------------------------

  /** The operation was launched by this caller and is neither finished nor forgotten: its
      launch has returned, its prune has not run, and its client's entries have not been
      dropped. */
  predicate LiveFor(p: Past, caller: Caller, op: Op) {
    && op in p.entered && op in p.launched && p.launched[op] == caller
    && Prune(op) !in p.ran && Drop(caller) !in p.ran
  }

  /** Block `i` stored the operation's document, and no later block took it out. */
  predicate StoredBy(ran: seq<Block>, i: int, op: Op)
    requires 0 <= i < |ran|
  {
    && ran[i].Stash? && ran[i].op == op
    && Evict(op) !in ran[i + 1..] && Drop(ran[i].record.owner) !in ran[i + 1..]
  }

  predicate Kept(ran: seq<Block>, op: Op) {
    exists i | 0 <= i < |ran| :: StoredBy(ran, i, op)
  }

  predicate RecordOk(p: Past, op: Op, r: Record) {
    && op in p.launched && r.owner == p.launched[op]
    && op in p.signs && op in p.signed && r.artifact == p.signed[op]
  }

  predicate BlockOk(p: Past, b: Block) {
    && (b.Stash? ==> RecordOk(p, b.op, b.record)) && (b.Prune? ==> b.op in p.launched)
    && (b.Drop? ==> b.caller in p.callers)
  }

  ghost predicate RanOk(p: Past) {
    forall b | b in p.ran :: BlockOk(p, b)
  }

  ghost predicate OwnersExact(s: Stores, p: Past) {
    && (forall op | op in s.owners :: LiveFor(p, s.owners[op], op))
    && (forall op | op in p.launched && LiveFor(p, p.launched[op], op) :: op in s.owners)
  }

  ghost predicate ResultsExact(s: Stores, p: Past) {
    && (forall op | op in s.results :: RecordOk(p, op, s.results[op]) && Kept(p.ran, op))
    && (forall op | Kept(p.ran, op) :: op in s.results)
  }

  /** The stores hold exactly what history says they should. */
  ghost predicate StoresOk(s: Stores, p: Past) {
    RanOk(p) && OwnersExact(s, p) && ResultsExact(s, p)
  }

  function Ran(p: Past, b: Block): Past {
    p.(ran := p.ran + [b])
  }

  lemma KeptNext(p: Past, b: Block, op: Op)
    requires RanOk(p)
    ensures Kept(p.ran + [b], op) <==>
            ((b.Stash? && b.op == op)
             || (Kept(p.ran, op) && b != Evict(op) && !(op in p.launched && b == Drop(p.launched[op]))))
  {
    var t := p.ran + [b];
    var n := |p.ran|;
    if b.Stash? && b.op == op {
      assert t[n + 1..] == [];
      assert StoredBy(t, n, op);
    }
    if i :| 0 <= i < n && StoredBy(p.ran, i, op) {
      assert p.ran[i] in p.ran;
      assert t[i + 1..] == p.ran[i + 1..] + [b];
      assert StoredBy(t, i, op) <==> b != Evict(op) && b != Drop(p.launched[op]);
    }
    if i :| 0 <= i < |t| && StoredBy(t, i, op) {
      if i < n {
        assert p.ran[i] in p.ran;
        assert t[i + 1..] == p.ran[i + 1..] + [b];
        var before, after := p.ran[i + 1..], t[i + 1..];
        assert b in after && forall x | x in before :: x in after;
        assert StoredBy(p.ran, i, op);
      }
    }
  }

  lemma ApplyOwners(s: Stores, p: Past, b: Block)
    requires OwnersExact(s, p)
    ensures OwnersExact(Apply(s, b), Ran(p, b))
  {
    assert forall x :: x in p.ran + [b] <==> x in p.ran || x == b;
  }

  lemma ApplyResults(s: Stores, p: Past, b: Block)
    requires RanOk(p) && ResultsExact(s, p) && BlockOk(p, b)
    ensures RanOk(Ran(p, b)) && ResultsExact(Apply(s, b), Ran(p, b))
  {
    var t := Apply(s, b);
    forall op
      ensures op in t.results ==> RecordOk(p, op, t.results[op])
      ensures op in t.results <==> Kept(p.ran + [b], op)
    {
      KeptNext(p, b, op);
    }
  }

  lemma EnterOk(s: Stores, p: Past, op: Op)
    requires StoresOk(s, p) && op in p.launched && Prune(op) !in p.ran && Drop(p.launched[op]) !in p.ran
    ensures StoresOk(s.(owners := s.owners[op := p.launched[op]]), p.(entered := p.entered + {op}))
  {
    var q := p.(entered := p.entered + {op});
    assert forall b | b in q.ran :: BlockOk(p, b) && BlockOk(q, b);
  }

  // ---- the machine -----------------------------------------------------------------------------

  /** The loop is between two blocks, or inside the launch of an operation that the
      worker may already be running. */
  datatype Loop = Free | Launching(op: Op)

  datatype State = State(stores: Stores, loop: Loop, queue: seq<Block>, delays: seq<Op>, running: set<Op>,
                         connected: set<Caller>, past: Past)

  datatype Action =
    | Connect(caller: Caller)
    | Disconnect(caller: Caller)
    | LaunchBegins(caller: Caller, op: Op, signs: bool)
    | LaunchEnds
    | Signed(op: Op, artifact: Artifact)
    | Finishes(op: Op)
    | GraceEnds(i: nat)
    | RunBlock
    | Cancel(caller: Caller, op: Op)
    | GetSignResult(caller: Caller, op: Op)

  const START := State(Stores(map[], map[]), Free, [], [], {}, {}, Past(map[], {}, map[], {}, {}, [], []))

  function Posted(s: State, b: Block): State {
    s.(queue := s.queue + [b])
  }

  function Got(s: State, o: Outcome): State {
    s.(past := s.past.(log := s.past.log + [o]))
  }

  function Took(s: State): State
    requires s.queue != []
  {
    var b := s.queue[0];
    s.(stores := Apply(s.stores, b), queue := s.queue[1..], past := Ran(s.past, b),
       delays := if b.Stash? then s.delays + [b.op] else s.delays)
  }

  function Launched(p: Past, c: Caller, op: Op, signs: bool): Past {
    p.(launched := p.launched[op := c], signs := if signs then p.signs + {op} else p.signs)
  }

  /** The worker can still sign: the operation runs, was launched with the sink, and has
      not handed over its one document. */
  predicate CanSign(s: State, op: Op) {
    op in s.running && op in s.past.signs && op in s.past.launched && op !in s.past.signed
  }

  /** Steps of the loop while it is not inside a launch. */
  function LoopStep(s: State, a: Action): State {
    match a
    case Disconnect(c) => if c in s.connected then Posted(s.(connected := s.connected - {c}), Drop(c)) else s
    case LaunchBegins(c, op, signs) =>
      if c in s.connected && op !in s.past.launched then
        s.(loop := Launching(op), running := s.running + {op}, past := Launched(s.past, c, op, signs))
      else s
    case RunBlock => if s.queue != [] then Took(s) else s
    case Cancel(c, op) => if c in s.connected && MayCancel(s.stores, c, op) then Got(s, Cancelled(c, op)) else s
    case GetSignResult(c, op) =>
      if c in s.connected && SignResult(s.stores, c, op).Some? then
        Got(s, Handed(c, op, SignResult(s.stores, c, op).value))
      else s
    case _ => s
  }

  /** Steps that can happen at any moment. */
  function OtherStep(s: State, a: Action): State {
    match a
    case Connect(c) =>
      if c !in s.past.callers
      then s.(connected := s.connected + {c}, past := s.past.(callers := s.past.callers + {c})) else s
    case LaunchEnds =>
      if s.loop.Launching? && s.loop.op in s.past.launched then
        s.(loop := Free, past := s.past.(entered := s.past.entered + {s.loop.op}),
           stores := s.stores.(owners := s.stores.owners[s.loop.op := s.past.launched[s.loop.op]]))
      else s
    case Signed(op, artifact) =>
      if CanSign(s, op) then
        Posted(s.(past := s.past.(signed := s.past.signed[op := artifact])),
               Stash(op, Record(artifact, s.past.launched[op])))
      else s
    case Finishes(op) => if op in s.running then Posted(s.(running := s.running - {op}), Prune(op)) else s
    case GraceEnds(i) =>
      if i < |s.delays| then Posted(s.(delays := s.delays[..i] + s.delays[i + 1..]), Evict(s.delays[i])) else s
    case _ => s
  }

  function Step(s: State, a: Action): State {
    if a.Disconnect? || a.LaunchBegins? || a.RunBlock? || a.Cancel? || a.GetSignResult?
    then if s.loop.Free? then LoopStep(s, a) else s
    else OtherStep(s, a)
  }

  function Run(s: State, acts: seq<Action>): State
    decreases |acts|
  {
    if acts == [] then s else Run(Step(s, acts[0]), acts[1..])
  }

  // ---- the invariant ------------------------------------------------------------------------

  /** The operation still has its prune ahead of it. */
  predicate PruneAhead(running: set<Op>, queue: seq<Block>, op: Op) {
    op in running || Prune(op) in queue
  }

  predicate EvictAhead(delays: seq<Op>, queue: seq<Block>, op: Op) {
    op in delays || Evict(op) in queue
  }

  ghost predicate AheadOk(s: State) {
    && (forall op | op in s.stores.owners :: PruneAhead(s.running, s.queue, op))
    && (forall op | op in s.stores.owners ::
          s.stores.owners[op] in s.connected || Drop(s.stores.owners[op]) in s.queue)
    && (forall op | op in s.stores.results :: EvictAhead(s.delays, s.queue, op))
  }

  ghost predicate QueueOk(s: State) {
    forall b | b in s.queue :: BlockOk(s.past, b)
  }

  ghost predicate ClientsOk(s: State) {
    && (forall c | c in s.connected :: c in s.past.callers && Drop(c) !in s.queue && Drop(c) !in s.past.ran)
    && (forall op | op in s.past.launched :: s.past.launched[op] in s.past.callers)
    && (forall op | op in s.running || op in s.past.signed || op in s.past.entered :: op in s.past.launched)
  }

  ghost predicate LaunchOk(s: State) {
    s.loop.Launching? ==>
      && s.loop.op in s.past.launched && s.past.launched[s.loop.op] in s.connected
      && Prune(s.loop.op) !in s.past.ran && PruneAhead(s.running, s.queue, s.loop.op)
  }

  predicate OutcomeOk(p: Past, o: Outcome) {
    && o.op in p.launched && p.launched[o.op] == o.caller
    && (o.Handed? ==> o.op in p.signed && p.signed[o.op] == o.artifact)
  }

  ghost predicate LogOk(p: Past) {
    forall o | o in p.log :: OutcomeOk(p, o)
  }

  ghost predicate Inv(s: State) {
    StoresOk(s.stores, s.past) && AheadOk(s) && QueueOk(s) && ClientsOk(s) && LaunchOk(s) && LogOk(s.past)
  }

  // ---- every step keeps it ------------------------------------------------------------------

  /** History that only grows where nothing was recorded keeps what it said. */
  ghost predicate Grows(p: Past, q: Past) {
    && (forall op | op in p.launched :: op in q.launched && q.launched[op] == p.launched[op])
    && (forall op | op in p.signs :: op in q.signs)
    && (forall op | op in p.signed :: op in q.signed && q.signed[op] == p.signed[op])
    && (forall c | c in p.callers :: c in q.callers)
    && q.entered == p.entered && q.ran == p.ran
    && (forall op | op in p.entered :: op in p.launched)
  }

  lemma GrowsStores(s: Stores, p: Past, q: Past)
    requires StoresOk(s, p) && Grows(p, q)
    ensures StoresOk(s, q)
  {
    assert forall b | b in q.ran :: BlockOk(p, b) && BlockOk(q, b);
    forall op | op in s.owners
      ensures LiveFor(q, s.owners[op], op)
    {
      assert LiveFor(p, s.owners[op], op);
    }
    forall op | op in q.launched && LiveFor(q, q.launched[op], op)
      ensures op in s.owners
    {
      assert LiveFor(p, p.launched[op], op);
    }
    forall op | op in s.results
      ensures RecordOk(q, op, s.results[op])
    {
      assert RecordOk(p, op, s.results[op]);
    }
  }

  lemma PostedOk(s: State, b: Block)
    requires Inv(s) && BlockOk(s.past, b) && !b.Drop?
    ensures Inv(Posted(s, b))
  {
    var t := Posted(s, b);
    assert forall x :: x in t.queue <==> x in s.queue || x == b;
  }

  lemma DisconnectOk(s: State, c: Caller)
    requires Inv(s) && s.loop.Free? && c in s.connected
    ensures Inv(Posted(s.(connected := s.connected - {c}), Drop(c)))
  {
    var t := Posted(s.(connected := s.connected - {c}), Drop(c));
    assert forall x :: x in t.queue <==> x in s.queue || x == Drop(c);
  }

  lemma FinishesOk(s: State, op: Op)
    requires Inv(s) && op in s.running
    ensures Inv(Posted(s.(running := s.running - {op}), Prune(op)))
  {
    var t := Posted(s.(running := s.running - {op}), Prune(op));
    assert forall x :: x in t.queue <==> x in s.queue || x == Prune(op);
  }

  lemma GraceOk(s: State, i: nat)
    requires Inv(s) && i < |s.delays|
    ensures Inv(Posted(s.(delays := s.delays[..i] + s.delays[i + 1..]), Evict(s.delays[i])))
  {
    var t := Posted(s.(delays := s.delays[..i] + s.delays[i + 1..]), Evict(s.delays[i]));
    assert forall x :: x in t.queue <==> x in s.queue || x == Evict(s.delays[i]);
    assert forall op | op in s.delays && op != s.delays[i] :: op in t.delays;
  }

  lemma SignedOk(s: State, op: Op, artifact: Artifact)
    requires Inv(s) && CanSign(s, op)
    ensures Inv(s.(past := s.past.(signed := s.past.signed[op := artifact])))
  {
    GrowsStores(s.stores, s.past, s.past.(signed := s.past.signed[op := artifact]));
  }

  lemma LaunchBeginsOk(s: State, c: Caller, op: Op, signs: bool)
    requires Inv(s) && s.loop.Free? && c in s.connected && op !in s.past.launched
    ensures Inv(Step(s, LaunchBegins(c, op, signs)))
  {
    var t := Step(s, LaunchBegins(c, op, signs));
    GrowsStores(s.stores, s.past, t.past);
    assert Prune(op) in s.past.ran ==> BlockOk(s.past, Prune(op));
  }

  lemma LaunchEndsOk(s: State)
    requires Inv(s) && s.loop.Launching?
    ensures Inv(Step(s, LaunchEnds))
  {
    EnterOk(s.stores, s.past, s.loop.op);
  }

  lemma ConnectOk(s: State, c: Caller)
    requires Inv(s)
    ensures Inv(Step(s, Connect(c)))
  {
    GrowsStores(s.stores, s.past, Step(s, Connect(c)).past);
    assert Drop(c) in s.queue || Drop(c) in s.past.ran ==> BlockOk(s.past, Drop(c));
  }

  lemma TookOk(s: State)
    requires Inv(s) && s.queue != [] && s.loop.Free?
    ensures Inv(Took(s))
  {
    var b, t := s.queue[0], Took(s);
    assert b in s.queue && forall x | x in s.queue :: x == b || x in t.queue;
    ApplyOwners(s.stores, s.past, b);
    ApplyResults(s.stores, s.past, b);
    TookAhead(s);
    TookRest(s);
  }

  lemma TookAhead(s: State)
    requires Inv(s) && s.queue != [] && s.loop.Free?
    ensures AheadOk(Took(s))
  {
    var b, t := s.queue[0], Took(s);
    assert forall x | x in s.queue :: x == b || x in t.queue;
    assert forall op | op in s.delays :: op in t.delays;
  }

  lemma TookRest(s: State)
    requires Inv(s) && s.queue != [] && s.loop.Free?
    ensures QueueOk(Took(s)) && ClientsOk(Took(s)) && LaunchOk(Took(s)) && LogOk(Took(s).past)
  {
    var b, t := s.queue[0], Took(s);
    assert b in s.queue && forall x | x in t.queue :: x in s.queue;
    assert forall x | x in t.queue :: BlockOk(s.past, x) && BlockOk(t.past, x);
  }

  lemma GotOk(s: State, o: Outcome)
    requires Inv(s) && OutcomeOk(s.past, o)
    ensures Inv(Got(s, o))
  {
    GrowsStores(s.stores, s.past, Got(s, o).past);
  }

  lemma {:induction false} LoopStepInv(s: State, a: Action)
    requires Inv(s) && s.loop.Free?
    ensures Inv(LoopStep(s, a))
  {
    if a.Disconnect? {
      if a.caller in s.connected {
        DisconnectOk(s, a.caller);
      }
    } else if a.LaunchBegins? {
      if a.caller in s.connected && a.op !in s.past.launched {
        LaunchBeginsOk(s, a.caller, a.op, a.signs);
      }
    } else if a.RunBlock? {
      if s.queue != [] {
        TookOk(s);
      }
    } else if a.Cancel? {
      if MayCancel(s.stores, a.caller, a.op) {
        GotOk(s, Cancelled(a.caller, a.op));
      }
    } else if a.GetSignResult? {
      if SignResult(s.stores, a.caller, a.op).Some? {
        GotOk(s, Handed(a.caller, a.op, SignResult(s.stores, a.caller, a.op).value));
      }
    }
  }

  lemma {:induction false} OtherStepInv(s: State, a: Action)
    requires Inv(s)
    ensures Inv(OtherStep(s, a))
  {
    if a.Connect? {
      ConnectOk(s, a.caller);
    } else if a.LaunchEnds? {
      if s.loop.Launching? {
        LaunchEndsOk(s);
      }
    } else if a.Signed? {
      if CanSign(s, a.op) {
        SignedOk(s, a.op, a.artifact);
        PostedOk(s.(past := s.past.(signed := s.past.signed[a.op := a.artifact])),
                 Stash(a.op, Record(a.artifact, s.past.launched[a.op])));
      }
    } else if a.Finishes? {
      if a.op in s.running {
        FinishesOk(s, a.op);
      }
    } else if a.GraceEnds? {
      if a.i < |s.delays| {
        GraceOk(s, a.i);
      }
    }
  }

  lemma {:induction false} StepInv(s: State, a: Action)
    requires Inv(s)
    ensures Inv(Step(s, a))
  {
    OtherStepInv(s, a);
    if s.loop.Free? {
      LoopStepInv(s, a);
    }
  }

  lemma {:induction false} RunInv(s: State, acts: seq<Action>)
    requires Inv(s)
    ensures Inv(Run(s, acts))
    decreases |acts|
  {
    if acts != [] {
      StepInv(s, acts[0]);
      RunInv(Step(s, acts[0]), acts[1..]);
    }
  }

  // ---- the promises -----------------------------------------------------------------------------

  /** In every run a signed document is handed to, and a cancel honoured for, the caller
      that launched the operation and nobody else; and the document is the one that very
      operation signed. */
  lemma OnlyTheOwner(acts: seq<Action>, o: Outcome)
    ensures var p := Run(START, acts).past;
            o in p.log ==>
              && o.op in p.launched && p.launched[o.op] == o.caller
              && (o.Handed? ==> o.op in p.signed && p.signed[o.op] == o.artifact)
  {
    RunInv(START, acts);
  }

  /** An owner entry is there exactly for an operation whose launch has returned, whose
      prune has not run and whose client's entries have not been dropped, even when the
      operation finished before its launch returned; and its prune is still to come. */
  lemma OwnerEntryExactly(acts: seq<Action>, op: Op, caller: Caller)
    ensures var s := Run(START, acts);
            && (op in s.stores.owners && s.stores.owners[op] == caller <==> LiveFor(s.past, caller, op))
            && (op in s.stores.owners ==>
                  && (op in s.running || Prune(op) in s.queue)
                  && (s.stores.owners[op] in s.connected || Drop(s.stores.owners[op]) in s.queue))
  {
    RunInv(START, acts);
    var s := Run(START, acts);
    assert op in s.stores.owners ==> PruneAhead(s.running, s.queue, op) && LiveFor(s.past, s.stores.owners[op], op);
  }

  /** A document is stored exactly when its block has run and neither its eviction nor the
      drop of its owner has run since; and its eviction is still to come. */
  lemma DocumentKeptExactly(acts: seq<Action>, op: Op)
    ensures var s := Run(START, acts);
            && (op in s.stores.results <==> Kept(s.past.ran, op))
            && (op in s.stores.results ==> op in s.delays || Evict(op) in s.queue)
  {
    RunInv(START, acts);
    var s := Run(START, acts);
    assert op in s.stores.results ==> EvictAhead(s.delays, s.queue, op);
  }

  /** Once nothing runs, is queued or is delayed, the stores are empty. */
  lemma NothingLeaks(acts: seq<Action>, op: Op)
    ensures var s := Run(START, acts);
            s.running == {} && s.queue == [] && s.delays == [] ==> op !in s.stores.owners && op !in s.stores.results
  {
    OwnerEntryExactly(acts, op, 0);
    DocumentKeptExactly(acts, op);
  }

  /** To a caller that did not launch the operation, a stored document looks exactly like
      no document, and a live operation like no operation. */
  lemma NoOracle(acts: seq<Action>, caller: Caller, op: Op)
    ensures var s := Run(START, acts);
            var without := Stores(s.stores.owners - {op}, s.stores.results - {op});
            !(op in s.past.launched && s.past.launched[op] == caller) ==>
              && SignResult(s.stores, caller, op) == SignResult(without, caller, op)
              && (MayCancel(s.stores, caller, op) <==> MayCancel(without, caller, op))
  {
    RunInv(START, acts);
  }

  /** A connected caller's cancel is passed on exactly while its operation is live, and it
      gets the signed document exactly while that is kept for it; nothing else happens. */
  lemma OwnerIsServed(s: State, c: Caller, op: Op)
    requires Inv(s) && s.loop.Free? && c in s.connected
    ensures Step(s, Cancel(c, op)) == if LiveFor(s.past, c, op) then Got(s, Cancelled(c, op)) else s
    ensures Step(s, GetSignResult(c, op)) ==
            if Kept(s.past.ran, op) && op in s.past.launched && s.past.launched[op] == c && op in s.past.signed
            then Got(s, Handed(c, op, s.past.signed[op])) else s
  {
    assert op in s.stores.owners ==> LiveFor(s.past, s.stores.owners[op], op);
    assert op in s.stores.results ==> RecordOk(s.past, op, s.stores.results[op]) && Kept(s.past.ran, op);
  }

  /** A launch that returns makes the operation its caller's to cancel, even one that has
      finished already. */
  lemma LaunchEntersOwner(s: State)
    requires Inv(s) && s.loop.Launching?
    ensures var t := Step(s, LaunchEnds);
            && t.loop.Free? && s.loop.op in s.past.launched
            && MayCancel(t.stores, s.past.launched[s.loop.op], s.loop.op)
  {
  }

  /** The loop runs the blocks in the order they were posted, and a grace window that ends
      posts its eviction. */
  lemma BlocksRunInOrder(s: State, i: nat)
    ensures s.loop.Free? && s.queue != [] ==>
              var t := Step(s, RunBlock);
              t.past.ran == s.past.ran + [s.queue[0]] && t.queue == s.queue[1..]
    ensures i < |s.delays| ==> Step(s, GraceEnds(i)).queue == s.queue + [Evict(s.delays[i])]
  {
  }

  predicate DocumentPosted(s: State, op: Op) {
    op in s.past.signed && op in s.past.launched ==>
      var b := Stash(op, Record(s.past.signed[op], s.past.launched[op]));
      b in s.queue || b in s.past.ran
  }

  lemma StepDocumentPosted(s: State, a: Action, op: Op)
    requires Inv(s) && DocumentPosted(s, op)
    ensures DocumentPosted(Step(s, a), op)
  {
    var t := Step(s, a);
    if op in s.past.signed {
      assert op in s.past.launched;
      var b := Stash(op, Record(s.past.signed[op], s.past.launched[op]));
      if a.RunBlock? && s.loop.Free? && s.queue != [] {
        assert s.queue == [s.queue[0]] + s.queue[1..];
        assert b in s.queue ==> b == s.queue[0] || b in t.queue;
        assert forall x | x in s.past.ran :: x in t.past.ran;
        assert s.queue[0] in t.past.ran;
      } else {
        assert s.queue <= t.queue;
        assert forall x | x in s.queue :: x in t.queue;
      }
    }
  }

  /** Every document signed is on its way to the store or has been there, for the caller
      that launched the operation. */
  lemma {:induction false} EveryDocumentPosted(s: State, acts: seq<Action>, op: Op)
    requires Inv(s) && DocumentPosted(s, op)
    ensures DocumentPosted(Run(s, acts), op)
    decreases |acts|
  {
    if acts != [] {
      StepDocumentPosted(s, acts[0], op);
      StepInv(s, acts[0]);
      EveryDocumentPosted(Step(s, acts[0]), acts[1..], op);
    }
  }

  // ---- documents of a client that left -----------------------------------------------------------

  /** The client is gone and the block that dropped its entries has run. */
  predicate Dropped(s: State, c: Caller) {
    c !in s.connected && Drop(c) in s.past.ran
  }

  /** An operation of the client can still sign, or a document it signed is on its way. */
  ghost predicate StillSigning(s: State, c: Caller) {
    || (exists op | CanSign(s, op) :: s.past.launched[op] == c)
    || (exists b | b in s.queue :: b.Stash? && b.record.owner == c)
  }

  ghost predicate Holds(s: State, c: Caller) {
    exists op | op in s.stores.results :: s.stores.results[op].owner == c
  }

  /** After these steps a document of the client is stored. */
  ghost predicate HoldsAfter(s: State, acts: seq<Action>, c: Caller) {
    Holds(Run(s, acts), c)
  }

  /** The client is gone and nothing of it is stored or can still be. */
  ghost predicate Quiet(s: State, c: Caller) {
    c in s.past.callers && c !in s.connected && !StillSigning(s, c) && !Holds(s, c)
  }

  lemma QuietTook(s: State, c: Caller)
    requires Quiet(s, c) && s.queue != []
    ensures Quiet(Took(s), c)
  {
    var t := Took(s);
    assert s.queue[0] in s.queue && forall b | b in t.queue :: b in s.queue;
    forall op
      ensures !(CanSign(t, op) && t.past.launched[op] == c)
    {
      assert CanSign(t, op) <==> CanSign(s, op);
    }
    forall op | op in t.stores.results
      ensures t.stores.results[op].owner != c
    {
      assert op in s.stores.results ==> s.stores.results[op].owner != c;
    }
  }

  lemma QuietPosted(s: State, t: State, b: Block, c: Caller)
    requires Quiet(s, c) && t.queue == s.queue + [b] && (b.Stash? ==> b.record.owner != c)
    requires t.stores == s.stores && c in t.past.callers && c !in t.connected
    requires forall op | CanSign(t, op) :: CanSign(s, op) && s.past.launched[op] == t.past.launched[op]
    ensures Quiet(t, c)
  {
    assert forall x | x in t.queue :: x in s.queue || x == b;
  }

  lemma QuietSame(s: State, t: State, c: Caller)
    requires Quiet(s, c) && t.queue == s.queue && t.stores.results == s.stores.results
    requires c in t.past.callers && c !in t.connected
    requires forall op | CanSign(t, op) && t.past.launched[op] == c :: CanSign(s, op) && s.past.launched[op] == c
    ensures Quiet(t, c)
  {
  }

  lemma {:induction false} QuietStep(s: State, a: Action, c: Caller)
    requires Inv(s) && Quiet(s, c)
    ensures Quiet(Step(s, a), c)
  {
    var t := Step(s, a);
    if t == s {
    } else if a.RunBlock? {
      QuietTook(s, c);
    } else if a.Signed? {
      assert CanSign(s, a.op);
      QuietPosted(s, t, Stash(a.op, Record(a.artifact, s.past.launched[a.op])), c);
    } else if a.Disconnect? {
      QuietPosted(s, t, Drop(a.caller), c);
    } else if a.Finishes? {
      QuietPosted(s, t, Prune(a.op), c);
    } else if a.GraceEnds? {
      QuietPosted(s, t, Evict(s.delays[a.i]), c);
    } else {
      QuietSame(s, t, c);
    }
  }

  lemma {:induction false} QuietForever(s: State, acts: seq<Action>, c: Caller)
    requires Inv(s) && Quiet(s, c)
    ensures !Holds(Run(s, acts), c)
    decreases |acts|
  {
    if acts != [] {
      QuietStep(s, acts[0], c);
      StepInv(s, acts[0]);
      QuietForever(Step(s, acts[0]), acts[1..], c);
    }
  }

  /** `n` blocks run. */
  function Blocks(n: nat): seq<Action> {
    seq(n, i requires 0 <= i < n => RunBlock)
  }

  lemma {:induction false} RunQueued(s: State, n: nat)
    requires s.loop.Free? && n < |s.queue| && s.queue[n].Stash?
    ensures Holds(Run(s, Blocks(n + 1)), s.queue[n].record.owner)
    decreases n
  {
    var t := Step(s, RunBlock);
    assert t == Took(s) && Blocks(n + 1)[0] == RunBlock;
    assert Blocks(n + 1)[1..] == Blocks(n);
    if n == 0 {
      assert Blocks(0) == [];
      assert Run(s, Blocks(1)) == t;
      assert s.queue[0].op in t.stores.results && t.stores.results[s.queue[0].op] == s.queue[0].record;
    } else {
      assert t.queue[n - 1] == s.queue[n];
      RunQueued(t, n - 1);
      assert Blocks(n - 1 + 1) == Blocks(n);
      assert Run(s, Blocks(n + 1)) == Run(t, Blocks(n));
    }
  }

  /** A document that can still be signed can still be stored. */
  lemma {:induction false} SignThenStore(s: State, op: Op)
    requires s.loop.Free? && CanSign(s, op)
    ensures HoldsAfter(s, [Signed(op, "document")] + Blocks(|s.queue| + 1), s.past.launched[op])
  {
    var t := Step(s, Signed(op, "document"));
    var n := |s.queue|;
    assert t.queue[n] == Stash(op, Record("document", s.past.launched[op]));
    RunQueued(t, n);
    var acts := [Signed(op, "document")] + Blocks(n + 1);
    assert acts[0] == Signed(op, "document") && acts[1..] == Blocks(n + 1);
    assert Run(s, acts) == Run(t, Blocks(n + 1));
  }

  /** The dropping of a client's entries is final exactly when none of its operations can
      still sign and no document of it is queued: otherwise a document is stored for a
      client that is gone, until its grace window ends. */
  lemma {:induction false} DropIsFinalExactlyWhen(s: State, c: Caller)
    requires Inv(s) && s.loop.Free? && Dropped(s, c) && !Holds(s, c)
    ensures (forall acts :: !HoldsAfter(s, acts, c)) <==> !StillSigning(s, c)
  {
    if StillSigning(s, c) {
      if b :| b in s.queue && b.Stash? && b.record.owner == c {
        var i :| 0 <= i < |s.queue| && s.queue[i] == b;
        RunQueued(s, i);
        assert HoldsAfter(s, Blocks(i + 1), c);
      } else {
        var op :| CanSign(s, op) && s.past.launched[op] == c;
        SignThenStore(s, op);
      }
    } else {
      assert BlockOk(s.past, Drop(c));
      forall acts
        ensures !HoldsAfter(s, acts, c)
      {
        QuietForever(s, acts, c);
      }
    }
  }

  lemma RunOne(s: State, a: seq<Action>)
    requires a != []
    ensures Run(s, a) == Run(Step(s, a[0]), a[1..])
  {
  }

  lemma {:induction false} RunAppend(s: State, a: seq<Action>, b: seq<Action>)
    ensures Run(s, a + b) == Run(Run(s, a), b)
    decreases |a|
  {
    if a == [] {
      assert a + b == b;
    } else {
      assert (a + b)[1..] == a[1..] + b;
      RunAppend(Step(s, a[0]), a[1..], b);
    }
  }

  lemma RunFive(s: State, a: seq<Action>)
    requires |a| == 5
    ensures Run(s, a) == Step(Step(Step(Step(Step(s, a[0]), a[1]), a[2]), a[3]), a[4])
  {
    RunOne(s, a);
    RunOne(Step(s, a[0]), a[1..]);
    var t := Step(Step(s, a[0]), a[1]);
    assert a[1..][1..] == a[2..] && a[2..][1..] == a[3..] && a[3..][1..] == a[4..] && a[4..][1..] == [];
    RunOne(t, a[2..]);
    RunOne(Step(t, a[2]), a[3..]);
    RunOne(Step(Step(t, a[2]), a[3]), a[4..]);
  }

  /** A client starts an operation, with or without the sink, and leaves; its drop runs. */
  lemma LeavesEarly(signs: bool) returns (acts: seq<Action>)
    ensures var s := Run(START, acts);
            && Inv(s) && s.loop.Free? && Dropped(s, 7) && !Holds(s, 7) && s.queue == []
            && 1 in s.running && 1 in s.past.launched && s.past.launched[1] == 7
            && (StillSigning(s, 7) <==> signs) && (CanSign(s, 1) <==> signs)
  {
    var s1 := Step(START, Connect(7));
    var s2 := Step(s1, LaunchBegins(7, 1, signs));
    var s3 := Step(s2, LaunchEnds);
    var s4 := Step(s3, Disconnect(7));
    var s5 := Step(s4, RunBlock);
    assert s4.queue == [Drop(7)] && s5.queue == [];
    acts := [Connect(7), LaunchBegins(7, 1, signs), LaunchEnds, Disconnect(7), RunBlock];
    RunFive(START, acts);
    assert Run(START, acts) == s5;
    RunInv(START, acts);
    assert CanSign(s5, 1) <==> signs;
    assert forall op | CanSign(s5, op) :: op == 1;
  }

  /** A document is stored for a client after its entries were dropped. */
  lemma DocumentOutlivesItsClient() returns (dropped: seq<Action>, acts: seq<Action>)
    ensures dropped <= acts && Dropped(Run(START, dropped), 7) && !Holds(Run(START, dropped), 7)
    ensures Holds(Run(START, acts), 7)
  {
    dropped := LeavesEarly(true);
    var s := Run(START, dropped);
    SignThenStore(s, 1);
    var more := [Signed(1, "document")] + Blocks(|s.queue| + 1);
    acts := dropped + more;
    RunAppend(START, dropped, more);
  }

  /** A client that leaves while an operation without the sink still runs leaves nothing. */
  lemma OtherOperationsStoreNothing() returns (acts: seq<Action>)
    ensures var s := Run(START, acts);
            && Dropped(s, 7) && 1 in s.running && 1 in s.past.launched && s.past.launched[1] == 7
            && forall more :: !HoldsAfter(s, more, 7)
  {
    acts := LeavesEarly(false);
    DropIsFinalExactlyWhen(Run(START, acts), 7);
  }

  // ---- the stores, as the frontend keeps them ----------------------------------------------------

  class Keeper {
    var opOwners: map<Op, Caller>
    var signResults: map<Op, Record>
    ghost var past: Past

    ghost function Value(): Stores
      reads this
    {
      Stores(opOwners, signResults)
    }

    /** The stores hold exactly what history says they should. */
    ghost predicate Valid()
      reads this
    {
      StoresOk(Value(), past) && forall op | op in past.entered :: op in past.launched
    }

    constructor ()
      ensures Valid() && Value() == START.stores && past == START.past
    {
      opOwners, signResults := map[], map[];
      past := START.past;
    }

    /** What happens outside the stores: a client connects, the launcher starts an
        operation for it, a worker hands over the one document of a signing. */
    ghost method Connected(caller: Caller)
      requires Valid()
      modifies this`past
      ensures Valid() && past == old(past).(callers := old(past).callers + {caller})
    {
      GrowsStores(Value(), past, past.(callers := past.callers + {caller}));
      past := past.(callers := past.callers + {caller});
    }

    ghost method Launches(caller: Caller, op: Op, signs: bool)
      requires Valid() && op !in past.launched
      modifies this`past
      ensures Valid() && past == Launched(old(past), caller, op, signs) && Prune(op) !in past.ran
    {
      assert Prune(op) in past.ran ==> BlockOk(past, Prune(op));
      GrowsStores(Value(), past, Launched(past, caller, op, signs));
      past := Launched(past, caller, op, signs);
    }

    ghost method HandsOver(op: Op, artifact: Artifact)
      requires Valid() && op in past.launched && op in past.signs && op !in past.signed
      modifies this`past
      ensures Valid() && past == old(past).(signed := old(past).signed[op := artifact])
      ensures BlockOk(past, Stash(op, Record(artifact, past.launched[op])))
    {
      GrowsStores(Value(), past, past.(signed := past.signed[op := artifact]));
      past := past.(signed := past.signed[op := artifact]);
    }

    /** `replyLaunched`; a refused launch (None) stores nothing. From now until its prune or
        its client's drop, the launch is its caller's to cancel and nobody else's. */
    method ReplyLaunched(caller: Caller, launched: Option<Op>)
      requires Valid()
      requires launched.Some? ==>
                 && launched.value in past.launched && past.launched[launched.value] == caller
                 && Prune(launched.value) !in past.ran && Drop(caller) !in past.ran
      modifies this
      ensures Valid() && signResults == old(signResults)
      ensures past == if launched.Some? then old(past).(entered := old(past).entered + {launched.value}) else old(past)
      ensures launched.Some? ==> forall c :: MayCancel(Value(), c, launched.value) <==> c == caller
      ensures forall c, op | launched != Some(op) :: MayCancel(Value(), c, op) <==> MayCancel(old(Value()), c, op)
    {
      if launched.Some? {
        EnterOk(Value(), past, launched.value);
        opOwners := opOwners[launched.value := caller];
        past := past.(entered := past.entered + {launched.value});
      }
    }

    /** The posted blocks: `stashSignArtifact`, `evictSignResult`, the prune of
        `makeOpFinishedSink` and the block of `onClientDisconnected`. */
    method RunPosted(b: Block)
      requires Valid() && BlockOk(past, b)
      modifies this
      ensures Valid() && past == Ran(old(past), b) && Value() == Apply(old(Value()), b)
    {
      ApplyOwners(Value(), past, b);
      ApplyResults(Value(), past, b);
      past := Ran(past, b);
      match b
      case Stash(op, r) => signResults := signResults[op := r];
      case Prune(op) => opOwners := opOwners - {op};
      case Evict(op) => signResults := signResults - {op};
      case Drop(c) =>
        opOwners := map op | op in opOwners && opOwners[op] != c :: opOwners[op];
        signResults := map op | op in signResults && signResults[op].owner != c :: signResults[op];
    }

    /** `handleCancel`: the operation manager is told exactly for an operation this caller
        launched that is neither pruned nor dropped with its client. */
    method HandleCancel(caller: Caller, op: Op) returns (told: bool)
      requires Valid()
      ensures told <==> LiveFor(past, caller, op)
    {
      told := op in opOwners && opOwners[op] == caller;
      assert told ==> LiveFor(past, opOwners[op], op);
      assert LiveFor(past, caller, op) ==> op in past.launched && op in opOwners && LiveFor(past, opOwners[op], op);
    }

    /** `handleGetSignResult`: the document this very operation signed, exactly when this
        caller launched it and the document is still kept. */
    method HandleGetSignResult(caller: Caller, op: Op) returns (r: Option<Artifact>)
      requires Valid()
      ensures r.Some? <==> op in past.launched && past.launched[op] == caller && Kept(past.ran, op)
      ensures r.Some? ==> op in past.signed && r.value == past.signed[op]
    {
      if op !in signResults || signResults[op].owner != caller {
        return None;
      }
      r := Some(signResults[op].artifact);
    }
  }
}
