/**
 The transport's presence directory as values: object ids and the opaque handles
 clients see, the published readers and cards, the routing of each card, and the
 events subscribers are sent. The class that keeps it is in module Directory.
 */
module Presence {
  import opened Wrappers

  /** Reader and card ids are disjoint, and a card id names one insertion. */
  datatype ObjectId = ReaderId(n: int) | CardId(n: int)

  /** The wire handle `obj/<n>`, by its number. */
  type Handle = int

  /** The label a client shows, or a card's capabilities: opaque here. */
  type Blob = string

  /** A handle, or none. */
  datatype Link = Nothing | To(handle: Handle)

  datatype Reader = Reader(name: string, hasCard: bool, card: Link, shown: Blob)

  datatype Card = Card(reader: Handle, cardType: Option<string>, caps: Blob)

  /** `cardKey` is the card id itself (the source stringifies it). */
  datatype Routing = Routing(cardKey: ObjectId, readerId: ObjectId, readerName: string)

  /** What subscribers are told. A property event without a card key says the slot is
      empty: `inSlot` is Nothing. */
  datatype Event =
    | ReaderAdded(handle: Handle, reader: Reader)
    | CardAdded(handle: Handle, card: Card)
    | ReaderRemoved(handle: Handle)
    | CardRemoved(handle: Handle)
    | ReaderProperties(handle: Handle, hasCard: bool, inSlot: Link)
    | ReaderLabel(handle: Handle, shown: Blob)
    | CardTypeKnown(handle: Handle, cardType: string)

  /** The two handle maps and the counter. `owner` is history: every handle ever
      made, and the object it was made for. */
  datatype Book = Book(toHandle: map<ObjectId, Handle>, toId: map<Handle, ObjectId>, next: int,
                       owner: map<Handle, ObjectId>)

  /** The published objects. */
  datatype Shelf = Shelf(readers: map<Handle, Reader>, cards: map<Handle, Card>, routing: map<Handle, Routing>)

  datatype Dir = Dir(book: Book, shelf: Shelf, sent: seq<Event>)

  datatype Op =
    | PublishReader(reader: int, name: string, hasCard: bool, inSlot: Option<int>, shown: Blob)
    | PublishCard(card: int, host: int, cardType: string, caps: Blob)
    | Withdraw(gone: ObjectId)
    | UpdateProperties(reader: int, present: bool, inSlot: Option<int>)
    | RelabelReader(reader: int, shown: Blob)
    | UpdateCardType(handle: Handle, cardType: string)

  // ---- what each operation does -----------------------------------------------

  const EMPTY := Dir(Book(map[], map[], 1, map[]), Shelf(map[], map[], map[]), [])

  /** `handleFor`: made on first use. */
  function Mint(b: Book, id: ObjectId): Book {
    if id in b.toHandle then b
    else Book(b.toHandle[id := b.next], b.toId[b.next := id], b.next + 1, b.owner[b.next := id])
  }

  function MintCard(b: Book, card: Option<int>): Book {
    if card.Some? then Mint(b, CardId(card.value)) else b
  }

  function CardHandle(b: Book, card: Option<int>): Link {
    if card.Some? && CardId(card.value) in b.toHandle then To(b.toHandle[CardId(card.value)]) else Nothing
  }

  function Forget(b: Book, id: ObjectId): Book
    requires id in b.toHandle
  {
    b.(toHandle := b.toHandle - {id}, toId := b.toId - {b.toHandle[id]})
  }

  function WithReader(s: Shelf, h: Handle, r: Reader): Shelf {
    s.(readers := s.readers[h := r])
  }

  function WithCard(s: Shelf, h: Handle, c: Card, r: Routing): Shelf {
    s.(cards := s.cards[h := c], routing := s.routing[h := r])
  }

  function DoPublishReader(d: Dir, id: int, name: string, hasCard: bool, card: Option<int>, shown: Blob): Dir {
    var b := MintCard(Mint(d.book, ReaderId(id)), card);
    var h := b.toHandle[ReaderId(id)];
    var r := Reader(name, hasCard, CardHandle(b, card), shown);
    Dir(b, WithReader(d.shelf, h, r), d.sent + [ReaderAdded(h, r)])
  }

  function DoPublishCard(d: Dir, id: int, host: int, cardType: string, caps: Blob): Dir {
    var b := Mint(Mint(d.book, CardId(id)), ReaderId(host));
    var h := b.toHandle[CardId(id)];
    var rh := b.toHandle[ReaderId(host)];
    var c := Card(rh, if cardType == "" then None else Some(cardType), caps);
    var name := if rh in d.shelf.readers then d.shelf.readers[rh].name else "";
    Dir(b, WithCard(d.shelf, h, c, Routing(CardId(id), ReaderId(host), name)), d.sent + [CardAdded(h, c)])
  }

  function DoWithdraw(d: Dir, id: ObjectId): Dir {
    if id !in d.book.toHandle then d
    else
      var h := d.book.toHandle[id];
      if h in d.shelf.readers then
        Dir(Forget(d.book, id), d.shelf.(readers := d.shelf.readers - {h}), d.sent + [ReaderRemoved(h)])
      else if h in d.shelf.cards then
        Dir(Forget(d.book, id), Shelf(d.shelf.readers, d.shelf.cards - {h}, d.shelf.routing - {h}),
            d.sent + [CardRemoved(h)])
      else
        d.(book := Forget(d.book, id))
  }

  /** The handle of a published reader. */
  function Shown(d: Dir, reader: int): Link {
    if ReaderId(reader) in d.book.toHandle && d.book.toHandle[ReaderId(reader)] in d.shelf.readers
    then To(d.book.toHandle[ReaderId(reader)]) else Nothing
  }

  function DoUpdateProperties(d: Dir, id: int, present: bool, card: Option<int>): Dir {
    var at := Shown(d, id);
    if at.Nothing? then d
    else
      var slot := if present then card else None;
      var b := MintCard(d.book, slot);
      var k := CardHandle(b, slot);
      Dir(b, WithReader(d.shelf, at.handle, d.shelf.readers[at.handle].(hasCard := present, card := k)),
          d.sent + [ReaderProperties(at.handle, present, k)])
  }

  function DoRelabelReader(d: Dir, id: int, shown: Blob): Dir {
    var at := Shown(d, id);
    if at.Nothing? || d.shelf.readers[at.handle].shown == shown then d
    else d.(shelf := WithReader(d.shelf, at.handle, d.shelf.readers[at.handle].(shown := shown)),
            sent := d.sent + [ReaderLabel(at.handle, shown)])
  }

  function DoUpdateCardType(d: Dir, h: Handle, cardType: string): Dir {
    if h !in d.shelf.cards || d.shelf.cards[h].cardType == Some(cardType) then d
    else d.(shelf := d.shelf.(cards := d.shelf.cards[h := d.shelf.cards[h].(cardType := Some(cardType))]),
            sent := d.sent + [CardTypeKnown(h, cardType)])
  }

  function Do(d: Dir, op: Op): Dir {
    match op
    case PublishReader(id, name, has, card, shown) => DoPublishReader(d, id, name, has, card, shown)
    case PublishCard(id, host, t, caps) => DoPublishCard(d, id, host, t, caps)
    case Withdraw(id) => DoWithdraw(d, id)
    case UpdateProperties(id, present, card) => DoUpdateProperties(d, id, present, card)
    case RelabelReader(id, shown) => DoRelabelReader(d, id, shown)
    case UpdateCardType(h, t) => DoUpdateCardType(d, h, t)
  }

  function Run(d: Dir, ops: seq<Op>): Dir
    decreases |ops|
  {
    if ops == [] then d else Run(Do(d, ops[0]), ops[1..])
  }

  /** `readerCard`: the key of the card in a reader's slot, through the handle the
      reader carries. */
  function ReaderCard(d: Dir, h: Handle): Option<ObjectId> {
    if h in d.shelf.readers && h in d.book.toId && d.shelf.readers[h].card.To?
       && d.shelf.readers[h].card.handle in d.book.toId
    then Some(d.book.toId[d.shelf.readers[h].card.handle]) else None
  }

  // ---- the invariant ------------------------------------------------------------

  /** The two maps are inverse, agree with the history, and nothing made so far
      reaches the counter. */
  predicate BookOk(b: Book) {
    && (forall id | id in b.toHandle :: b.toHandle[id] in b.toId && b.toId[b.toHandle[id]] == id)
    && (forall h | h in b.toId :: b.toId[h] in b.toHandle && b.toHandle[b.toId[h]] == h)
    && (forall h | h in b.toId :: h in b.owner && b.owner[h] == b.toId[h])
    && (forall h | h in b.owner :: h < b.next)
  }

  predicate ReadersOk(readers: map<Handle, Reader>, b: Book) {
    && (forall h | h in readers :: h in b.toId && b.toId[h].ReaderId?)
    && (forall h | h in readers :: SlotOk(readers[h], b))
  }

  predicate SlotOk(r: Reader, b: Book) {
    r.card.To? ==> r.card.handle in b.owner && b.owner[r.card.handle].CardId?
  }

  /** Cards and routing have the same handles, each routing entry carries its own
      card's id as key, and the card's reader handle was made for the reader the
      routing names. */
  ghost predicate CardsOk(cards: map<Handle, Card>, routing: map<Handle, Routing>, b: Book) {
    && (forall h :: h in cards <==> h in routing)
    && (forall h | h in cards :: h in b.toId && b.toId[h].CardId?)
    && (forall h | h in cards :: h in routing && RouteOk(cards[h], routing[h], b))
    && (forall h | h in cards && h in routing && h in b.toId :: routing[h].cardKey == b.toId[h])
  }

  predicate RouteOk(c: Card, r: Routing, b: Book) {
    r.readerId.ReaderId? && c.reader in b.owner && b.owner[c.reader] == r.readerId
  }

  ghost predicate DirOk(d: Dir) {
    BookOk(d.book) && ReadersOk(d.shelf.readers, d.book) && CardsOk(d.shelf.cards, d.shelf.routing, d.book)
  }

  /** Handles keep their meaning. */
  predicate Grows(b: Book, c: Book) {
    && b.next <= c.next
    && (forall h | h in b.owner :: h in c.owner && c.owner[h] == b.owner[h])
    && (forall h | h in c.owner && h !in b.owner :: b.next <= h)
  }

  /** Nothing on the shelf loses its id. */
  predicate Kept(b: Book, c: Book) {
    forall h | h in b.toId :: h in c.toId && c.toId[h] == b.toId[h]
  }

  lemma MintOk(b: Book, id: ObjectId)
    requires BookOk(b)
    ensures BookOk(Mint(b, id)) && Grows(b, Mint(b, id)) && Kept(b, Mint(b, id))
    ensures id in Mint(b, id).toHandle
    ensures forall o | o in b.toHandle :: o in Mint(b, id).toHandle && Mint(b, id).toHandle[o] == b.toHandle[o]
  {
  }

  lemma MintCardOk(b: Book, card: Option<int>)
    requires BookOk(b)
    ensures BookOk(MintCard(b, card)) && Grows(b, MintCard(b, card)) && Kept(b, MintCard(b, card))
    ensures card.Some? ==> CardId(card.value) in MintCard(b, card).toHandle
    ensures forall o | o in b.toHandle ::
              o in MintCard(b, card).toHandle && MintCard(b, card).toHandle[o] == b.toHandle[o]
    ensures forall r: Reader | r.card == CardHandle(MintCard(b, card), card) :: SlotOk(r, MintCard(b, card))
  {
  }

  lemma GrowsCards(cards: map<Handle, Card>, routing: map<Handle, Routing>, b: Book, c: Book)
    requires CardsOk(cards, routing, b) && Grows(b, c) && Kept(b, c)
    ensures CardsOk(cards, routing, c)
  {
  }

  lemma GrowsTwice(b: Book, c: Book, d: Book)
    requires Grows(b, c) && Grows(c, d)
    ensures Grows(b, d)
    ensures Kept(b, c) && Kept(c, d) ==> Kept(b, d)
  {
  }

  lemma PublishReaderOk(d: Dir, id: int, name: string, hasCard: bool, card: Option<int>, shown: Blob)
    requires DirOk(d)
    ensures DirOk(DoPublishReader(d, id, name, hasCard, card, shown))
    ensures Grows(d.book, DoPublishReader(d, id, name, hasCard, card, shown).book)
  {
    var m := Mint(d.book, ReaderId(id));
    var b := MintCard(m, card);
    MintOk(d.book, ReaderId(id));
    MintCardOk(m, card);
    GrowsTwice(d.book, m, b);
    GrowsCards(d.shelf.cards, d.shelf.routing, d.book, b);
  }

  lemma PublishCardOk(d: Dir, id: int, host: int, cardType: string, caps: Blob)
    requires DirOk(d)
    ensures DirOk(DoPublishCard(d, id, host, cardType, caps))
    ensures Grows(d.book, DoPublishCard(d, id, host, cardType, caps).book)
  {
    var m := Mint(d.book, CardId(id));
    var b := Mint(m, ReaderId(host));
    MintOk(d.book, CardId(id));
    MintOk(m, ReaderId(host));
    GrowsTwice(d.book, m, b);
    GrowsCards(d.shelf.cards, d.shelf.routing, d.book, b);
    AddCard(d.shelf, b, id, host, DoPublishCard(d, id, host, cardType, caps).shelf);
  }

  lemma AddCard(s: Shelf, b: Book, id: int, host: int, t: Shelf)
    requires BookOk(b) && CardsOk(s.cards, s.routing, b)
    requires CardId(id) in b.toHandle && ReaderId(host) in b.toHandle
    requires exists c: Card, r: Routing :: c.reader == b.toHandle[ReaderId(host)] && r.cardKey == CardId(id)
                && r.readerId == ReaderId(host) && t == WithCard(s, b.toHandle[CardId(id)], c, r)
    ensures CardsOk(t.cards, t.routing, b)
  {
  }

  lemma WithdrawOk(d: Dir, id: ObjectId)
    requires DirOk(d)
    ensures DirOk(DoWithdraw(d, id))
    ensures Grows(d.book, DoWithdraw(d, id).book)
  {
    if id in d.book.toHandle {
      var h := d.book.toHandle[id];
      Absent(d.shelf.readers, h);
      Absent(d.shelf.cards, h);
      Absent(d.shelf.routing, h);
    }
  }

  lemma Absent<V>(m: map<Handle, V>, h: Handle)
    ensures h !in m ==> m - {h} == m
  {
  }

  lemma UpdatePropertiesOk(d: Dir, id: int, present: bool, card: Option<int>)
    requires DirOk(d)
    ensures DirOk(DoUpdateProperties(d, id, present, card))
    ensures Grows(d.book, DoUpdateProperties(d, id, present, card).book)
  {
    if Shown(d, id).To? {
      var slot := if present then card else None;
      var b := MintCard(d.book, slot);
      MintCardOk(d.book, slot);
      GrowsCards(d.shelf.cards, d.shelf.routing, d.book, b);
    }
  }

  /** Every operation keeps the directory consistent and every handle's meaning. */
  lemma DoOk(d: Dir, op: Op)
    requires DirOk(d)
    ensures DirOk(Do(d, op)) && Grows(d.book, Do(d, op).book)
  {
    match op
    case PublishReader(id, name, has, card, shown) => PublishReaderOk(d, id, name, has, card, shown);
    case PublishCard(id, host, t, caps) => PublishCardOk(d, id, host, t, caps);
    case Withdraw(id) => WithdrawOk(d, id);
    case UpdateProperties(id, present, card) => UpdatePropertiesOk(d, id, present, card);
    case RelabelReader(id, shown) =>
    case UpdateCardType(h, t) =>
  }

  /** Over every run: the maps stay inverse and consistent, and no handle is ever
      given to a second object. */
  lemma {:induction false} RunOk(d: Dir, ops: seq<Op>)
    requires DirOk(d)
    ensures DirOk(Run(d, ops)) && Grows(d.book, Run(d, ops).book)
    decreases |ops|
  {
    if ops != [] {
      DoOk(d, ops[0]);
      RunOk(Do(d, ops[0]), ops[1..]);
      GrowsTwice(d.book, Do(d, ops[0]).book, Run(d, ops).book);
    }
  }

  /** From an empty directory, the two maps are mutually inverse after any run. */
  lemma MapsInverse(ops: seq<Op>, id: ObjectId, h: Handle)
    ensures var b := Run(EMPTY, ops).book;
            (id in b.toHandle && b.toHandle[id] == h) <==> (h in b.toId && b.toId[h] == id)
  {
    RunOk(EMPTY, ops);
  }

  /** A handle that named an object at one moment names that object or nothing at
      every later one, whatever was withdrawn and published between. */
  lemma HandleNeverReused(ops: seq<Op>, more: seq<Op>, h: Handle)
    ensures var b := Run(EMPTY, ops).book;
            var c := Run(Run(EMPTY, ops), more).book;
            h in b.toId && h in c.toId ==> c.toId[h] == b.toId[h]
  {
    RunOk(EMPTY, ops);
    RunOk(Run(EMPTY, ops), more);
  }

  /** The card handle a reader carries may go stale; through it the reader never
      answers with another card than the one the handle was made for. */
  lemma StaleHandle(ops: seq<Op>, more: seq<Op>, h: Handle, r: Handle)
    ensures var d := Run(EMPTY, ops);
            var e := Run(d, more);
            h in d.shelf.readers && d.shelf.readers[h].card.To? && r in e.shelf.readers
            && e.shelf.readers[r].card == d.shelf.readers[h].card ==>
              var k := d.shelf.readers[h].card.handle;
              && k in d.book.owner && d.book.owner[k].CardId?
              && (ReaderCard(e, r).None? || ReaderCard(e, r) == Some(d.book.owner[k]))
              && (ReaderCard(e, r).None? <==> k !in e.book.toId)
  {
    var d := Run(EMPTY, ops);
    RunOk(EMPTY, ops);
    RunOk(d, more);
    if h in d.shelf.readers {
      assert SlotOk(d.shelf.readers[h], d.book);
    }
  }

  // ---- what subscribers hold ------------------------------------------------------

  /** What a client holds: the snapshot, kept up with the events. */
  datatype Client = Client(readers: map<Handle, Reader>, cards: map<Handle, Card>)

  /** `currentState` */
  function Snapshot(d: Dir): Client {
    Client(d.shelf.readers, d.shelf.cards)
  }

  function Apply(c: Client, e: Event): Client {
    match e
    case ReaderAdded(h, r) => c.(readers := c.readers[h := r])
    case CardAdded(h, k) => c.(cards := c.cards[h := k])
    case ReaderRemoved(h) => c.(readers := c.readers - {h})
    case CardRemoved(h) => c.(cards := c.cards - {h})
    case ReaderProperties(h, has, card) =>
      if h in c.readers then c.(readers := c.readers[h := c.readers[h].(hasCard := has, card := card)]) else c
    case ReaderLabel(h, l) =>
      if h in c.readers then c.(readers := c.readers[h := c.readers[h].(shown := l)]) else c
    case CardTypeKnown(h, t) =>
      if h in c.cards then c.(cards := c.cards[h := c.cards[h].(cardType := Some(t))]) else c
  }

  function ApplyAll(c: Client, es: seq<Event>): Client
    decreases |es|
  {
    if es == [] then c else ApplyAll(Apply(c, es[0]), es[1..])
  }

  lemma {:induction false} ApplyAppend(c: Client, es: seq<Event>, fs: seq<Event>)
    ensures ApplyAll(c, es + fs) == ApplyAll(ApplyAll(c, es), fs)
    decreases |es|
  {
    if es == [] {
      assert es + fs == fs;
    } else {
      assert (es + fs)[1..] == es[1..] + fs;
      ApplyAppend(Apply(c, es[0]), es[1..], fs);
    }
  }

  /** One operation tells subscribers exactly what it changed. */
  lemma DoTells(d: Dir, op: Op)
    ensures d.sent <= Do(d, op).sent && |Do(d, op).sent| <= |d.sent| + 1
    ensures ApplyAll(Snapshot(d), Do(d, op).sent[|d.sent|..]) == Snapshot(Do(d, op))
  {
  }

  /** A client that took the snapshot at any moment and applied every event since
      holds the snapshot of now. */
  lemma {:induction false} ClientCatchesUp(d: Dir, ops: seq<Op>)
    ensures d.sent <= Run(d, ops).sent
    ensures ApplyAll(Snapshot(d), Run(d, ops).sent[|d.sent|..]) == Snapshot(Run(d, ops))
    decreases |ops|
  {
    if ops == [] {
      assert d.sent[|d.sent|..] == [];
    } else {
      var e := Do(d, ops[0]);
      var all := Run(d, ops).sent;
      DoTells(d, ops[0]);
      ClientCatchesUp(e, ops[1..]);
      assert all[|d.sent|..] == e.sent[|d.sent|..] + all[|e.sent|..];
      ApplyAppend(Snapshot(d), e.sent[|d.sent|..], all[|e.sent|..]);
    }
  }

  // ---- what ends up on the shelf ----------------------------------------------------------

  /** Every reader but the one at `h` is as it was. */
  ghost predicate OtherReadersKept(d: Dir, e: Dir, h: Handle) {
    forall x | x != h :: (x in e.shelf.readers <==> x in d.shelf.readers)
                         && (x in d.shelf.readers ==> e.shelf.readers[x] == d.shelf.readers[x])
  }

  ghost predicate OtherCardsKept(d: Dir, e: Dir, h: Handle) {
    forall x | x != h :: (x in e.shelf.cards <==> x in d.shelf.cards)
                         && (x in d.shelf.cards && x in d.shelf.routing && x in e.shelf.routing ==>
                               e.shelf.cards[x] == d.shelf.cards[x] && e.shelf.routing[x] == d.shelf.routing[x])
  }

  /** The slot of reader `r` shows `card`. */
  predicate InSlot(b: Book, r: Reader, card: Option<int>) {
    if card.None? then r.card == Nothing
    else CardId(card.value) in b.toHandle && r.card == To(b.toHandle[CardId(card.value)])
  }

  /** A published reader is on the shelf as it was described, under the handle it already
      had if it had one, and nothing else on the shelf changes. */
  lemma PublishedReaderIs(d: Dir, id: int, name: string, hasCard: bool, card: Option<int>, shown: Blob)
    requires DirOk(d)
    ensures var e := Do(d, PublishReader(id, name, hasCard, card, shown));
            && ReaderId(id) in e.book.toHandle
            && var h := e.book.toHandle[ReaderId(id)];
            && (ReaderId(id) in d.book.toHandle ==> h == d.book.toHandle[ReaderId(id)])
            && h in e.shelf.readers && e.shelf.readers[h].name == name && e.shelf.readers[h].hasCard == hasCard
            && e.shelf.readers[h].shown == shown && InSlot(e.book, e.shelf.readers[h], card)
            && OtherReadersKept(d, e, h) && e.shelf.cards == d.shelf.cards && e.shelf.routing == d.shelf.routing
            && e.sent == d.sent + [ReaderAdded(h, e.shelf.readers[h])]
  {
    var m := Mint(d.book, ReaderId(id));
    MintOk(d.book, ReaderId(id));
    MintCardOk(m, card);
  }

  /** A published card names its reader's handle, its type unless that is empty, and its
      capabilities; requests for it are routed to that reader, by the name it is published
      under. */
  lemma PublishedCardIs(d: Dir, id: int, host: int, cardType: string, caps: Blob)
    requires DirOk(d)
    ensures var e := Do(d, PublishCard(id, host, cardType, caps));
            && CardId(id) in e.book.toHandle && ReaderId(host) in e.book.toHandle
            && var h := e.book.toHandle[CardId(id)]; var rh := e.book.toHandle[ReaderId(host)];
            && (CardId(id) in d.book.toHandle ==> h == d.book.toHandle[CardId(id)])
            && h in e.shelf.cards && h in e.shelf.routing
            && e.shelf.cards[h].reader == rh && e.shelf.cards[h].caps == caps
            && (e.shelf.cards[h].cardType.None? <==> cardType == "")
            && (cardType != "" ==> e.shelf.cards[h].cardType.value == cardType)
            && e.shelf.routing[h].cardKey == CardId(id) && e.shelf.routing[h].readerId == ReaderId(host)
            && (rh in d.shelf.readers ==> e.shelf.routing[h].readerName == d.shelf.readers[rh].name)
            && (rh !in d.shelf.readers ==> e.shelf.routing[h].readerName == "")
            && OtherCardsKept(d, e, h) && e.shelf.readers == d.shelf.readers
            && e.sent == d.sent + [CardAdded(h, e.shelf.cards[h])]
  {
    MintOk(d.book, CardId(id));
    MintOk(Mint(d.book, CardId(id)), ReaderId(host));
  }

  /** A withdrawn object has no handle and is on no shelf; nothing else changes. What had no
      handle changes nothing. */
  lemma WithdrawnIsGone(d: Dir, id: ObjectId)
    requires DirOk(d)
    ensures var e := Do(d, Withdraw(id));
            && id !in e.book.toHandle
            && (id !in d.book.toHandle ==> e == d)
            && (id in d.book.toHandle ==>
                  var h := d.book.toHandle[id];
                  && h !in e.shelf.readers && h !in e.shelf.cards && h !in e.shelf.routing && h !in e.book.toId
                  && OtherReadersKept(d, e, h) && OtherCardsKept(d, e, h))
  {
  }

  /** The properties of a published reader are the new ones, an empty slot without a card;
      its name and label stay. */
  lemma UpdatedPropertiesAre(d: Dir, id: int, present: bool, card: Option<int>)
    requires DirOk(d)
    ensures var e := Do(d, UpdateProperties(id, present, card));
            if ReaderId(id) in d.book.toHandle && d.book.toHandle[ReaderId(id)] in d.shelf.readers then
              var h := d.book.toHandle[ReaderId(id)];
              && h in e.shelf.readers && e.shelf.readers[h].hasCard == present
              && InSlot(e.book, e.shelf.readers[h], if present then card else None)
              && e.shelf.readers[h].name == d.shelf.readers[h].name
              && e.shelf.readers[h].shown == d.shelf.readers[h].shown
              && OtherReadersKept(d, e, h) && e.shelf.cards == d.shelf.cards && e.shelf.routing == d.shelf.routing
            else e == d
  {
    var slot := if present then card else None;
    MintCardOk(d.book, slot);
  }

  /** A published reader shows the new label and is otherwise as it was; subscribers hear of
      it exactly when the label changed. */
  lemma RelabelledReaderIs(d: Dir, id: int, shown: Blob)
    requires DirOk(d)
    ensures var e := Do(d, RelabelReader(id, shown));
            if ReaderId(id) in d.book.toHandle && d.book.toHandle[ReaderId(id)] in d.shelf.readers then
              var h := d.book.toHandle[ReaderId(id)];
              && h in e.shelf.readers && e.shelf.readers[h] == d.shelf.readers[h].(shown := shown)
              && OtherReadersKept(d, e, h) && e.shelf.cards == d.shelf.cards && e.shelf.routing == d.shelf.routing
              && e.sent == d.sent + if d.shelf.readers[h].shown == shown then [] else [ReaderLabel(h, shown)]
            else e == d
  {
  }

  lemma CardTypeIs(d: Dir, h: Handle, cardType: string)
    ensures var e := Do(d, UpdateCardType(h, cardType));
            if h in d.shelf.cards then
              && h in e.shelf.cards && e.shelf.cards[h].cardType.Some? && e.shelf.cards[h].cardType.value == cardType
              && e.shelf.cards[h].reader == d.shelf.cards[h].reader && e.shelf.cards[h].caps == d.shelf.cards[h].caps
              && OtherCardsKept(d, e, h) && e.shelf.readers == d.shelf.readers && e.shelf.routing == d.shelf.routing
            else e == d
  {
  }
}
