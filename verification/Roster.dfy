/**
 Which cards are published for which readers, and the roster snapshot made from
 them (`rebuildRoster`).
 */
module Roster {
  import opened Wrappers
  import opened Presence

  /** One line of the snapshot: a reader's name and the key of the card in it. */
  datatype Row = Row(readerName: string, cardKey: Option<ObjectId>)

  /** Card `c`, inserted in reader `r`, is published. */
  predicate Published(d: Dir, c: int, r: int) {
    && CardId(c) in d.book.toHandle && d.book.toHandle[CardId(c)] in d.shelf.routing
    && d.shelf.routing[d.book.toHandle[CardId(c)]].readerId == ReaderId(r)
  }

  /** At most one published card names a reader. */
  ghost predicate OneCardEach(d: Dir) {
    forall c, e, r | Published(d, c, r) && Published(d, e, r) :: c == e
  }

  // ---- what each operation does to the published cards -----------------------------

  lemma PublishCardAdds(d: Dir, id: int, host: int, cardType: string, caps: Blob, c: int, r: int)
    requires DirOk(d)
    ensures Published(DoPublishCard(d, id, host, cardType, caps), c, r)
            <==> if c == id then r == host else Published(d, c, r)
  {
  }

  lemma WithdrawRemoves(d: Dir, id: ObjectId, c: int, r: int)
    requires DirOk(d)
    ensures Published(DoWithdraw(d, id), c, r) <==> Published(d, c, r) && CardId(c) != id
  {
  }

  predicate SparesCards(op: Op) {
    !op.PublishCard? && !(op.Withdraw? && op.gone.CardId?)
  }

  /** Readers coming, going and changing leave the published cards alone. */
  lemma OthersKeep(d: Dir, op: Op, c: int, r: int)
    requires DirOk(d) && SparesCards(op)
    ensures Published(Do(d, op), c, r) <==> Published(d, c, r)
  {
    match op
    case PublishReader(id, name, has, card, shown) =>
    case PublishCard(_, _, _, _) =>
    case Withdraw(id) => WithdrawRemoves(d, id, c, r);
    case UpdateProperties(id, present, card) =>
    case RelabelReader(id, shown) =>
    case UpdateCardType(h, t) =>
  }

  // ---- the snapshot -----------------------------------------------------------------

  /** A card object that names this reader, with its key. */
  predicate Names(s: Shelf, h: Handle, key: ObjectId) {
    exists c | c in s.cards :: s.cards[c].reader == h && c in s.routing && s.routing[c].cardKey == key
  }

  predicate RowOk(row: Row, h: Handle, s: Shelf) {
    && h in s.readers && row.readerName == s.readers[h].name
    && (if row.cardKey.Some? then Names(s, h, row.cardKey.value) else forall c | c in s.cards :: s.cards[c].reader != h)
  }

  /** The snapshot lists every published reader once, with its name and the key of
      a card object that names it, or none when no card object does. */
  predicate RosterOk(rows: seq<Row>, order: seq<Handle>, s: Shelf) {
    && |rows| == |order|
    && (forall h | h in s.readers :: h in order)
    && (forall i, j | 0 <= i < j < |order| :: order[i] != order[j])
    && (forall i | 0 <= i < |order| :: RowOk(rows[i], order[i], s))
  }

  /** With one published card per reader id, one card object per reader handle. */
  lemma OneNames(d: Dir, x: Handle, y: Handle)
    requires DirOk(d) && OneCardEach(d)
    requires x in d.shelf.cards && y in d.shelf.cards && d.shelf.cards[x].reader == d.shelf.cards[y].reader
    ensures x == y
  {
    var c, e := d.book.toId[x], d.book.toId[y];
    assert RouteOk(d.shelf.cards[x], d.shelf.routing[x], d.book);
    assert RouteOk(d.shelf.cards[y], d.shelf.routing[y], d.book);
    assert Published(d, c.n, d.shelf.routing[x].readerId.n);
    assert Published(d, e.n, d.shelf.routing[x].readerId.n);
  }

  /** The first match is the only match: whatever order the maps are walked in, a
      reader's line comes out the same. */
  lemma RosterDetermined(d: Dir, rows: seq<Row>, order: seq<Handle>, rows': seq<Row>, order': seq<Handle>,
                         i: int, j: int)
    requires DirOk(d) && OneCardEach(d)
    requires RosterOk(rows, order, d.shelf) && RosterOk(rows', order', d.shelf)
    requires 0 <= i < |order| && 0 <= j < |order'| && order[i] == order'[j]
    ensures rows[i] == rows'[j]
  {
    var h := order[i];
    assert RowOk(rows[i], h, d.shelf) && RowOk(rows'[j], h, d.shelf);
    if rows[i].cardKey.Some? && rows'[j].cardKey.Some? {
      var s := d.shelf;
      var x :| x in s.cards && s.cards[x].reader == h && s.routing[x].cardKey == rows[i].cardKey.value;
      var y :| y in s.cards && s.cards[y].reader == h && s.routing[y].cardKey == rows'[j].cardKey.value;
      OneNames(d, x, y);
    }
  }

  /** The roster reads nothing that property and label changes touch, so a snapshot
      taken before them is still the one the maps give. */
  lemma RosterSurvives(d: Dir, op: Op, rows: seq<Row>, order: seq<Handle>)
    requires RosterOk(rows, order, d.shelf)
    requires op.UpdateProperties? || op.RelabelReader? || op.UpdateCardType?
    ensures RosterOk(rows, order, Do(d, op).shelf)
  {
  }
}
