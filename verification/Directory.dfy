/**
 The directory as the transport keeps it: maps updated in place on the loop, and a
 roster snapshot rebuilt whenever a reader or card comes or goes.
 */
module Directory {
  import opened Wrappers
  import opened Presence
  import opened Roster

  class Directory {
    var readers: map<Handle, Reader>
    var cards: map<Handle, Card>
    var routing: map<Handle, Routing>
    var idToHandle: map<ObjectId, Handle>
    var handleToId: map<Handle, ObjectId>
    var nextHandle: int
    var roster: seq<Row>
    ghost var order: seq<Handle>
    ghost var owner: map<Handle, ObjectId>
    ghost var sent: seq<Event>

    ghost function Names(): Book
      reads this
    {
      Book(idToHandle, handleToId, nextHandle, owner)
    }

    ghost function Objects(): Shelf
      reads this
    {
      Shelf(readers, cards, routing)
    }

    ghost function Value(): Dir
      reads this
    {
      Dir(Names(), Objects(), sent)
    }

    /** Between operations the directory is consistent and the snapshot current. */
    ghost predicate Valid()
      reads this
    {
      DirOk(Value()) && RosterOk(roster, order, Objects())
    }

    constructor ()
      ensures Valid() && Value() == EMPTY
    {
      readers, cards, routing, idToHandle, handleToId := map[], map[], map[], map[], map[];
      nextHandle, roster := 1, [];
      order, owner, sent := [], map[], [];
    }

    /** `handleFor` */
    method HandleFor(id: ObjectId) returns (h: Handle)
      modifies this`idToHandle, this`handleToId, this`nextHandle, this`owner
      ensures Names() == Mint(old(Names()), id)
      ensures id in idToHandle && h == idToHandle[id]
    {
      if id in idToHandle {
        return idToHandle[id];
      }
      h := nextHandle;
      nextHandle := nextHandle + 1;
      idToHandle := idToHandle[id := h];
      handleToId := handleToId[h := id];
      owner := owner[h := id];
    }

    /** The handle of a card that may be absent. */
    method HandleForCard(card: Option<int>) returns (k: Link)
      modifies this`idToHandle, this`handleToId, this`nextHandle, this`owner
      ensures Names() == MintCard(old(Names()), card) && k == CardHandle(Names(), card)
    {
      k := Nothing;
      if card.Some? {
        var h := HandleFor(CardId(card.value));
        k := To(h);
      }
    }

    /** The key of the first card met that names this reader. */
    method FindCard(h: Handle) returns (key: Option<ObjectId>)
      requires forall c | c in cards :: c in routing
      ensures key.Some? ==> Roster.Names(Objects(), h, key.value)
      ensures key.None? ==> forall c | c in cards :: cards[c].reader != h
    {
      var rest := cards.Keys;
      while rest != {}
        invariant rest <= cards.Keys
        invariant forall c | c in cards && c !in rest :: cards[c].reader != h
        decreases |rest|
      {
        var c := Next(rest);
        if cards[c].reader == h {
          assert Roster.Names(Objects(), h, routing[c].cardKey);
          return Some(routing[c].cardKey);
        }
        rest := rest - {c};
      }
      key := None;
    }

    /** `rebuildRoster` */
    method RebuildRoster()
      requires CardsOk(cards, routing, Names())
      modifies this`roster, this`order
      ensures RosterOk(roster, order, Objects())
    {
      var rows := [];
      ghost var done := [];
      var rest := readers.Keys;
      while rest != {}
        invariant rest <= readers.Keys && |rows| == |done|
        invariant forall h | h in readers :: h in rest || h in done
        invariant forall h | h in done :: h !in rest
        invariant forall i, j | 0 <= i < j < |done| :: done[i] != done[j]
        invariant forall i | 0 <= i < |done| :: RowOk(rows[i], done[i], Objects())
        decreases |rest|
      {
        var h := Next(rest);
        var key := FindCard(h);
        rows := rows + [Row(readers[h].name, key)];
        done := done + [h];
        rest := rest - {h};
      }
      roster := rows;
      order := done;
    }

    /** The entry of a new or renewed reader, the snapshot not yet rebuilt. */
    method EnterReader(id: int, name: string, hasCard: bool, card: Option<int>, shown: Blob)
      modifies this
      ensures Value() == DoPublishReader(old(Value()), id, name, hasCard, card, shown)
    {
      var h := HandleFor(ReaderId(id));
      var k := HandleForCard(card);
      var r := Reader(name, hasCard, k, shown);
      readers := readers[h := r];
      sent := sent + [ReaderAdded(h, r)];
    }

    /** `publishReader` */
    method PublishReader(id: int, name: string, hasCard: bool, card: Option<int>, shown: Blob)
      requires Valid()
      modifies this
      ensures Valid() && Value() == Do(old(Value()), Op.PublishReader(id, name, hasCard, card, shown))
    {
      PublishReaderOk(Value(), id, name, hasCard, card, shown);
      EnterReader(id, name, hasCard, card, shown);
      RebuildRoster();
    }

    method EnterCard(id: int, host: int, cardType: string, caps: Blob)
      modifies this
      ensures Value() == DoPublishCard(old(Value()), id, host, cardType, caps)
    {
      var h := HandleFor(CardId(id));
      var rh := HandleFor(ReaderId(host));
      var c := Card(rh, if cardType == "" then None else Some(cardType), caps);
      cards := cards[h := c];
      var name := if rh in readers then readers[rh].name else "";
      routing := routing[h := Routing(CardId(id), ReaderId(host), name)];
      sent := sent + [CardAdded(h, c)];
    }

    /** `publishCard` */
    method PublishCard(id: int, host: int, cardType: string, caps: Blob)
      requires Valid()
      modifies this
      ensures Valid() && Value() == Do(old(Value()), Op.PublishCard(id, host, cardType, caps))
    {
      PublishCardOk(Value(), id, host, cardType, caps);
      EnterCard(id, host, cardType, caps);
      RebuildRoster();
    }

    /** The removal of an object whose handle is known. */
    method Strike(id: ObjectId)
      requires id in idToHandle
      modifies this
      ensures Value() == DoWithdraw(old(Value()), id)
    {
      var h := idToHandle[id];
      if h in readers {
        readers := readers - {h};
        sent := sent + [ReaderRemoved(h)];
      } else if h in cards {
        cards := cards - {h};
        routing := routing - {h};
        sent := sent + [CardRemoved(h)];
      }
      idToHandle := idToHandle - {id};
      handleToId := handleToId - {h};
    }

    /** `withdraw` */
    method Withdraw(id: ObjectId)
      requires Valid()
      modifies this
      ensures Valid() && Value() == Do(old(Value()), Op.Withdraw(id))
    {
      if id in idToHandle {
        WithdrawOk(Value(), id);
        Strike(id);
        RebuildRoster();
      }
    }

    /** The new slot of a published reader. */
    method EnterProperties(id: int, present: bool, card: Option<int>)
      requires ReaderId(id) in idToHandle && idToHandle[ReaderId(id)] in readers
      modifies this
      ensures roster == old(roster) && order == old(order)
      ensures Value() == DoUpdateProperties(old(Value()), id, present, card)
    {
      var h := idToHandle[ReaderId(id)];
      var k := HandleForCard(if present then card else None);
      readers := readers[h := readers[h].(hasCard := present, card := k)];
      sent := sent + [ReaderProperties(h, present, k)];
    }

    /** `updateProperties` */
    method UpdateProperties(id: int, present: bool, card: Option<int>)
      requires Valid()
      modifies this
      ensures Valid() && Value() == Do(old(Value()), Op.UpdateProperties(id, present, card))
    {
      UpdatePropertiesOk(Value(), id, present, card);
      RosterSurvives(Value(), Op.UpdateProperties(id, present, card), roster, order);
      if ReaderId(id) in idToHandle && idToHandle[ReaderId(id)] in readers {
        EnterProperties(id, present, card);
      }
    }

    /** `relabelReader` */
    method RelabelReader(id: int, shown: Blob)
      requires Valid()
      modifies this
      ensures Valid() && Value() == Do(old(Value()), Op.RelabelReader(id, shown))
    {
      ghost var before := Value();
      ghost var op := Op.RelabelReader(id, shown);
      DoOk(before, op);
      RosterSurvives(before, op, roster, order);
      if ReaderId(id) !in idToHandle || idToHandle[ReaderId(id)] !in readers {
        return;
      }
      var h := idToHandle[ReaderId(id)];
      if readers[h].shown == shown {
        return;
      }
      readers := readers[h := readers[h].(shown := shown)];
      sent := sent + [ReaderLabel(h, shown)];
      assert Value() == Do(before, op);
    }

    /** `updateCardType` */
    method UpdateCardType(h: Handle, cardType: string)
      requires Valid()
      modifies this
      ensures Valid() && Value() == Do(old(Value()), Op.UpdateCardType(h, cardType))
    {
      ghost var before := Value();
      ghost var op := Op.UpdateCardType(h, cardType);
      DoOk(before, op);
      RosterSurvives(before, op, roster, order);
      if h !in cards || cards[h].cardType == Some(cardType) {
        return;
      }
      cards := cards[h := cards[h].(cardType := Some(cardType))];
      sent := sent + [CardTypeKnown(h, cardType)];
      assert Value() == Do(before, op);
    }

    /** `readerCard`: a reader whose slot handle is stale answers with no card. */
    method CardIn(h: Handle) returns (key: Option<ObjectId>)
      requires Valid()
      ensures key == ReaderCard(Value(), h)
      ensures key.Some? ==> key.value.CardId? && readers[h].card.handle in owner
      ensures key.Some? ==> key.value == owner[readers[h].card.handle]
    {
      key := None;
      if h in readers && h in handleToId && readers[h].card.To? {
        var k := readers[h].card.handle;
        assert SlotOk(readers[h], Names());
        if k in handleToId {
          key := Some(handleToId[k]);
        }
      }
    }
  }
}
