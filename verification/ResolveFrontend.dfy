/**
 The frontend's side of the card resolve as it keeps it: the pending cards and the
 directory it publishes to, changed in place by the blocks the loop runs. Each method
 is proved against its function in module CardResolve.
 */
module ResolveFrontend {
  import opened Presence
  import opened Roster
  import opened CardResolve
  import D = Directory

  class Frontend {
    var pendingCards: map<int, int>
    const transport: D.Directory
    var away: Away
    /** What the loop has been told of insertions and withdrawals, and the cards
        published, in order. */
    ghost var seen: Sight
    ghost var log: seq<int>

    /** Every card the loop was told of and that has not left is pending or published,
        never both, and nothing else is. */
    ghost predicate Valid()
      reads this, transport
    {
      transport.Valid() && SightOk(seen) && AwayOk(seen, away) && FrontOk(Value(), seen)
    }

    ghost function Value(): Front
      reads this, transport
    {
      Front(pendingCards, transport.Value(), log)
    }

    constructor (transport: D.Directory)
      requires transport.Valid() && transport.Value() == EMPTY
      ensures this.transport == transport && Valid()
      ensures Value() == START.front && away == START.away && seen == START.past
    {
      this.transport := transport;
      pendingCards, away, seen, log := map[], Away([], []), Sight(map[], map[]), [];
    }

    /** `scheduleCardResolve`; `accepted` is whether the reader's worker took the probe. */
    method ScheduleCardResolve(w: Inserted, accepted: bool)
      modifies this`pendingCards, this`away
      ensures pendingCards == old(pendingCards)[w.card := w.reader]
      ensures away == if accepted then old(away).(probes := old(away).probes + [w])
                      else old(away).(delays := old(away).delays + [w])
    {
      pendingCards := pendingCards[w.card := w.reader];
      if accepted {
        away := away.(probes := away.probes + [w]);
      } else {
        away := away.(delays := away.delays + [w]);
      }
    }

    /** The block of `onCardPublished`: the card is pending, and not published until its
        probe has answered. */
    method OnCardArrived(w: Inserted, accepted: bool)
      requires Valid() && MayArrive(seen, w)
      modifies this
      ensures Valid() && seen == See(old(seen), Arrived(w)) && log == old(log)
      ensures transport.Value() == old(transport.Value())
      ensures w.card in pendingCards && forall r :: !Published(transport.Value(), w.card, r)
    {
      SeeOk(seen, Arrived(w));
      SeeAway(seen, Arrived(w), away);
      FrontArrived(Value(), seen, w);
      seen := See(seen, Arrived(w));
      ScheduleCardResolve(w, accepted);
    }

    /** `applyCardResolution`; `wait` is whether the retry policy grants another wait to a
        refused probe. A card no longer pending changes nothing; no card is published
        twice or beside another of its reader. */
    method ApplyCardResolution(w: Inserted, refused: bool, wait: bool, cardType: string, caps: Blob)
      requires Valid() && Known(seen, w)
      modifies this, transport
      ensures Valid() && seen == old(seen) && OneCardEach(transport.Value())
      ensures forall s: State | s.front == old(Value()) && s.away == old(away) ::
                Resolve(s, w, refused && wait, cardType, caps) == s.(front := Value(), away := away)
      ensures w.card !in old(pendingCards) ==> Value() == old(Value()) && away == old(away)
      ensures w.card in old(pendingCards) && !(refused && wait) ==>
                w.card !in old(log) && w.card !in pendingCards && Published(transport.Value(), w.card, w.reader)
    {
      if w.card !in pendingCards {
        return;
      }
      if refused && wait {
        away := away.(delays := away.delays + [w]);
        return;
      }
      FrontResolved(Value(), seen, w, cardType, caps);
      PublishCardAdds(transport.Value(), w.card, w.reader, cardType, caps, w.card, w.reader);
      PublishPending(w, cardType, caps);
    }

    /** The pending card becomes a published one. */
    method PublishPending(w: Inserted, cardType: string, caps: Blob)
      requires transport.Valid()
      modifies this`pendingCards, this`log, transport
      ensures transport.Valid()
      ensures Value() == Front(old(pendingCards) - {w.card},
                               DoPublishCard(old(transport.Value()), w.card, w.reader, cardType, caps),
                               old(log) + [w.card])
    {
      pendingCards := pendingCards - {w.card};
      log := log + [w.card];
      transport.PublishCard(w.card, w.reader, cardType, caps);
    }

    /** The delayed block: ask again only while the card is pending. */
    method AskAgainLater(w: Inserted, accepted: bool)
      requires Valid() && Known(seen, w)
      modifies this`pendingCards, this`away
      ensures Valid() && Value() == old(Value())
      ensures forall s: State | s.front == old(Value()) && s.away == old(away) ::
                RunBlock(s, AskAgain(w), accepted, false) == s.(front := Value(), away := away)
    {
      if w.card in pendingCards {
        assert pendingCards[w.card := w.reader] == pendingCards;
        ScheduleCardResolve(w, accepted);
      }
    }

    /** The card's part of `onWithdrawn`: it is neither pending nor published. */
    method OnCardWithdrawn(card: int)
      requires Valid()
      modifies this, transport
      ensures Valid() && away == old(away) && seen == See(old(seen), Left(card))
      ensures Value() == Front(old(pendingCards) - {card}, DoWithdraw(old(transport.Value()), CardId(card)), old(log))
      ensures card !in pendingCards && forall r :: !Published(transport.Value(), card, r)
    {
      SeeOk(seen, Left(card));
      SeeAway(seen, Left(card), away);
      FrontLeft(Value(), seen, card);
      seen := See(seen, Left(card));
      pendingCards := pendingCards - {card};
      transport.Withdraw(CardId(card));
    }
  }
}
