/** Derived views of the cards slice. `Object.values(byId)` is `Values`:
    the stored cards in key order, which is the order of first occurrence
    in `allIds`, each stored card once even where `allIds` repeats its id. */
module CardSelectors {
  import opened Common
  import opened Ordering
  import opened CardReducer

  function CardOrder(c: Card): int {
    c.order
  }

  /** The filter of `selectCardsByList`. */
  function InList(listId: Id): Card -> bool {
    (c: Card) => c.listId == listId
  }

  /** `selectAllCards`: one entry per id of `allIds`, in that order; the
      entry of an id with no card is undefined. */
  function SelectAllCards(byId: map<Id, Card>, allIds: seq<Id>): (r: seq<Option<Card>>)
    ensures |r| == |allIds|
    ensures forall i :: 0 <= i < |allIds| ==> r[i] == Lookup(byId, allIds[i])
  {
    LookupAll(byId, allIds)
  }

  /** `selectCardById`: the card filed under the id, or nothing. */
  function SelectCardById(byId: map<Id, Card>, cardId: Id): (r: Option<Card>)
    ensures r.Some? <==> cardId in byId
    ensures r.Some? ==> r.value == byId[cardId]
  {
    Lookup(byId, cardId)
  }

  /** `selectCardsByList`: the cards of one list, ordered by `order`. The
      output holds exactly the stored cards of that list, each as often as
      the values view holds it, and no other card. */
  function SelectCardsByList(byId: map<Id, Card>, allIds: seq<Id>, listId: Id): (r: seq<Card>)
    ensures SortedBy(r, CardOrder)
    ensures forall c :: c in r <==> c in Values(byId, allIds) && c.listId == listId
    ensures forall c :: multiset(r)[c] == (if c.listId == listId then multiset(Values(byId, allIds))[c] else 0)
  {
    var kept := Filter(Values(byId, allIds), InList(listId));
    var r := SortBy(kept, CardOrder);
    assert forall c :: c in r <==> c in kept by {
      forall c ensures c in r <==> c in kept {
        assert c in r <==> c in multiset(r);
      }
    }
    r
  }

  /** In a consistent slice every entry of `selectAllCards` is the card
      filed under that id. */
  lemma SelectAllCardsConsistent(byId: map<Id, Card>, allIds: seq<Id>)
    requires forall k :: k in byId ==> byId[k].id == k
    requires forall k :: k in allIds ==> k in byId
    ensures forall i :: 0 <= i < |allIds| ==>
      SelectAllCards(byId, allIds)[i].Some? && SelectAllCards(byId, allIds)[i].value.id == allIds[i]
  {
  }

  /** In a consistent slice, even one whose `allIds` lists an id twice,
      every stored card of the list appears exactly once in `selectCardsByList`, and no card
      of another list appears. */
  lemma SelectCardsByListExact(byId: map<Id, Card>, allIds: seq<Id>, listId: Id, k: Id)
    requires forall a :: a in byId ==> byId[a].id == a
    requires forall a :: a in allIds <==> a in byId
    requires k in byId
    ensures multiset(SelectCardsByList(byId, allIds, listId))[byId[k]] ==
      if byId[k].listId == listId then 1 else 0
  {
    PresentCount(KeyOrder(allIds), byId, k);
  }

  /** A card whose id `allIds` lists twice (as `createCard.fulfilled` of a
      stored card leaves it) is selected once. */
  lemma SelectCardsByListRepeatedId(c: Card)
    ensures SelectCardsByList(map[c.id := c], [c.id, c.id], c.listId) == [c]
  {
    var r := SelectCardsByList(map[c.id := c], [c.id, c.id], c.listId);
    SelectCardsByListExact(map[c.id := c], [c.id, c.id], c.listId, c.id);
    assert multiset(r) == multiset{c};
    assert |r| == 1;
  }
}
