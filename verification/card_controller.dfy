/** The card endpoints of the server, over the in-memory database. Request
    fields that may be missing are `Option`s; the id a new document
    receives is a parameter. */
module CardController {
  import opened Common
  import opened Ordering
  import opened Models

  /** The body of a create request. */
  datatype NewCard = NewCard(
    title: Option<string>,
    description: Option<string>,
    listId: Option<Id>,
    order: Option<int>)

  /** The body of an update request: every field optional. */
  datatype CardChanges = CardChanges(
    title: Option<string>,
    description: Option<string>,
    subtasks: Option<seq<Subtask>>,
    order: Option<int>,
    listId: Option<Id>)

  function CardDocOrder(c: CardDoc): int {
    c.order
  }

  function OnList(listId: Id): CardDoc -> bool {
    (c: CardDoc) => c.listId == listId
  }

  /** The partial update of a card's own fields: the title only when the
      new one is non-empty, the description and order whenever they are
      sent (even empty or 0), the subtasks whenever an array is sent; the
      id and list are left to the move logic. */
  ghost predicate EditedFrom(c: CardDoc, card: CardDoc, body: CardChanges) {
    && c.id == card.id
    && c.title == (if Truthy(body.title) then body.title.value else card.title)
    && c.description == (if body.description.Some? then body.description.value else card.description)
    && c.subtasks == (if body.subtasks.Some? then body.subtasks.value else card.subtasks)
    && c.order == (if body.order.Some? then body.order.value else card.order)
  }

  /** Whether an update re-parents the card: a non-empty list id other than
      the card's own. */
  predicate Relists(card: CardDoc, body: CardChanges) {
    Truthy(body.listId) && body.listId.value != card.listId
  }

  /** `getCardsByList`: the cards of one list by ascending `order`, each
      stored card of the list exactly once. */
  method GetCardsByList(db: Db, listId: Id) returns (r: seq<CardDoc>)
    requires db.Valid()
    ensures SortedBy(r, CardDocOrder)
    ensures forall c :: c in r ==> c.listId == listId && c.id in db.cards && db.cards[c.id] == c
    ensures forall k :: k in db.cards ==>
      multiset(r)[db.cards[k]] == (if db.cards[k].listId == listId then 1 else 0)
  {
    var ids := Enumerate(db.cards);
    var docs := Present(ids, db.cards);
    r := SortBy(Filter(docs, OnList(listId)), CardDocOrder);
    forall k | k in db.cards
      ensures multiset(r)[db.cards[k]] == (if db.cards[k].listId == listId then 1 else 0)
    {
      PresentCount(ids, db.cards, k);
    }
    forall c | c in r ensures c.listId == listId && c.id in db.cards && db.cards[c.id] == c {
      assert c in multiset(r);
    }
  }

  /** `createCard`: 404 unless the list exists; a card without a title
      fails validation and nothing is stored; otherwise the card is stored
      with the description or "", no subtasks and the sent order, or the
      list's card count when the order is missing or 0, and its id is
      appended to the list's `cards`. */
  method CreateCard(db: Db, body: NewCard, newId: Id) returns (r: Result<CardDoc>)
    requires db.Valid()
    requires newId !in db.cards
    modifies db
    ensures db.Valid()
    ensures old(db.ParentsExist()) ==> db.ParentsExist()
    ensures body.listId.None? || body.listId.value !in old(db.lists) ==>
      r == Err(NotFound) && unchanged(db)
    ensures body.listId.Some? && body.listId.value in old(db.lists) && !Truthy(body.title) ==>
      r == Err(Invalid) && unchanged(db)
    ensures body.listId.Some? && body.listId.value in old(db.lists) && Truthy(body.title) ==>
      var list := old(db.lists)[body.listId.value];
      var card := CardDoc(newId, body.title.value,
                          if Truthy(body.description) then body.description.value else "",
                          list.id, [], OrDefault(body.order, |list.cards|));
      && r == Ok(card)
      && db.cards == old(db.cards)[newId := card]
      && db.lists == old(db.lists)[list.id := list.(cards := list.cards + [newId])]
      && db.boards == old(db.boards)
  {
    if body.listId.None? || body.listId.value !in db.lists {
      return Err(NotFound);
    }
    var list := db.lists[body.listId.value];
    if !Truthy(body.title) {
      return Err(Invalid);
    }
    var card := CardDoc(newId, body.title.value,
                        if Truthy(body.description) then body.description.value else "",
                        list.id, [], OrDefault(body.order, |list.cards|));
    db.cards := db.cards[newId := card];
    list := list.(cards := list.cards + [newId]);
    db.lists := db.lists[list.id := list];
    r := Ok(card);
  }

  /** The field assignments of `updateCard`, on the loaded document. */
  method ApplyEdits(card: CardDoc, body: CardChanges) returns (c: CardDoc)
    ensures EditedFrom(c, card, body) && c.listId == card.listId
    ensures card.title != "" ==> c.title != ""
  {
    c := card;
    if Truthy(body.title) {
      c := c.(title := body.title.value);
    }
    if body.description.Some? {
      c := c.(description := body.description.value);
    }
    if body.subtasks.Some? {
      c := c.(subtasks := body.subtasks.value);
    }
    if body.order.Some? {
      c := c.(order := body.order.value);
    }
  }

  /** The list side of a move: the card id is filtered out of the old
      list, when it exists, and pushed onto the new one. */
  method Relink(db: Db, id: Id, from: Id, to: Id)
    requires db.Valid()
    requires to in db.lists && from != to
    modifies db`lists
    ensures db.Valid()
    ensures db.lists.Keys == old(db.lists).Keys
    ensures db.lists[to] == old(db.lists)[to].(cards := old(db.lists)[to].cards + [id])
    ensures from in old(db.lists) ==>
      db.lists[from] == old(db.lists)[from].(cards := Without(old(db.lists)[from].cards, id))
    ensures forall k :: k in db.lists && k != from && k != to ==> db.lists[k] == old(db.lists)[k]
    ensures id in db.lists[to].cards && (from in db.lists ==> id !in db.lists[from].cards)
    ensures forall k :: k in db.lists ==> db.lists[k].boardId == old(db.lists)[k].boardId
  {
    var oldList := Lookup(db.lists, from);
    if oldList.Some? {
      db.lists := db.lists[from := oldList.value.(cards := Without(oldList.value.cards, id))];
    }
    var newList := db.lists[to];
    db.lists := db.lists[to := newList.(cards := newList.cards + [id])];
  }

  /** `updateCard`: 404 for an unknown card. The sent fields are applied
      as `EditedFrom` says. When the card changes list, an unknown new list
      gives 404 and nothing is saved; otherwise the card's id is filtered
      out of its old list (if that still exists) and appended to the new
      one, so that afterwards exactly one of the two lists holds it. */
  method UpdateCard(db: Db, id: Id, body: CardChanges) returns (r: Result<CardDoc>)
    requires db.Valid()
    modifies db
    ensures db.Valid()
    ensures old(db.ParentsExist()) ==> db.ParentsExist()
    ensures id !in old(db.cards) ==> r == Err(NotFound) && unchanged(db)
    ensures id in old(db.cards) && !Relists(old(db.cards)[id], body) ==>
      && r.Ok? && EditedFrom(r.value, old(db.cards)[id], body)
      && r.value.listId == old(db.cards)[id].listId
      && db.cards == old(db.cards)[id := r.value]
      && db.lists == old(db.lists) && db.boards == old(db.boards)
    ensures id in old(db.cards) && Relists(old(db.cards)[id], body) && body.listId.value !in old(db.lists) ==>
      r == Err(NotFound) && unchanged(db)
    ensures id in old(db.cards) && Relists(old(db.cards)[id], body) && body.listId.value in old(db.lists) ==>
      var from := old(db.cards)[id].listId;
      var to := body.listId.value;
      && r.Ok? && EditedFrom(r.value, old(db.cards)[id], body) && r.value.listId == to
      && db.cards == old(db.cards)[id := r.value]
      && db.boards == old(db.boards)
      && db.lists.Keys == old(db.lists).Keys
      && db.lists[to] == old(db.lists)[to].(cards := old(db.lists)[to].cards + [id])
      && (from in old(db.lists) ==>
            db.lists[from] == old(db.lists)[from].(cards := Without(old(db.lists)[from].cards, id)))
      && (forall k :: k in db.lists && k != from && k != to ==> db.lists[k] == old(db.lists)[k])
      && id in db.lists[to].cards
      && (from in db.lists ==> id !in db.lists[from].cards)
  {
    if id !in db.cards {
      return Err(NotFound);
    }
    var card := ApplyEdits(db.cards[id], body);
    if Truthy(body.listId) && body.listId.value != card.listId {
      if body.listId.value !in db.lists {
        return Err(NotFound);
      }
      Relink(db, id, card.listId, body.listId.value);
      card := card.(listId := body.listId.value);
    }
    db.cards := db.cards[id := card];
    r := Ok(card);
  }

  /** `deleteCard`: 404 for an unknown card; otherwise the id is pulled
      from its list's `cards` (when the list exists) and the card is
      removed. */
  method DeleteCard(db: Db, id: Id) returns (r: Result<()>)
    requires db.Valid()
    modifies db
    ensures db.Valid()
    ensures old(db.ParentsExist()) ==> db.ParentsExist()
    ensures id !in old(db.cards) ==> r == Err(NotFound) && unchanged(db)
    ensures id in old(db.cards) ==>
      var from := old(db.cards)[id].listId;
      && r == Ok(())
      && db.cards == old(db.cards) - {id}
      && db.boards == old(db.boards)
      && (from in old(db.lists) ==>
            db.lists == old(db.lists)[from := old(db.lists)[from].(cards := Without(old(db.lists)[from].cards, id))])
      && (from !in old(db.lists) ==> db.lists == old(db.lists))
  {
    if id !in db.cards {
      return Err(NotFound);
    }
    var card := db.cards[id];
    if card.listId in db.lists {
      var list := db.lists[card.listId];
      db.lists := db.lists[card.listId := list.(cards := Without(list.cards, id))];
    }
    db.cards := db.cards - {id};
    r := Ok(());
  }
}
