/** The list endpoints of the server, over the in-memory database. */
module ListController {
  import opened Common
  import opened Ordering
  import opened Models

  /** The body of a create request. */
  datatype NewList = NewList(
    title: Option<string>,
    boardId: Option<Id>,
    order: Option<int>)

  /** The body of an update request: every field optional. */
  datatype ListChanges = ListChanges(
    title: Option<string>,
    cards: Option<seq<Id>>,
    order: Option<int>)

  function ListDocOrder(l: ListDoc): int {
    l.order
  }

  function OnBoard(boardId: Id): ListDoc -> bool {
    (l: ListDoc) => l.boardId == boardId
  }

  /** `getListsByBoard`: the lists of one board by ascending `order`, each
      stored list of the board exactly once. */
  method GetListsByBoard(db: Db, boardId: Id) returns (r: seq<ListDoc>)
    requires db.Valid()
    ensures SortedBy(r, ListDocOrder)
    ensures forall l :: l in r ==> l.boardId == boardId && l.id in db.lists && db.lists[l.id] == l
    ensures forall k :: k in db.lists ==>
      multiset(r)[db.lists[k]] == (if db.lists[k].boardId == boardId then 1 else 0)
  {
    var ids := Enumerate(db.lists);
    var docs := Present(ids, db.lists);
    r := SortBy(Filter(docs, OnBoard(boardId)), ListDocOrder);
    forall k | k in db.lists
      ensures multiset(r)[db.lists[k]] == (if db.lists[k].boardId == boardId then 1 else 0)
    {
      PresentCount(ids, db.lists, k);
    }
    forall l | l in r ensures l.boardId == boardId && l.id in db.lists && db.lists[l.id] == l {
      assert l in multiset(r);
    }
  }

  /** `createList`: 404 unless the board exists; a list without a title
      fails validation and nothing is stored; otherwise the list is stored
      with no cards and the sent order, or the board's list count when the
      order is missing or 0, and its id is appended to the board's
      `lists`. */
  method CreateList(db: Db, body: NewList, newId: Id) returns (r: Result<ListDoc>)
    requires db.Valid()
    requires newId !in db.lists
    modifies db
    ensures db.Valid()
    ensures old(db.ParentsExist()) ==> db.ParentsExist()
    ensures body.boardId.None? || body.boardId.value !in old(db.boards) ==>
      r == Err(NotFound) && unchanged(db)
    ensures body.boardId.Some? && body.boardId.value in old(db.boards) && !Truthy(body.title) ==>
      r == Err(Invalid) && unchanged(db)
    ensures body.boardId.Some? && body.boardId.value in old(db.boards) && Truthy(body.title) ==>
      var board := old(db.boards)[body.boardId.value];
      var list := ListDoc(newId, body.title.value, board.id, [], OrDefault(body.order, |board.lists|));
      && r == Ok(list)
      && db.lists == old(db.lists)[newId := list]
      && db.boards == old(db.boards)[board.id := board.(lists := board.lists + [newId])]
      && db.cards == old(db.cards)
  {
    if body.boardId.None? || body.boardId.value !in db.boards {
      return Err(NotFound);
    }
    var board := db.boards[body.boardId.value];
    if !Truthy(body.title) {
      return Err(Invalid);
    }
    var list := ListDoc(newId, body.title.value, board.id, [], OrDefault(body.order, |board.lists|));
    db.lists := db.lists[newId := list];
    board := board.(lists := board.lists + [newId]);
    db.boards := db.boards[board.id := board];
    r := Ok(list);
  }

  /** `updateList`: 404 for an unknown list; otherwise the title changes
      only to a non-empty one, the cards whenever an array is sent, the
      order whenever one is sent (even 0); the board never changes. */
  method UpdateList(db: Db, id: Id, body: ListChanges) returns (r: Result<ListDoc>)
    requires db.Valid()
    modifies db`lists
    ensures db.Valid()
    ensures old(db.ParentsExist()) ==> db.ParentsExist()
    ensures id !in old(db.lists) ==> r == Err(NotFound) && db.lists == old(db.lists)
    ensures id in old(db.lists) ==>
      var list := old(db.lists)[id];
      var updated := ListDoc(id,
        if Truthy(body.title) then body.title.value else list.title,
        list.boardId,
        if body.cards.Some? then body.cards.value else list.cards,
        if body.order.Some? then body.order.value else list.order);
      r == Ok(updated) && db.lists == old(db.lists)[id := updated]
  {
    if id !in db.lists {
      return Err(NotFound);
    }
    var list := db.lists[id];
    if Truthy(body.title) {
      list := list.(title := body.title.value);
    }
    if body.cards.Some? {
      list := list.(cards := body.cards.value);
    }
    if body.order.Some? {
      list := list.(order := body.order.value);
    }
    db.lists := db.lists[id := list];
    r := Ok(list);
  }

  /** `deleteList`: 404 for an unknown list; otherwise every card of the
      list is deleted, the id is pulled from its board's `lists` (when the
      board exists) and the list is removed, leaving no card that points
      at it. */
  method DeleteList(db: Db, id: Id) returns (r: Result<()>)
    requires db.Valid()
    modifies db
    ensures db.Valid()
    ensures old(db.ParentsExist()) ==> db.ParentsExist()
    ensures id !in old(db.lists) ==> r == Err(NotFound) && unchanged(db)
    ensures id in old(db.lists) ==>
      var boardId := old(db.lists)[id].boardId;
      && r == Ok(())
      && db.lists == old(db.lists) - {id}
      && db.cards == CardsOutside(old(db.cards), {id})
      && (boardId in old(db.boards) ==>
            db.boards == old(db.boards)[boardId := old(db.boards)[boardId].(lists := Without(old(db.boards)[boardId].lists, id))])
      && (boardId !in old(db.boards) ==> db.boards == old(db.boards))
    ensures id in old(db.lists) ==> forall k :: k in db.cards ==> db.cards[k].listId != id
  {
    if id !in db.lists {
      return Err(NotFound);
    }
    var list := db.lists[id];
    db.cards := CardsOutside(db.cards, {id});
    if list.boardId in db.boards {
      var board := db.boards[list.boardId];
      db.boards := db.boards[list.boardId := board.(lists := Without(board.lists, id))];
    }
    db.lists := db.lists - {id};
    r := Ok(());
  }
}
