/** The lists slice of the client store: a normalized `byId` map plus the
    `allIds` sequence and the loading and error flags. */
module ListReducer {
  import opened Common

  /** A list as the store keeps it (and as the server sends it, its card
      references already reduced to ids). */
  datatype List = List(
    id: Id,
    title: string,
    boardId: Id,
    cards: seq<Id>,
    order: int)

  function PayloadIds(ps: seq<List>): seq<Id> {
    seq(|ps|, i requires 0 <= i < |ps| => ps[i].id)
  }

  /** `m` is `base` after the renumbering loop over `ids`: the same keys;
      each stored list named in `ids` has its last position there as `order`,
      and nothing else changes. */
  ghost predicate Reordered(m: map<Id, List>, base: map<Id, List>, ids: seq<Id>) {
    && m.Keys == base.Keys
    && forall k :: k in m ==>
         m[k] == if k in ids then base[k].(order := LastIndexOf(ids, k)) else base[k]
  }

  /** One more loop step renumbers the next id, when it is stored. */
  lemma ReorderedStep(m: map<Id, List>, base: map<Id, List>, ids: seq<Id>, id: Id)
    requires Reordered(m, base, ids)
    ensures Reordered(if id in m then m[id := m[id].(order := |ids|)] else m, base, ids + [id])
  {
    forall k | k in ids + [id] {
      LastIndexOfSnoc(ids, id, k);
    }
  }

  class ListSlice {
    var byId: map<Id, List>
    var allIds: seq<Id>
    var loading: bool
    var error: Option<string>

    /** Each list is filed under its own id, and `allIds` lists exactly the
        filed ids. */
    ghost predicate Valid()
      reads this
    {
      && (forall k :: k in byId ==> byId[k].id == k)
      && (forall k :: k in allIds <==> k in byId)
    }

    /** The initial state. */
    constructor ()
      ensures Valid()
      ensures byId == map[] && allIds == []
      ensures !loading && error == None
    {
      byId := map[];
      allIds := [];
      loading := false;
      error := None;
    }

    /** `addCardToList`: appends the card id to a stored list's `cards`,
        without checking for a duplicate; an unknown list is ignored. */
    method AddCardToList(listId: Id, cardId: Id)
      requires Valid()
      modifies this`byId
      ensures Valid()
      ensures listId in old(byId) ==>
        byId == old(byId)[listId := old(byId)[listId].(cards := old(byId)[listId].cards + [cardId])]
      ensures listId !in old(byId) ==> byId == old(byId)
    {
      if listId in byId {
        byId := byId[listId := byId[listId].(cards := byId[listId].cards + [cardId])];
      }
    }

    /** `removeCardFromList`: drops every occurrence of the card id from a
        stored list's `cards`, keeping the order of the rest. */
    method RemoveCardFromList(listId: Id, cardId: Id)
      requires Valid()
      modifies this`byId
      ensures Valid()
      ensures listId in old(byId) ==>
        byId == old(byId)[listId := old(byId)[listId].(cards := Without(old(byId)[listId].cards, cardId))]
      ensures listId !in old(byId) ==> byId == old(byId)
    {
      if listId in byId {
        byId := byId[listId := byId[listId].(cards := Without(byId[listId].cards, cardId))];
      }
    }

    /** `updateListCards`: replaces the `cards` of that one list. */
    method UpdateListCards(listId: Id, cards: seq<Id>)
      requires Valid()
      modifies this`byId
      ensures Valid()
      ensures listId in old(byId) ==> byId == old(byId)[listId := old(byId)[listId].(cards := cards)]
      ensures listId !in old(byId) ==> byId == old(byId)
    {
      if listId in byId {
        byId := byId[listId := byId[listId].(cards := cards)];
      }
    }

    /** `reorderLists`: each stored list named in `ids` gets its position
        there as its `order` (the last position, when named twice); no
        other list and no other field changes. */
    method ReorderLists(ids: seq<Id>)
      requires Valid()
      modifies this`byId
      ensures Valid()
      ensures Reordered(byId, old(byId), ids)
    {
      var i := 0;
      while i < |ids|
        invariant 0 <= i <= |ids|
        invariant Valid()
        invariant Reordered(byId, old(byId), ids[..i])
      {
        TakeSnoc(ids, i);
        ReorderedStep(byId, old(byId), ids[..i], ids[i]);
        if ids[i] in byId {
          byId := byId[ids[i] := byId[ids[i]].(order := i)];
        }
        i := i + 1;
      }
      assert ids[..i] == ids;
    }

    /** `clearListError`. */
    method ClearError()
      modifies this`error
      ensures error == None
    {
      error := None;
    }

    /** `fetchListsByBoard.pending` and `createList.pending`. */
    method RequestPending()
      modifies this`loading, this`error
      ensures loading && error == None
    {
      loading := true;
      error := None;
    }

    /** `fetchListsByBoard.rejected` and `createList.rejected`. */
    method RequestRejected(message: string)
      modifies this`loading, this`error
      ensures !loading && error == Some(message)
    {
      loading := false;
      error := Some(message);
    }

    /** `updateList.rejected` and `deleteList.rejected`. */
    method MutationRejected(message: string)
      modifies this`error
      ensures error == Some(message)
    {
      error := Some(message);
    }

    /** One step of the fetch loop: file the list, list its id if new. */
    method Upsert(list: List)
      requires Valid()
      modifies this`byId, this`allIds
      ensures Valid()
      ensures byId == old(byId)[list.id := list]
      ensures allIds == if list.id in old(allIds) then old(allIds) else old(allIds) + [list.id]
    {
      byId := byId[list.id := list];
      if list.id !in allIds {
        allIds := allIds + [list.id];
      }
    }

    /** `fetchListsByBoard.fulfilled`: upserts every fetched list (the last
        copy wins when an id repeats), keeps the lists of other boards, and
        appends only ids not yet listed, so `allIds` stays duplicate-free. */
    method FetchListsByBoardFulfilled(payload: seq<List>)
      requires Valid()
      modifies this`byId, this`allIds, this`loading
      ensures Valid() && !loading
      ensures Upserted(byId, old(byId), PayloadIds(payload), payload)
      ensures allIds == PushAbsent(old(allIds), PayloadIds(payload))
      ensures Distinct(old(allIds)) ==> Distinct(allIds)
    {
      loading := false;
      ghost var ids := PayloadIds(payload);
      var i := 0;
      while i < |payload|
        invariant 0 <= i <= |payload|
        invariant Valid() && !loading
        invariant Upserted(byId, old(byId), ids[..i], payload[..i])
        invariant allIds == PushAbsent(old(allIds), ids[..i])
      {
        var list := payload[i];
        TakeSnoc(ids, i);
        PushAbsentSnoc(old(allIds), ids[..i], list.id);
        TakeSnoc(payload, i);
        UpsertedStep(byId, old(byId), ids[..i], payload[..i], list.id, list);
        Upsert(list);
        i := i + 1;
      }
      assert ids[..i] == ids && payload[..i] == payload;
    }

    /** `createList.fulfilled`: files the new list with no cards and appends
        its id unconditionally; `allIds` stays duplicate-free when the id is
        new. */
    method CreateListFulfilled(list: List)
      requires Valid()
      modifies this`byId, this`allIds, this`loading
      ensures Valid() && !loading
      ensures byId == old(byId)[list.id := list.(cards := [])]
      ensures allIds == old(allIds) + [list.id]
      ensures Distinct(old(allIds)) && list.id !in old(byId) ==> Distinct(allIds)
    {
      loading := false;
      byId := byId[list.id := List(list.id, list.title, list.boardId, [], list.order)];
      allIds := allIds + [list.id];
    }

    /** `updateList.fulfilled`: overwrites title, cards and order of a list
        already in the store and keeps its board; a list not in the store is
        not added. */
    method UpdateListFulfilled(list: List)
      requires Valid()
      modifies this`byId
      ensures Valid()
      ensures list.id in old(byId) ==>
        byId == old(byId)[list.id := list.(boardId := old(byId)[list.id].boardId)]
      ensures list.id !in old(byId) ==> byId == old(byId)
    {
      if list.id in byId {
        byId := byId[list.id := byId[list.id].(title := list.title, cards := list.cards, order := list.order)];
      }
    }

    /** `deleteList.fulfilled`: the id leaves both `byId` and `allIds`; the
        list's cards stay in the cards slice. */
    method DeleteListFulfilled(listId: Id)
      requires Valid()
      modifies this`byId, this`allIds
      ensures Valid()
      ensures byId == old(byId) - {listId}
      ensures allIds == Without(old(allIds), listId)
      ensures Distinct(old(allIds)) ==> Distinct(allIds)
    {
      byId := byId - {listId};
      if Distinct(allIds) {
        WithoutDistinct(allIds, listId);
      }
      allIds := Without(allIds, listId);
    }
  }
}
