/** The cards slice of the client store: a normalized `byId` map plus the
    `allIds` sequence, the loading and error flags, and the flag of the AI
    subtask request. */
module CardReducer {
  import opened Common

  /** A card as the store keeps it. */
  datatype Card = Card(
    id: Id,
    title: string,
    description: string,
    listId: Id,
    subtasks: seq<Subtask>,
    order: int)

  /** A card as the server sends it; its `subtasks` may be missing. */
  datatype CardPayload = CardPayload(
    id: Id,
    title: string,
    description: string,
    listId: Id,
    subtasks: Option<seq<Subtask>>,
    order: int)

  /** The record the fulfilled cases store: missing subtasks become `[]`. */
  function FromPayload(p: CardPayload): Card {
    Card(p.id, p.title, p.description, p.listId,
         if p.subtasks.Some? then p.subtasks.value else [], p.order)
  }

  /** The records stored for a payload, in payload order. */
  function FromPayloads(ps: seq<CardPayload>): (r: seq<Card>)
    ensures |r| == |ps| && forall i :: 0 <= i < |ps| ==> r[i] == FromPayload(ps[i])
  {
    seq(|ps|, i requires 0 <= i < |ps| => FromPayload(ps[i]))
  }

  function PayloadIds(ps: seq<CardPayload>): seq<Id> {
    seq(|ps|, i requires 0 <= i < |ps| => ps[i].id)
  }

  /** Flips the completion flag of subtask `i`; an index outside the
      checklist (JavaScript reads undefined there) changes nothing. */
  function ToggleAt(s: seq<Subtask>, i: int): (r: seq<Subtask>)
    ensures |r| == |s|
    ensures forall j :: 0 <= j < |s| ==>
      r[j].text == s[j].text && (r[j].completed != s[j].completed <==> j == i)
  {
    if 0 <= i < |s| then s[i := s[i].(completed := !s[i].completed)] else s
  }

  /** Toggling the same subtask twice restores the checklist. */
  lemma ToggleAtTwice(s: seq<Subtask>, i: int)
    ensures ToggleAt(ToggleAt(s, i), i) == s
  {
  }

  /** `m` is `base` after the renumbering loop over `ids`: the same keys;
      each stored card named in `ids` has its last position there as `order`,
      and nothing else changes. */
  ghost predicate Reordered(m: map<Id, Card>, base: map<Id, Card>, ids: seq<Id>) {
    && m.Keys == base.Keys
    && forall k :: k in m ==>
         m[k] == if k in ids then base[k].(order := LastIndexOf(ids, k)) else base[k]
  }

  /** One more loop step renumbers the next id, when it is stored. */
  lemma ReorderedStep(m: map<Id, Card>, base: map<Id, Card>, ids: seq<Id>, id: Id)
    requires Reordered(m, base, ids)
    ensures Reordered(if id in m then m[id := m[id].(order := |ids|)] else m, base, ids + [id])
  {
    forall k | k in ids + [id] {
      LastIndexOfSnoc(ids, id, k);
    }
  }

  class CardSlice {
    var byId: map<Id, Card>
    var allIds: seq<Id>
    var loading: bool
    var error: Option<string>
    var aiLoading: bool

    /** Each card is filed under its own id, and `allIds` lists exactly the
        filed ids. */
    ghost predicate Valid()
      reads this
    {
      && (forall k :: k in byId ==> byId[k].id == k)
      && (forall k :: k in allIds <==> k in byId)
    }

    /** The initial state. */
    constructor ()
      ensures Valid()
      ensures byId == map[] && allIds == []
      ensures !loading && error == None && !aiLoading
    {
      byId := map[];
      allIds := [];
      loading := false;
      error := None;
      aiLoading := false;
    }

    /** `moveCard`: re-parents one card locally; every other field and card
        is left alone, and an unknown card is ignored. */
    method MoveCard(cardId: Id, newListId: Id)
      requires Valid()
      modifies this`byId
      ensures Valid()
      ensures cardId in old(byId) ==>
        byId == old(byId)[cardId := old(byId)[cardId].(listId := newListId)]
      ensures cardId !in old(byId) ==> byId == old(byId)
    {
      if cardId in byId {
        byId := byId[cardId := byId[cardId].(listId := newListId)];
      }
    }

    /** `reorderCards`: each stored card named in `ids` gets its position
        there as its `order` (the last position, when named twice); no
        other card and no other field changes. */
    method ReorderCards(ids: seq<Id>)
      requires Valid()
      modifies this`byId
      ensures Valid()
      ensures Reordered(byId, old(byId), ids)
    {
      var i := 0;
      while i < |ids|
        invariant 0 <= i <= |ids|
        invariant Valid()
        invariant Reordered(byId, old(byId), ids[..i])
      {
        TakeSnoc(ids, i);
        ReorderedStep(byId, old(byId), ids[..i], ids[i]);
        if ids[i] in byId {
          byId := byId[ids[i] := byId[ids[i]].(order := i)];
        }
        i := i + 1;
      }
      assert ids[..i] == ids;
    }

    /** `toggleSubtask`: flips one subtask of one card; an unknown card or
        an index outside its checklist changes nothing. */
    method ToggleSubtask(cardId: Id, subtaskIndex: int)
      requires Valid()
      modifies this`byId
      ensures Valid()
      ensures cardId in old(byId) ==>
        byId == old(byId)[cardId := old(byId)[cardId].(subtasks := ToggleAt(old(byId)[cardId].subtasks, subtaskIndex))]
      ensures cardId !in old(byId) ==> byId == old(byId)
    {
      if cardId in byId && 0 <= subtaskIndex < |byId[cardId].subtasks| {
        var card := byId[cardId];
        byId := byId[cardId := card.(subtasks := ToggleAt(card.subtasks, subtaskIndex))];
      }
    }

    /** `clearCardError`. */
    method ClearError()
      modifies this`error
      ensures error == None
    {
      error := None;
    }

    /** `fetchCardsByList.pending` and `createCard.pending`. */
    method RequestPending()
      modifies this`loading, this`error
      ensures loading && error == None
    {
      loading := true;
      error := None;
    }

    /** `fetchCardsByList.rejected` and `createCard.rejected`. */
    method RequestRejected(message: string)
      modifies this`loading, this`error
      ensures !loading && error == Some(message)
    {
      loading := false;
      error := Some(message);
    }

    /** `updateCard.rejected` and `deleteCard.rejected`: the loading flag is
        left as it was. */
    method MutationRejected(message: string)
      modifies this`error
      ensures error == Some(message)
    {
      error := Some(message);
    }

    /** `fetchCardsByList.fulfilled`: upserts every fetched card (the last
        copy wins when an id repeats), keeps the cards of other lists, and
        appends only ids not yet listed, so `allIds` stays duplicate-free. */
    method FetchCardsByListFulfilled(payload: seq<CardPayload>)
      requires Valid()
      modifies this`byId, this`allIds, this`loading
      ensures Valid() && !loading
      ensures Upserted(byId, old(byId), PayloadIds(payload), FromPayloads(payload))
      ensures allIds == PushAbsent(old(allIds), PayloadIds(payload))
      ensures Distinct(old(allIds)) ==> Distinct(allIds)
    {
      loading := false;
      ghost var ids := PayloadIds(payload);
      ghost var vals := FromPayloads(payload);
      var i := 0;
      while i < |payload|
        invariant 0 <= i <= |payload|
        invariant Valid() && !loading
        invariant Upserted(byId, old(byId), ids[..i], vals[..i])
        invariant allIds == PushAbsent(old(allIds), ids[..i])
      {
        var card := payload[i];
        TakeSnoc(ids, i);
        PushAbsentSnoc(old(allIds), ids[..i], card.id);
        TakeSnoc(vals, i);
        UpsertedStep(byId, old(byId), ids[..i], vals[..i], card.id, FromPayload(card));
        Upsert(card);
        i := i + 1;
      }
      assert ids[..i] == ids && vals[..i] == vals;
    }

    /** One step of the fetch loop: file the card, list its id if new. */
    method Upsert(card: CardPayload)
      requires Valid()
      modifies this`byId, this`allIds
      ensures Valid()
      ensures byId == old(byId)[card.id := FromPayload(card)]
      ensures allIds == if card.id in old(allIds) then old(allIds) else old(allIds) + [card.id]
    {
      byId := byId[card.id := FromPayload(card)];
      if card.id !in allIds {
        allIds := allIds + [card.id];
      }
    }

    /** `createCard.fulfilled`: files the new card and appends its id
        unconditionally; `allIds` stays duplicate-free when the id is new. */
    method CreateCardFulfilled(card: CardPayload)
      requires Valid()
      modifies this`byId, this`allIds, this`loading
      ensures Valid() && !loading
      ensures byId == old(byId)[card.id := FromPayload(card)]
      ensures allIds == old(allIds) + [card.id]
      ensures Distinct(old(allIds)) && card.id !in old(byId) ==> Distinct(allIds)
    {
      loading := false;
      byId := byId[card.id := FromPayload(card)];
      allIds := allIds + [card.id];
    }

    /** `updateCard.fulfilled`: overwrites title, description, list,
        subtasks and order of a card already in the store; a card not in
        the store is not added. */
    method UpdateCardFulfilled(card: CardPayload)
      requires Valid()
      modifies this`byId
      ensures Valid()
      ensures card.id in old(byId) ==> byId == old(byId)[card.id := FromPayload(card)]
      ensures card.id !in old(byId) ==> byId == old(byId)
    {
      if card.id in byId {
        byId := byId[card.id := byId[card.id].(
          title := card.title,
          description := card.description,
          listId := card.listId,
          subtasks := if card.subtasks.Some? then card.subtasks.value else [],
          order := card.order)];
      }
    }

    /** `deleteCard.fulfilled`: the id leaves both `byId` and `allIds`. */
    method DeleteCardFulfilled(cardId: Id)
      requires Valid()
      modifies this`byId, this`allIds
      ensures Valid()
      ensures byId == old(byId) - {cardId}
      ensures allIds == Without(old(allIds), cardId)
      ensures Distinct(old(allIds)) ==> Distinct(allIds)
    {
      byId := byId - {cardId};
      if Distinct(allIds) {
        WithoutDistinct(allIds, cardId);
      }
      allIds := Without(allIds, cardId);
    }

    /** `generateAISubtasks.pending`. */
    method GenerateAiSubtasksPending()
      modifies this`aiLoading
      ensures aiLoading
    {
      aiLoading := true;
    }

    /** `generateAISubtasks.fulfilled`: the card's checklist is replaced
        wholesale by the suggestion; nothing else changes. */
    method GenerateAiSubtasksFulfilled(cardId: Id, subtasks: seq<Subtask>)
      requires Valid()
      modifies this`byId, this`aiLoading
      ensures Valid() && !aiLoading
      ensures cardId in old(byId) ==>
        byId == old(byId)[cardId := old(byId)[cardId].(subtasks := subtasks)]
      ensures cardId !in old(byId) ==> byId == old(byId)
    {
      aiLoading := false;
      if cardId in byId {
        byId := byId[cardId := byId[cardId].(subtasks := subtasks)];
      }
    }

    /** `generateAISubtasks.rejected`: no card changes; the error is
        recorded. */
    method GenerateAiSubtasksRejected(message: string)
      modifies this`aiLoading, this`error
      ensures !aiLoading && error == Some(message)
    {
      aiLoading := false;
      error := Some(message);
    }
  }
}
