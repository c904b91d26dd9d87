/** The server's documents and the database that stores them, as three
    in-memory collections keyed by document id. Timestamps other than a
    board's creation time, and the `updatedAt` hooks, are not modelled. */
module Models {
  import opened Common

  datatype BoardDoc = BoardDoc(
    id: Id,
    title: string,
    lists: seq<Id>,
    createdAt: int)

  datatype ListDoc = ListDoc(
    id: Id,
    title: string,
    boardId: Id,
    cards: seq<Id>,
    order: int)

  datatype CardDoc = CardDoc(
    id: Id,
    title: string,
    description: string,
    listId: Id,
    subtasks: seq<Subtask>,
    order: int)

  /** `x || fallback` on an optional number: an absent value and 0 are both
      falsy and give the fallback. */
  function OrDefault(x: Option<int>, fallback: int): (r: int)
    ensures x.Some? && x.value != 0 ==> r == x.value
    ensures x.None? || x.value == 0 ==> r == fallback
  {
    if x.Some? && x.value != 0 then x.value else fallback
  }

  /** The ids of the lists filed under one board. */
  function ListsOf(lists: map<Id, ListDoc>, boardId: Id): (r: set<Id>)
    ensures forall k :: k in r <==> k in lists && lists[k].boardId == boardId
  {
    set k | k in lists && lists[k].boardId == boardId
  }

  /** The cards that survive `Card.deleteMany({ listId })` issued once for
      each list of `listIds` (a single list when deleting a list, every list
      of the board when deleting a board). */
  function CardsOutside(cards: map<Id, CardDoc>, listIds: set<Id>): (r: map<Id, CardDoc>)
    ensures forall k :: k in r <==> k in cards && cards[k].listId !in listIds
    ensures forall k :: k in r ==> r[k] == cards[k]
  {
    map k | k in cards && cards[k].listId !in listIds :: cards[k]
  }

  /** Deleting the cards of one more list after those of a set of lists is
      deleting the cards of the union. */
  lemma CardsOutsideStep(cards: map<Id, CardDoc>, listIds: set<Id>, l: Id)
    ensures CardsOutside(CardsOutside(cards, listIds), {l}) == CardsOutside(cards, listIds + {l})
  {
    var a := CardsOutside(CardsOutside(cards, listIds), {l});
    var b := CardsOutside(cards, listIds + {l});
    assert a.Keys == b.Keys;
  }

  /** The database: one collection per model. */
  class Db {
    var boards: map<Id, BoardDoc>
    var lists: map<Id, ListDoc>
    var cards: map<Id, CardDoc>

    /** Each document is filed under its own id and has the non-empty
        title its schema requires. */
    ghost predicate Valid()
      reads this
    {
      && (forall k :: k in boards ==> boards[k].id == k && boards[k].title != "")
      && (forall k :: k in lists ==> lists[k].id == k && lists[k].title != "")
      && (forall k :: k in cards ==> cards[k].id == k && cards[k].title != "")
    }

    /** No orphans: every list's board and every card's list exists. */
    ghost predicate ParentsExist()
      reads this
    {
      && (forall k :: k in lists ==> lists[k].boardId in boards)
      && (forall k :: k in cards ==> cards[k].listId in lists)
    }

    /** An empty database. */
    constructor ()
      ensures Valid() && ParentsExist()
      ensures boards == map[] && lists == map[] && cards == map[]
    {
      boards := map[];
      lists := map[];
      cards := map[];
    }
  }

  /** The ids of a collection in some order, each once: the order in which
      a query without a sort visits the documents. */
  method Enumerate<T>(m: map<Id, T>) returns (ids: seq<Id>)
    ensures Distinct(ids)
    ensures forall k :: k in ids <==> k in m
  {
    ids := [];
    var rest := m.Keys;
    while rest != {}
      invariant rest <= m.Keys
      invariant forall k :: k in ids <==> k in m && k !in rest
      invariant Distinct(ids)
      decreases |rest|
    {
      var k :| k in rest;
      ids := ids + [k];
      rest := rest - {k};
    }
  }
}
