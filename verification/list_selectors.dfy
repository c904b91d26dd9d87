/** Derived views of the lists slice. `Object.values(byId)` is `Values`:
    the stored lists in key order, which is the order of first occurrence
    in `allIds`, each stored list once even where `allIds` repeats its id. */
module ListSelectors {
  import opened Common
  import opened Ordering
  import opened ListReducer

  function ListOrder(l: List): int {
    l.order
  }

  /** The filter of `selectListsByBoard`. */
  function OnBoard(boardId: Id): List -> bool {
    (l: List) => l.boardId == boardId
  }

  /** `selectAllLists`: one entry per id of `allIds`, in that order; the
      entry of an id with no list is undefined. */
  function SelectAllLists(byId: map<Id, List>, allIds: seq<Id>): (r: seq<Option<List>>)
    ensures |r| == |allIds|
    ensures forall i :: 0 <= i < |allIds| ==> r[i] == Lookup(byId, allIds[i])
  {
    LookupAll(byId, allIds)
  }

  /** `selectListById`: the list filed under the id, or nothing. */
  function SelectListById(byId: map<Id, List>, listId: Id): (r: Option<List>)
    ensures r.Some? <==> listId in byId
    ensures r.Some? ==> r.value == byId[listId]
  {
    Lookup(byId, listId)
  }

  /** `selectListsByBoard`: the lists of one board, ordered by `order`. The
      output holds exactly the stored lists of that board, each as often as
      the values view holds it, and no other list. */
  function SelectListsByBoard(byId: map<Id, List>, allIds: seq<Id>, boardId: Id): (r: seq<List>)
    ensures SortedBy(r, ListOrder)
    ensures forall l :: l in r <==> l in Values(byId, allIds) && l.boardId == boardId
    ensures forall l :: multiset(r)[l] == (if l.boardId == boardId then multiset(Values(byId, allIds))[l] else 0)
  {
    var kept := Filter(Values(byId, allIds), OnBoard(boardId));
    var r := SortBy(kept, ListOrder);
    assert forall l :: l in r <==> l in kept by {
      forall l ensures l in r <==> l in kept {
        assert l in r <==> l in multiset(r);
      }
    }
    r
  }

  /** In a consistent slice every entry of `selectAllLists` is the list
      filed under that id. */
  lemma SelectAllListsConsistent(byId: map<Id, List>, allIds: seq<Id>)
    requires forall k :: k in byId ==> byId[k].id == k
    requires forall k :: k in allIds ==> k in byId
    ensures forall i :: 0 <= i < |allIds| ==>
      SelectAllLists(byId, allIds)[i].Some? && SelectAllLists(byId, allIds)[i].value.id == allIds[i]
  {
  }

  /** In a consistent slice, even one whose `allIds` lists an id twice,
      every stored list of the board appears exactly once in `selectListsByBoard`, and no list
      of another board appears. */
  lemma SelectListsByBoardExact(byId: map<Id, List>, allIds: seq<Id>, boardId: Id, k: Id)
    requires forall a :: a in byId ==> byId[a].id == a
    requires forall a :: a in allIds <==> a in byId
    requires k in byId
    ensures multiset(SelectListsByBoard(byId, allIds, boardId))[byId[k]] ==
      if byId[k].boardId == boardId then 1 else 0
  {
    PresentCount(KeyOrder(allIds), byId, k);
  }
}
