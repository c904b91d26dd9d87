/** Derived views of the boards slice. */
module BoardSelectors {
  import opened Common
  import opened BoardReducer

  /** `selectAllBoards`: one entry per id of `allIds`, in that order; the
      entry of an id with no board is undefined. */
  function SelectAllBoards(byId: map<Id, Board>, allIds: seq<Id>): (r: seq<Option<Board>>)
    ensures |r| == |allIds|
    ensures forall i :: 0 <= i < |allIds| ==> r[i] == Lookup(byId, allIds[i])
  {
    LookupAll(byId, allIds)
  }

  /** `selectCurrentBoard`: nothing while no board is current (an unset or
      empty id is falsy), otherwise the board filed under the current id,
      if any. */
  function SelectCurrentBoard(byId: map<Id, Board>, currentBoardId: Option<Id>): (r: Option<Board>)
    ensures !Truthy(currentBoardId) ==> r == None
    ensures Truthy(currentBoardId) ==> r == Lookup(byId, currentBoardId.value)
  {
    if currentBoardId.Some? && currentBoardId.value != "" then Lookup(byId, currentBoardId.value) else None
  }

  /** `selectBoardById`: the board filed under the id, or nothing. */
  function SelectBoardById(byId: map<Id, Board>, boardId: Id): (r: Option<Board>)
    ensures r.Some? <==> boardId in byId
    ensures r.Some? ==> r.value == byId[boardId]
  {
    Lookup(byId, boardId)
  }

  /** In a consistent slice every entry of `selectAllBoards` is the board
      filed under that id, so the view lists the boards in `allIds` order. */
  lemma SelectAllBoardsConsistent(byId: map<Id, Board>, allIds: seq<Id>)
    requires forall k :: k in byId ==> byId[k].id == k
    requires forall k :: k in allIds ==> k in byId
    ensures forall i :: 0 <= i < |allIds| ==>
      SelectAllBoards(byId, allIds)[i] == Some(byId[allIds[i]]) && byId[allIds[i]].id == allIds[i]
  {
  }
}
