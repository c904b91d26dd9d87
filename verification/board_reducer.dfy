/** The boards slice of the client store: a normalized `byId` map plus the
    `allIds` sequence (in server order), the board being viewed, and the
    loading and error flags. */
module BoardReducer {
  import opened Common

  /** A board as the store keeps it (and as the server sends it, its list
      references already reduced to ids). */
  datatype Board = Board(
    id: Id,
    title: string,
    lists: seq<Id>,
    createdAt: int)

  function PayloadIds(ps: seq<Board>): seq<Id> {
    seq(|ps|, i requires 0 <= i < |ps| => ps[i].id)
  }

  class BoardSlice {
    var byId: map<Id, Board>
    var allIds: seq<Id>
    var currentBoardId: Option<Id>
    var loading: bool
    var error: Option<string>

    /** Each board is filed under its own id, and `allIds` lists exactly the
        filed ids. */
    ghost predicate Valid()
      reads this
    {
      && (forall k :: k in byId ==> byId[k].id == k)
      && (forall k :: k in allIds <==> k in byId)
    }

    /** The initial state. */
    constructor ()
      ensures Valid()
      ensures byId == map[] && allIds == [] && currentBoardId == None
      ensures !loading && error == None
    {
      byId := map[];
      allIds := [];
      currentBoardId := None;
      loading := false;
      error := None;
    }

    /** `setCurrentBoard`. */
    method SetCurrentBoard(boardId: Option<Id>)
      modifies this`currentBoardId
      ensures currentBoardId == boardId
    {
      currentBoardId := boardId;
    }

    /** `addListToBoard`: appends the list id to a stored board's `lists`,
        without checking for a duplicate; an unknown board is ignored. */
    method AddListToBoard(boardId: Id, listId: Id)
      requires Valid()
      modifies this`byId
      ensures Valid()
      ensures boardId in old(byId) ==>
        byId == old(byId)[boardId := old(byId)[boardId].(lists := old(byId)[boardId].lists + [listId])]
      ensures boardId !in old(byId) ==> byId == old(byId)
    {
      if boardId in byId {
        byId := byId[boardId := byId[boardId].(lists := byId[boardId].lists + [listId])];
      }
    }

    /** `removeListFromBoard`: drops every occurrence of the list id from a
        stored board's `lists`, keeping the order of the rest. */
    method RemoveListFromBoard(boardId: Id, listId: Id)
      requires Valid()
      modifies this`byId
      ensures Valid()
      ensures boardId in old(byId) ==>
        byId == old(byId)[boardId := old(byId)[boardId].(lists := Without(old(byId)[boardId].lists, listId))]
      ensures boardId !in old(byId) ==> byId == old(byId)
    {
      if boardId in byId {
        byId := byId[boardId := byId[boardId].(lists := Without(byId[boardId].lists, listId))];
      }
    }

    /** `updateBoardLists`: replaces the `lists` of that one board. */
    method UpdateBoardLists(boardId: Id, lists: seq<Id>)
      requires Valid()
      modifies this`byId
      ensures Valid()
      ensures boardId in old(byId) ==> byId == old(byId)[boardId := old(byId)[boardId].(lists := lists)]
      ensures boardId !in old(byId) ==> byId == old(byId)
    {
      if boardId in byId {
        byId := byId[boardId := byId[boardId].(lists := lists)];
      }
    }

    /** `clearBoardError`. */
    method ClearError()
      modifies this`error
      ensures error == None
    {
      error := None;
    }

    /** `fetchBoards.pending`, `fetchBoard.pending` and `createBoard.pending`. */
    method RequestPending()
      modifies this`loading, this`error
      ensures loading && error == None
    {
      loading := true;
      error := None;
    }

    /** `fetchBoards.rejected`, `fetchBoard.rejected` and
        `createBoard.rejected`. */
    method RequestRejected(message: string)
      modifies this`loading, this`error
      ensures !loading && error == Some(message)
    {
      loading := false;
      error := Some(message);
    }

    /** `updateBoard.rejected` and `deleteBoard.rejected`. */
    method MutationRejected(message: string)
      modifies this`error
      ensures error == Some(message)
    {
      error := Some(message);
    }

    /** `fetchBoards.fulfilled`: the store is reset to the fetched boards;
        `allIds` is the payload's ids in payload order (an id sent twice is
        listed twice and filed with its last copy). */
    method FetchBoardsFulfilled(payload: seq<Board>)
      requires Valid()
      modifies this`byId, this`allIds, this`loading
      ensures Valid() && !loading
      ensures allIds == PayloadIds(payload)
      ensures forall k :: k in byId <==> k in PayloadIds(payload)
      ensures forall k :: k in byId ==> byId[k] == payload[LastIndexOf(PayloadIds(payload), k)]
    {
      loading := false;
      byId := map[];
      allIds := [];
      ghost var ids := PayloadIds(payload);
      var i := 0;
      while i < |payload|
        invariant 0 <= i <= |payload|
        invariant Valid() && !loading
        invariant allIds == ids[..i]
        invariant Upserted(byId, map[], ids[..i], payload[..i])
      {
        var board := payload[i];
        TakeSnoc(ids, i);
        TakeSnoc(payload, i);
        UpsertedStep(byId, map[], ids[..i], payload[..i], board.id, board);
        byId := byId[board.id := board];
        allIds := allIds + [board.id];
        i := i + 1;
      }
      assert ids[..i] == ids && payload[..i] == payload;
    }

    /** `fetchBoard.fulfilled`: upserts the board, lists its id only if it
        is not listed yet, and makes it the current board. */
    method FetchBoardFulfilled(board: Board)
      requires Valid()
      modifies this`byId, this`allIds, this`currentBoardId, this`loading
      ensures Valid() && !loading
      ensures byId == old(byId)[board.id := board]
      ensures allIds == PushAbsent(old(allIds), [board.id])
      ensures Distinct(old(allIds)) ==> Distinct(allIds)
      ensures currentBoardId == Some(board.id)
    {
      loading := false;
      byId := byId[board.id := board];
      if board.id !in allIds {
        allIds := allIds + [board.id];
      }
      currentBoardId := Some(board.id);
    }

    /** `createBoard.fulfilled`: files the new board with no lists and
        appends its id unconditionally; `allIds` stays duplicate-free when
        the id is new. */
    method CreateBoardFulfilled(board: Board)
      requires Valid()
      modifies this`byId, this`allIds, this`loading
      ensures Valid() && !loading
      ensures byId == old(byId)[board.id := board.(lists := [])]
      ensures allIds == old(allIds) + [board.id]
      ensures Distinct(old(allIds)) && board.id !in old(byId) ==> Distinct(allIds)
    {
      loading := false;
      byId := byId[board.id := Board(board.id, board.title, [], board.createdAt)];
      allIds := allIds + [board.id];
    }

    /** `updateBoard.fulfilled`: overwrites title and lists of a board
        already in the store and keeps its creation time; a board not in
        the store is not added. */
    method UpdateBoardFulfilled(board: Board)
      requires Valid()
      modifies this`byId
      ensures Valid()
      ensures board.id in old(byId) ==>
        byId == old(byId)[board.id := board.(createdAt := old(byId)[board.id].createdAt)]
      ensures board.id !in old(byId) ==> byId == old(byId)
    {
      if board.id in byId {
        byId := byId[board.id := byId[board.id].(title := board.title, lists := board.lists)];
      }
    }

    /** `deleteBoard.fulfilled`: the id leaves both `byId` and `allIds`, and
        the current board is cleared only if it was the deleted one. */
    method DeleteBoardFulfilled(boardId: Id)
      requires Valid()
      modifies this`byId, this`allIds, this`currentBoardId
      ensures Valid()
      ensures byId == old(byId) - {boardId}
      ensures allIds == Without(old(allIds), boardId)
      ensures Distinct(old(allIds)) ==> Distinct(allIds)
      ensures currentBoardId == if old(currentBoardId) == Some(boardId) then None else old(currentBoardId)
    {
      byId := byId - {boardId};
      if Distinct(allIds) {
        WithoutDistinct(allIds, boardId);
      }
      allIds := Without(allIds, boardId);
      if currentBoardId == Some(boardId) {
        currentBoardId := None;
      }
    }
  }
}
