/** The board endpoints of the server, over the in-memory database. */
module BoardController {
  import opened Common
  import opened Ordering
  import opened Models

  /** The body of an update request: every field optional. */
  datatype BoardChanges = BoardChanges(
    title: Option<string>,
    lists: Option<seq<Id>>)

  /** The sort key of `sort({ createdAt: -1 })`. */
  function NewestFirst(b: BoardDoc): int {
    -b.createdAt
  }

  /** `getBoards`: every stored board exactly once, newest first. */
  method GetBoards(db: Db) returns (r: seq<BoardDoc>)
    requires db.Valid()
    ensures forall i, j :: 0 <= i < j < |r| ==> r[i].createdAt >= r[j].createdAt
    ensures |r| == |db.boards|
    ensures forall b :: b in r ==> b.id in db.boards && db.boards[b.id] == b
    ensures forall k :: k in db.boards ==> multiset(r)[db.boards[k]] == 1
  {
    var ids := Enumerate(db.boards);
    var docs := Present(ids, db.boards);
    r := SortBy(docs, NewestFirst);
    NewestFirstSorted(r);
    forall k | k in db.boards ensures multiset(r)[db.boards[k]] == 1 {
      PresentCount(ids, db.boards, k);
    }
    forall b | b in r ensures b.id in db.boards && db.boards[b.id] == b {
      assert b in multiset(docs) by {
        assert b in multiset(r);
      }
      assert b in docs;
      var k :| k in ids && k in db.boards && db.boards[k] == b;
    }
    PresentTotal(ids, db.boards);
    DistinctKeys(ids, db.boards.Keys);
  }

  /** Non-decreasing by `NewestFirst` is non-increasing by creation time. */
  lemma NewestFirstSorted(r: seq<BoardDoc>)
    requires SortedBy(r, NewestFirst)
    ensures forall i, j :: 0 <= i < j < |r| ==> r[i].createdAt >= r[j].createdAt
  {
    forall i, j | 0 <= i < j < |r| ensures r[i].createdAt >= r[j].createdAt {
      assert NewestFirst(r[i]) <= NewestFirst(r[j]);
    }
  }

  /** A duplicate-free sequence listing exactly the members of a set is as
      long as the set is large. */
  lemma {:induction false} DistinctKeys(ids: seq<Id>, keys: set<Id>)
    requires Distinct(ids)
    requires forall k :: k in ids <==> k in keys
    ensures |ids| == |keys|
  {
    if ids != [] {
      var x := ids[|ids| - 1];
      var init := ids[..|ids| - 1];
      assert ids == init + [x];
      assert x !in init by {
        forall j | 0 <= j < |init| ensures init[j] != x {
          assert init[j] == ids[j];
        }
      }
      assert Distinct(init) by {
        forall i, j | 0 <= i < j < |init| ensures init[i] != init[j] {
          assert init[i] == ids[i] && init[j] == ids[j];
        }
      }
      DistinctKeys(init, keys - {x});
    } else {
      assert keys == {};
    }
  }

  /** `getBoard`: the stored board, or 404. */
  method GetBoard(db: Db, id: Id) returns (r: Result<BoardDoc>)
    requires db.Valid()
    ensures id in db.boards ==> r == Ok(db.boards[id]) && r.value.id == id
    ensures id !in db.boards ==> r == Err(NotFound)
  {
    if id !in db.boards {
      return Err(NotFound);
    }
    r := Ok(db.boards[id]);
  }

  /** `createBoard`: a board needs a non-empty title; it starts with no
      lists and the creation time it is given. */
  method CreateBoard(db: Db, title: Option<string>, newId: Id, now: int) returns (r: Result<BoardDoc>)
    requires db.Valid()
    requires newId !in db.boards
    modifies db`boards
    ensures db.Valid()
    ensures old(db.ParentsExist()) ==> db.ParentsExist()
    ensures !Truthy(title) ==> r == Err(Invalid) && db.boards == old(db.boards)
    ensures Truthy(title) ==>
      r == Ok(BoardDoc(newId, title.value, [], now)) &&
      db.boards == old(db.boards)[newId := r.value]
  {
    if !Truthy(title) {
      return Err(Invalid);
    }
    var board := BoardDoc(newId, title.value, [], now);
    db.boards := db.boards[newId := board];
    r := Ok(board);
  }

  /** `updateBoard`: 404 for an unknown board; otherwise the title changes
      only to a non-empty one and the lists whenever an array is sent. */
  method UpdateBoard(db: Db, id: Id, body: BoardChanges) returns (r: Result<BoardDoc>)
    requires db.Valid()
    modifies db`boards
    ensures db.Valid()
    ensures old(db.ParentsExist()) ==> db.ParentsExist()
    ensures id !in old(db.boards) ==> r == Err(NotFound) && db.boards == old(db.boards)
    ensures id in old(db.boards) ==>
      var board := old(db.boards)[id];
      var updated := board.(
        title := if Truthy(body.title) then body.title.value else board.title,
        lists := if body.lists.Some? then body.lists.value else board.lists);
      r == Ok(updated) && db.boards == old(db.boards)[id := updated]
  {
    if id !in db.boards {
      return Err(NotFound);
    }
    var board := db.boards[id];
    if Truthy(body.title) {
      board := board.(title := body.title.value);
    }
    if body.lists.Some? {
      board := board.(lists := body.lists.value);
    }
    db.boards := db.boards[id := board];
    r := Ok(board);
  }

  /** `deleteBoard`: 404 for an unknown board; otherwise, for each list of
      the board, its cards are deleted; then the lists and the board go.
      No list of the board and no card of those lists is left. */
  method DeleteBoard(db: Db, id: Id) returns (r: Result<()>)
    requires db.Valid()
    modifies db
    ensures db.Valid()
    ensures old(db.ParentsExist()) ==> db.ParentsExist()
    ensures id !in old(db.boards) ==> r == Err(NotFound) && unchanged(db)
    ensures id in old(db.boards) ==>
      && r == Ok(())
      && db.boards == old(db.boards) - {id}
      && db.lists == (map k | k in old(db.lists) && old(db.lists)[k].boardId != id :: old(db.lists)[k])
      && db.cards == CardsOutside(old(db.cards), ListsOf(old(db.lists), id))
    ensures id in old(db.boards) ==>
      && (forall k :: k in db.lists ==> db.lists[k].boardId != id)
      && (forall k :: k in db.cards ==> db.cards[k].listId !in ListsOf(old(db.lists), id))
  {
    if id !in db.boards {
      return Err(NotFound);
    }
    var doomed := ListsOf(db.lists, id);
    var remaining := doomed;
    ghost var done: set<Id> := {};
    assert CardsOutside(db.cards, done) == db.cards;
    while remaining != {}
      invariant remaining + done == doomed && remaining !! done
      invariant db.cards == CardsOutside(old(db.cards), done)
      invariant db.lists == old(db.lists) && db.boards == old(db.boards)
      decreases |remaining|
    {
      var listId :| listId in remaining;
      CardsOutsideStep(old(db.cards), done, listId);
      db.cards := CardsOutside(db.cards, {listId});
      remaining := remaining - {listId};
      done := done + {listId};
    }
    db.lists := map k | k in db.lists && db.lists[k].boardId != id :: db.lists[k];
    db.boards := db.boards - {id};
    r := Ok(());
  }
}
