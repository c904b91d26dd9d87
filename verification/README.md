# Task-Manager kanban: a Dafny model of the board state and its controllers

Task-Manager is a kanban application. It keeps Boards, each holding an ordered
set of Lists, each holding an ordered set of Cards, and every Card has a
checklist of subtasks. This project models the parts of the program that keep
that hierarchy ordered and consistent, and it proves their properties.

- **The client store** keeps three normalized slices: boards, lists and cards.
  Each slice has a `byId` map and an `allIds` sequence. The reducers update
  them in place. Here each slice is a class with those fields, and each reducer
  case is a method. The methods prove that every record stays filed under its
  own id and that `allIds` lists exactly the filed ids. The removals,
  `fetchBoard` and the push-if-absent fetch loops keep `allIds` duplicate-free.
  The `create*.fulfilled` cases keep it so only when the id is new, and
  `fetchBoards` only when the payload repeats no id: the code appends without
  checking in those cases, and the model does the same.
- **The selectors** are pure functions over a slice. The ones that filter and
  sort read `Object.values(byId)` as the stored records in key order (the order
  of first occurrence in `allIds`). Their result is proved sorted by `order`
  and to be exactly the stored records of the given parent, each record once,
  even when `allIds` lists an id twice.
- **The drop handler of the board view (`onDragEnd`)** is a method. It returns
  the actions it would dispatch, in order, and whether it stops on a JavaScript
  exception. JavaScript's `splice` behaviour is modelled exactly, including
  indices past the end. For a drag between positions that exist, the project
  proves two things:
  - the new arrangement is a permutation of the old one, with the dragged
    element at the destination;
  - the orders issued are 0, 1, …, n-1.
- **The server controllers** work on an in-memory database. The database is a
  class with one map per collection. Each controller is a method returning a
  `Result`: `NotFound` stands for 404, `Invalid` for 400, and `ServiceFailure`
  for 500. The id a new document receives is a parameter.
- **The AI controller** is modelled as its validation, the mapping of suggested
  texts to subtasks, and the board statistics. The language-model reply, once
  parsed, is a parameter.

Every server controller is proved to preserve two properties:
- each document is filed under its own id and has a non-empty title;
- no list or card is orphaned.

The project also proves:
- moving a card between lists leaves exactly one of the two lists holding it;
- deleting a list leaves no card whose parent is that list, and deleting a
  board leaves no list whose parent is that board and no card of those lists.
  Another board whose `lists` names a deleted list keeps that reference:
  `deleteList` pulls the id only from the board of `list.boardId`;
- the completed-subtask count never exceeds the subtask count, and the
  completion rate lies in 0..100.

Three behaviours of the code that are easy to misread:
- **Client cross-list card move** (`src/components/Board.jsx:74-85`): it
  re-parents the card locally and asks the server for `order = destination.index`.
  - It does not change either list's `cards`.
  - It does not renumber the other cards.
  - It does not clamp the index.
- **Server `updateCard`**: it appends a moved card at the end of the new list's
  `cards`, not at the destination index.
- **Same-list card reorder**: it renumbers the list's stored cards after sorting
  them by `order`, not in the order of the list's `cards` sequence.

## Model

| member | source | states |
|---|---|---|
| Common.Lookup | src/redux/selectors/boardSelectors.js:21-24 | `byId[id]` as JavaScript reads it: defined exactly when the id is a key, and then the stored entry |
| Common.Without | client/src/redux/reducers/boardReducer.js:34 | `filter(id => id !== x)` keeps exactly the elements other than `x` and never grows |
| Common.WithoutConcat | client/src/redux/reducers/listReducer.js:29 | filtering distributes over concatenation, so the surviving ids keep their relative order |
| Common.WithoutMultiset | client/src/redux/reducers/listReducer.js:29 | filtering removes every occurrence of the id and nothing else: the multiset loses exactly that id |
| Common.WithoutUndoesAppend | client/src/redux/reducers/boardReducer.js:25-36 | appending an id that was absent and then removing it restores the sequence (`addListToBoard` then `removeListFromBoard`) |
| Common.WithoutDistinct | src/redux/reducers/cardReducer.js:113 | the filter keeps a duplicate-free `allIds` duplicate-free |
| Common.LastIndexOf | src/redux/reducers/cardReducer.js:30-34 | the position a `forEach` writes last for an id: an occurrence with none after it |
| Common.LastIndexOfSnoc | src/redux/reducers/cardReducer.js:30-34 | one more loop step moves the last write of the new id to the end and leaves the others put |
| Common.LookupAll | client/src/redux/selectors/cardSelectors.js:7 | `allIds.map(id => byId[id])`: same length, entry `i` is the lookup of id `i` |
| Common.Present | src/components/Board.jsx:62-64 | `ids.map(id => m[id]).filter(Boolean)`: no longer than the ids; it holds the entry of every listed stored id and nothing else |
| Common.PresentTotal | src/components/Board.jsx:62-64 | when every id is stored, nothing is dropped and entry `i` is the entry of id `i` |
| Common.KeyOrder | client/src/redux/selectors/cardSelectors.js:18 | the enumeration order of `byId`'s keys: each id of `allIds` exactly once, in order of first occurrence, and no other id |
| Common.PushAbsentFirstSeen | client/src/redux/selectors/cardSelectors.js:18 | the push-if-absent loop from no ids lists an id before another only when it first occurs in `allIds` before every occurrence of the other |
| Common.Values | client/src/redux/selectors/listSelectors.js:18 | `Object.values(byId)` holds the stored entry of every id listed in `allIds`, and only such entries |
| Common.PresentCount | client/src/redux/selectors/cardSelectors.js:18 | over duplicate-free ids and a map filing each record once, each stored record of a listed id appears exactly once |
| Common.Filter | client/src/redux/selectors/cardSelectors.js:19 | `filter(keep)`: exactly the kept elements, each as often as in the input |
| Common.PushAbsent | src/redux/reducers/cardReducer.js:64-66 | the push-if-absent loop keeps the old ids as a prefix, adds exactly the new ids, and keeps a duplicate-free sequence duplicate-free |
| Common.UpsertedStep | src/redux/reducers/cardReducer.js:55-63 | one more write of the fetch loop extends `Upserted`: the new key holds its last write, the others keep theirs |
| Common.PushAbsentSnoc | src/redux/reducers/cardReducer.js:64-66 | one more id extends the push-if-absent loop by exactly one conditional push |
| Ordering.InsertBy | client/src/redux/selectors/cardSelectors.js:20 | one insertion step of the sort adds exactly the element |
| Ordering.InsertBySorted | client/src/redux/selectors/cardSelectors.js:20 | inserting into a sorted sequence keeps it sorted |
| Ordering.SortBy | client/src/redux/selectors/cardSelectors.js:20 | `sort((a, b) => a.order - b.order)`: a permutation of the input that is non-decreasing by the key |
| Ordering.SpliceOut | src/components/Board.jsx:46 | `splice(start, 1)` returns the element at `start` and leaves the other elements in their order, or returns undefined and leaves the array unchanged past the end |
| Ordering.SpliceIn | src/components/Board.jsx:47 | `splice(start, 0, x)` puts `x` at `start`, or at the end when `start` is past it; the elements before it stay put, and those after it shift up by one in their order |
| Ordering.Lift | src/components/Board.jsx:45 | `Array.from`: the same elements, all defined |
| Ordering.Move | src/components/Board.jsx:45-47 | the in-range splice-move keeps the length, is a permutation, and puts the moved element at the destination |
| Ordering.MoveAt | src/components/Board.jsx:45-47 | element by element, the stretch between the two positions shifts by one and the rest stays put |
| Ordering.SpliceMoveInRange | src/components/Board.jsx:45-47 | on in-range indices the two JavaScript splices compute `Move` and leave no undefined entry |
| Ordering.MoveToSelf | src/components/Board.jsx:40-42 | a move onto the same position changes nothing |
| Ordering.MoveRoundTrip | src/components/Board.jsx:45-47 | moving back from the destination to the source restores the original sequence |
| Ordering.FirstHole | src/components/Board.jsx:49-51 | where a dereferencing `forEach` throws: every earlier entry is defined and this one is not |
| Ordering.FirstHoleLift | src/components/Board.jsx:49-51 | a fully defined sequence has no hole |
| CardReducer.ToggleAt | src/redux/reducers/cardReducer.js:38-40 | same length and texts; exactly the subtask at the index flips, and none flips for an index outside the checklist |
| CardReducer.ToggleAtTwice | src/redux/reducers/cardReducer.js:36-42 | toggling the same subtask twice restores the checklist |
| CardReducer.ReorderedStep | src/redux/reducers/cardReducer.js:30-34 | one more step of the renumbering loop gives the next stored card its position and keeps every earlier last position |
| CardReducer.CardSlice.constructor | src/redux/reducers/cardReducer.js:10-16 | empty maps and ids, flags cleared |
| CardReducer.CardSlice.MoveCard | src/redux/reducers/cardReducer.js:22-27 | only the card's `listId` changes; every other field and card is unchanged; an unknown card is ignored |
| CardReducer.CardSlice.ReorderCards | src/redux/reducers/cardReducer.js:28-35 | each stored card named in the ids gets its (last) position as `order`; all other cards and fields unchanged |
| CardReducer.CardSlice.ToggleSubtask | src/redux/reducers/cardReducer.js:36-42 | only that card's checklist changes, by `ToggleAt`; an unknown card changes nothing |
| CardReducer.CardSlice.ClearError | src/redux/reducers/cardReducer.js:43-45 | the error is cleared |
| CardReducer.CardSlice.RequestPending | src/redux/reducers/cardReducer.js:49-52 | loading set, error cleared |
| CardReducer.CardSlice.RequestRejected | src/redux/reducers/cardReducer.js:69-72 | loading cleared, error recorded |
| CardReducer.CardSlice.MutationRejected | src/redux/reducers/cardReducer.js:107-109 | error recorded, loading untouched |
| CardReducer.CardSlice.Upsert | src/redux/reducers/cardReducer.js:56-66 | one loop step: the card is filed, its id appended only if absent |
| CardReducer.CardSlice.FetchCardsByListFulfilled | src/redux/reducers/cardReducer.js:53-68 | every fetched card is stored (last copy wins, missing subtasks become `[]`); other cards stay; `allIds` gains only new ids and stays duplicate-free |
| CardReducer.CardSlice.CreateCardFulfilled | src/redux/reducers/cardReducer.js:77-89 | the card is stored and its id appended; `allIds` stays duplicate-free when the id is new |
| CardReducer.CardSlice.UpdateCardFulfilled | src/redux/reducers/cardReducer.js:94-106 | a stored card is overwritten field by field; an unknown card is not added |
| CardReducer.CardSlice.DeleteCardFulfilled | src/redux/reducers/cardReducer.js:110-114 | the id leaves both `byId` and `allIds`; `allIds` stays duplicate-free |
| CardReducer.CardSlice.GenerateAiSubtasksPending | src/redux/reducers/cardReducer.js:118-120 | the AI flag is set |
| CardReducer.CardSlice.GenerateAiSubtasksFulfilled | src/redux/reducers/cardReducer.js:121-127 | only that card's checklist is replaced wholesale; the AI flag is cleared |
| CardReducer.CardSlice.GenerateAiSubtasksRejected | src/redux/reducers/cardReducer.js:128-131 | no card changes; the AI flag is cleared and the error recorded |
| ListReducer.ReorderedStep | client/src/redux/reducers/listReducer.js:40-44 | one more step of the renumbering loop gives the next stored list its position and keeps every earlier last position |
| ListReducer.ListSlice.constructor | client/src/redux/reducers/listReducer.js:9-14 | empty maps and ids, flags cleared |
| ListReducer.ListSlice.AddCardToList | client/src/redux/reducers/listReducer.js:20-25 | the card id is appended to a stored list's `cards`; an unknown list is ignored |
| ListReducer.ListSlice.RemoveCardFromList | client/src/redux/reducers/listReducer.js:26-31 | every occurrence of the card id leaves that list's `cards`, the rest keep their order |
| ListReducer.ListSlice.UpdateListCards | client/src/redux/reducers/listReducer.js:32-37 | that list's `cards` is replaced; nothing else changes |
| ListReducer.ListSlice.ReorderLists | client/src/redux/reducers/listReducer.js:38-45 | each stored list named in the ids gets its (last) position as `order`; all other lists unchanged |
| ListReducer.ListSlice.ClearError | client/src/redux/reducers/listReducer.js:46-48 | the error is cleared |
| ListReducer.ListSlice.RequestPending | client/src/redux/reducers/listReducer.js:52-55 | loading set, error cleared |
| ListReducer.ListSlice.RequestRejected | client/src/redux/reducers/listReducer.js:71-74 | loading cleared, error recorded |
| ListReducer.ListSlice.MutationRejected | client/src/redux/reducers/listReducer.js:106-108 | error recorded, loading untouched |
| ListReducer.ListSlice.Upsert | client/src/redux/reducers/listReducer.js:59-68 | one loop step: the list is filed, its id appended only if absent |
| ListReducer.ListSlice.FetchListsByBoardFulfilled | client/src/redux/reducers/listReducer.js:56-70 | every fetched list is stored (last copy wins); other lists stay; `allIds` gains only new ids and stays duplicate-free |
| ListReducer.ListSlice.CreateListFulfilled | client/src/redux/reducers/listReducer.js:79-90 | the list is stored with no cards and its id appended |
| ListReducer.ListSlice.UpdateListFulfilled | client/src/redux/reducers/listReducer.js:95-105 | a stored list gets the new title, cards and order and keeps its board; an unknown list is not added |
| ListReducer.ListSlice.DeleteListFulfilled | client/src/redux/reducers/listReducer.js:109-113 | the id leaves both `byId` and `allIds`; `allIds` stays duplicate-free |
| BoardReducer.BoardSlice.constructor | client/src/redux/reducers/boardReducer.js:10-16 | empty maps and ids, no current board, flags cleared |
| BoardReducer.BoardSlice.SetCurrentBoard | client/src/redux/reducers/boardReducer.js:22-24 | the current board id becomes the given one |
| BoardReducer.BoardSlice.AddListToBoard | client/src/redux/reducers/boardReducer.js:25-30 | the list id is appended (duplicates allowed) to a stored board's `lists`; an unknown board is ignored |
| BoardReducer.BoardSlice.RemoveListFromBoard | client/src/redux/reducers/boardReducer.js:31-36 | every occurrence of the list id leaves that board's `lists`; an unknown board is ignored |
| BoardReducer.BoardSlice.UpdateBoardLists | client/src/redux/reducers/boardReducer.js:37-42 | that board's `lists` is replaced; no other field or board changes |
| BoardReducer.BoardSlice.ClearError | client/src/redux/reducers/boardReducer.js:43-45 | the error is cleared |
| BoardReducer.BoardSlice.RequestPending | client/src/redux/reducers/boardReducer.js:49-52 | loading set, error cleared |
| BoardReducer.BoardSlice.RequestRejected | client/src/redux/reducers/boardReducer.js:67-70 | loading cleared, error recorded |
| BoardReducer.BoardSlice.MutationRejected | client/src/redux/reducers/boardReducer.js:122-124 | error recorded, loading untouched |
| BoardReducer.BoardSlice.FetchBoardsFulfilled | client/src/redux/reducers/boardReducer.js:53-66 | the store is reset: `allIds` is the payload ids in payload order and `byId` holds exactly those boards (last copy wins) |
| BoardReducer.BoardSlice.FetchBoardFulfilled | client/src/redux/reducers/boardReducer.js:75-88 | the board is upserted, its id listed only if absent (duplicate-free kept), and it becomes current |
| BoardReducer.BoardSlice.CreateBoardFulfilled | client/src/redux/reducers/boardReducer.js:97-107 | the board is stored with no lists and its id appended |
| BoardReducer.BoardSlice.UpdateBoardFulfilled | client/src/redux/reducers/boardReducer.js:112-121 | a stored board gets the new title and lists and keeps `createdAt`; an unknown board is not added |
| BoardReducer.BoardSlice.DeleteBoardFulfilled | client/src/redux/reducers/boardReducer.js:125-132 | the id leaves `byId` and `allIds`; the current board is cleared exactly when it was the deleted one |
| CardSelectors.SelectAllCards | client/src/redux/selectors/cardSelectors.js:5-8 | one entry per id of `allIds`, in that order, each the lookup of that id |
| CardSelectors.SelectCardById | client/src/redux/selectors/cardSelectors.js:10-13 | the stored card for the id, or nothing when absent |
| CardSelectors.SelectCardsByList | client/src/redux/selectors/cardSelectors.js:15-22 | sorted by `order`; holds exactly the cards of that list among `Object.values(byId)` (each stored card once, in key order), each as often as that view holds it |
| CardSelectors.SelectAllCardsConsistent | client/src/redux/selectors/cardSelectors.js:5-8 | in a consistent slice every entry is defined and is the card of that id |
| CardSelectors.SelectCardsByListExact | client/src/redux/selectors/cardSelectors.js:15-22 | in a consistent slice, whether or not `allIds` repeats an id, each stored card of the list appears exactly once and no other stored card appears |
| CardSelectors.SelectCardsByListRepeatedId | client/src/redux/selectors/cardSelectors.js:15-22 | a card whose id `allIds` lists twice (as `createCard.fulfilled` of a stored card leaves it) is selected exactly once |
| ListSelectors.SelectAllLists | client/src/redux/selectors/listSelectors.js:5-8 | one entry per id of `allIds`, in that order, each the lookup of that id |
| ListSelectors.SelectListById | client/src/redux/selectors/listSelectors.js:10-13 | the stored list for the id, or nothing when absent |
| ListSelectors.SelectListsByBoard | client/src/redux/selectors/listSelectors.js:15-22 | sorted by `order`; holds exactly the lists of that board among `Object.values(byId)` (each stored list once, in key order), each as often as that view holds it |
| ListSelectors.SelectAllListsConsistent | client/src/redux/selectors/listSelectors.js:5-8 | in a consistent slice every entry is defined and is the list of that id |
| ListSelectors.SelectListsByBoardExact | client/src/redux/selectors/listSelectors.js:15-22 | in a consistent slice, whether or not `allIds` repeats an id, each stored list of the board appears exactly once and no other stored list appears |
| BoardSelectors.SelectAllBoards | src/redux/selectors/boardSelectors.js:5-8 | as long as `allIds`, entry `i` the lookup of id `i` |
| BoardSelectors.SelectCurrentBoard | src/redux/selectors/boardSelectors.js:15-19 | nothing when the current id is null or empty; otherwise the lookup of the current id |
| BoardSelectors.SelectBoardById | src/redux/selectors/boardSelectors.js:21-24 | the stored board for the id, or nothing when absent |
| BoardSelectors.SelectAllBoardsConsistent | src/redux/selectors/boardSelectors.js:5-8 | in a consistent slice the view lists the stored boards in `allIds` order |
| DragEnd.Renumbered | src/components/Board.jsx:49-51 | one action per entry before the first undefined one, entry `i` with rank `i` |
| DragEnd.FindList | src/components/Board.jsx:60 | `lists.find`: nothing exactly when no list has the id, otherwise the first list with it |
| DragEnd.ListCards | src/components/Board.jsx:62-65 | the list's stored cards, sorted by `order`, as a permutation of the resolved ids |
| DragEnd.DispatchRanks | src/components/Board.jsx:71-73 | the renumbering loop issues exactly `Renumbered` and throws exactly when an entry is undefined |
| DragEnd.OnDragEnd | src/components/Board.jsx:36-87 | no action without a destination or for a drop in place; list drags and same-list card drags renumber the splice-moved sequence; a same-list drag on an unknown list throws; a cross-list drag issues only the local re-parent and the server request with `order = destination.index`; other drag types do nothing |
| DragEnd.ListDragRenumbers | src/components/Board.jsx:45-51 | an in-range list drag issues orders 0..n-1 to a permutation of the lists, with the dragged list at the destination, and does not throw |
| DragEnd.CardDragRenumbers | src/components/Board.jsx:62-73 | an in-range same-list card drag issues orders 0..n-1 to a permutation of the list's stored cards, with the dragged card at the destination |
| DragEnd.ListDragFromPastTheEnd | src/components/Board.jsx:45-51 | a source index past the last list inserts undefined at the destination: the lists before it keep their ranks and the handler throws there |
| Models.OrDefault | server/controllers/cardController.js:26 | JavaScript's or-default on an order: the order when present and non-zero, otherwise the fallback |
| Models.ListsOf | server/controllers/boardController.js:74 | `List.find({ boardId })`: exactly the stored lists of the board |
| Models.CardsOutside | server/controllers/listController.js:71 | `Card.deleteMany({ listId })`: exactly the cards of other lists survive, unchanged |
| Models.CardsOutsideStep | server/controllers/boardController.js:75-77 | deleting the cards of one more list composes with the earlier deletions |
| CardController.GetCardsByList | server/controllers/cardController.js:5-12 | sorted by ascending `order`; each stored card of the list exactly once, nothing else |
| CardController.ApplyEdits | server/controllers/cardController.js:49-52 | title only if non-empty, description and order if sent, subtasks if an array is sent; the list is untouched |
| CardController.Relink | server/controllers/cardController.js:55-74 | the card id is filtered out of the old list (if it exists) and appended to the new one; afterwards only the new one holds it |
| CardController.CreateCard | server/controllers/cardController.js:15-39 | 404 and nothing stored for a missing list; 400 and nothing stored without a title; otherwise the card with default description, no subtasks, the sent order or (when missing or 0) the list's card count, appended to the list |
| CardController.UpdateCard | server/controllers/cardController.js:42-81 | 404 for an unknown card; partial update; a move to an unknown list is 404 with nothing saved; a move leaves exactly one of the two lists holding the card; consistency and no-orphans preserved |
| CardController.DeleteCard | server/controllers/cardController.js:84-101 | 404 for an unknown card; otherwise it is pulled from its list and deleted |
| ListController.GetListsByBoard | server/controllers/listController.js:5-14 | sorted by ascending `order`; each stored list of the board exactly once, nothing else |
| ListController.CreateList | server/controllers/listController.js:17-40 | 404 and nothing stored for a missing board; 400 without a title; otherwise the list with no cards, the sent order or (when missing or 0) the board's list count, appended to the board |
| ListController.UpdateList | server/controllers/listController.js:43-59 | 404 for an unknown list; title only if non-empty, cards if sent, order if sent; the board never changes |
| ListController.DeleteList | server/controllers/listController.js:62-82 | 404 for an unknown list; otherwise its cards are deleted, it is pulled from its board and removed; no card points at it |
| BoardController.GetBoards | server/controllers/boardController.js:6-16 | every stored board exactly once, by descending `createdAt` |
| BoardController.NewestFirstSorted | server/controllers/boardController.js:11 | ascending by the negated key is descending by `createdAt` |
| BoardController.GetBoard | server/controllers/boardController.js:19-32 | the stored board, or 404 |
| BoardController.CreateBoard | server/controllers/boardController.js:35-45 | 400 without a title; otherwise a board with that title, no lists and the given creation time |
| BoardController.UpdateBoard | server/controllers/boardController.js:48-63 | 404 for an unknown board; title only if non-empty, lists if sent |
| BoardController.DeleteBoard | server/controllers/boardController.js:66-85 | 404 for an unknown board; otherwise the cards of its lists, its lists and the board are removed; no list of the board and no card of those lists is left |
| AiController.SubtaskObjects | server/controllers/aiController.js:48-51 | as many subtasks as texts, same texts in the same order, all open |
| AiController.GenerateSubtasks | server/controllers/aiController.js:5-61 | 400 without a title before anything else; 500 when the suggestion fails; otherwise the suggestions as open subtasks |
| AiController.PopulateLists | server/controllers/aiController.js:71-74 | each list paired with its stored cards, dangling card references dropped |
| AiController.CompletedCount | server/controllers/aiController.js:88 | `filter(st => st.completed).length`: at most the checklist length, equal exactly when all are completed |
| AiController.SuggestedSubtasksOpen | server/controllers/aiController.js:48-51 | freshly suggested subtasks count no completed one |
| AiController.SummarizeCards | server/controllers/aiController.js:85-89 | one summary per card: title, subtask count, completed count |
| AiController.Breakdown | server/controllers/aiController.js:80-91 | one summary per list: title, `cards.length` as card count, card summaries |
| AiController.TotalCardsMatchesBreakdown | server/controllers/aiController.js:84-93 | `totalCards` equals the sum of the per-list `cardCount` values |
| AiController.CardSummariesMatch | server/controllers/aiController.js:85-98 | per list, the subtask and completed sums equal the sums of the card summaries' counts |
| AiController.CompletedOfWithin | server/controllers/aiController.js:94-98 | within one list, completed subtasks never exceed subtasks |
| AiController.CompletedWithinTotal | server/controllers/aiController.js:94-98 | `completedSubtasks` never exceeds `totalSubtasks` |
| AiController.CompletionRate | server/controllers/aiController.js:137 | 0 for no subtasks; otherwise the percentage rounded half up, which lies in 0..100 |
| AiController.StatsOf | server/controllers/aiController.js:93-98 | completed within total and a rate within 0..100 |
| AiController.GenerateBoardSummary | server/controllers/aiController.js:63-147 | 400 without a board id, 404 for an unknown board, 500 when no summary comes back; otherwise the statistics of the board's stored lists and cards |

## Left out
- Request bodies are taken as well-typed. An explicit `null` is treated as an
  absent field, but the `!== undefined` guards store it
  (`server/controllers/cardController.js:50,52`,
  `server/controllers/listController.js:53`). Values of the wrong type are not
  modelled either: Mongoose fails to cast them on `save()`, and the handler
  answers 400.

- Rendering, local UI state, toasts and the asynchronous thunks are not
  modelled. The actions `onDragEnd` dispatches are returned in issue order; their
  network effects and any interleaving between them are not modelled.
- The language-model requests are not modelled: prompt text, the HTTP call, and
  the JSON or regular-expression parsing of the reply. The parsed suggestion and
  the summary text are parameters, and `None` stands for any failure.
  - GenerateSubtasks: does not take the description, which only shapes the prompt.
  - GenerateSubtasks: does not model suggestions that are not strings.
- CompletionRate: rounds the exact quotient. The source divides in floating
  point, and a quotient that is exactly a half can land just below it and round
  down.
- The document database is modelled as three in-memory maps, and queries as
  scans of them.
  - Ties in `sort` come out in scan order; the database gives no order there.
  - `populate` is modelled only in the board summary. In `getBoards`, `getBoard`
    and `getListsByBoard` the returned documents keep their id references.
- Malformed ids, which make the database fail to cast and answer 400 or 500, are
  not modelled.
- The `trim` setter on titles is not modelled, so a title of spaces only counts
  as non-empty here.
- Timestamps are not modelled (`updatedAt`, and `createdAt` on lists and cards).
  A board's `createdAt` is a parameter of `createBoard`.
- Fresh document ids are parameters, required to be unused.
- The reducers' `error` value (`action.payload || action.error.message`) is a
  message parameter.
- Fetched boards and lists arrive with their child references already reduced
  to ids: `map(x => x._id || x)` is not modelled.
- `Object.values(byId)` in the selectors is read as the stored records in order
  of first occurrence in `allIds`. String keys enumerate in first-insertion
  order; a slice adds a key when its id first enters `allIds` and deletes it
  when every copy leaves. JavaScript's own object model is not modelled. The
  properties proved about the selectors do not depend on this order.
- `src/components/Board.jsx:61` reads the stored cards through
  `useSelector.getState()`, which react-redux does not provide. The model takes
  the card map as a parameter. As written, that line would throw before a
  same-list card drag dispatches anything.
- SortBy: does not state stability. It is an insertion sort, and its result is
  proved only sorted and a permutation.
