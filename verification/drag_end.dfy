/** The drop handler of the board view: from a drag-and-drop result and the
    board's lists (already ordered by `order`) it computes the store and
    server updates to dispatch. Dispatching itself is asynchronous and not
    modelled; the handler's outcome is the sequence of actions it issues,
    in issue order, and whether it stopped on a JavaScript exception. */
module DragEnd {
  import opened Common
  import opened Ordering
  import opened ListReducer
  import opened CardReducer
  import opened CardSelectors

  /** The drag `type`: the board's droppable carries lists, a list's
      droppable carries cards; any other type is ignored. */
  datatype DragKind = ListDrag | CardDrag | OtherDrag

  datatype Location = Location(droppableId: Id, index: nat)

  datatype DropResult = DropResult(
    destination: Option<Location>,
    source: Location,
    draggableId: Id,
    kind: DragKind)

  /** What the handler dispatches: the `updateList`/`updateCard` requests
      carrying a new `order`, the local `moveCard`, and the `updateCard`
      request that re-parents a card. */
  datatype Action =
    | UpdateListOrder(listId: Id, order: int)
    | UpdateCardOrder(cardId: Id, order: int)
    | MoveCardLocally(cardId: Id, newListId: Id)
    | UpdateCardPlacement(cardId: Id, listId: Id, order: int)

  /** A drop somewhere other than where the drag started. */
  predicate Moved(drop: DropResult) {
    drop.destination.Some? &&
    !(drop.destination.value.droppableId == drop.source.droppableId &&
      drop.destination.value.index == drop.source.index)
  }

  predicate SameDroppable(drop: DropResult)
    requires drop.destination.Some?
  {
    drop.destination.value.droppableId == drop.source.droppableId
  }

  function ListUpdate(l: List, rank: nat): Action {
    UpdateListOrder(l.id, rank)
  }

  function CardUpdate(c: Card, rank: nat): Action {
    UpdateCardOrder(c.id, rank)
  }

  /** The actions of a renumbering `forEach`: entry `i` gets rank `i`, up to
      the first undefined entry, where dereferencing it throws. */
  function Renumbered<T>(a: seq<Option<T>>, update: (T, nat) -> Action): (r: seq<Action>)
    ensures |r| == FirstHole(a)
    ensures forall i :: 0 <= i < |r| ==> r[i] == update(a[i].value, i)
  {
    seq(FirstHole(a), i requires 0 <= i < FirstHole(a) => update(a[i].value, i))
  }

  /** `lists.find(l => l.id === id)`: the first list with that id. */
  function FindList(lists: seq<List>, id: Id): (r: Option<List>)
    ensures r.None? <==> forall i :: 0 <= i < |lists| ==> lists[i].id != id
    ensures r.Some? ==> r.value.id == id
    ensures r.Some? ==> exists i :: (0 <= i < |lists| && lists[i] == r.value &&
      forall j :: 0 <= j < i ==> lists[j].id != id)
  {
    if lists == [] then None
    else if lists[0].id == id then Some(lists[0])
    else
      var r := FindList(lists[1..], id);
      assert forall i :: 1 <= i < |lists| ==> lists[i] == lists[1..][i - 1];
      r
  }

  /** The cards of a list as the handler reorders them: the list's card
      ids resolved against the stored cards, ids with no stored card
      dropped, sorted by `order`. */
  function ListCards(list: List, cards: map<Id, Card>): (r: seq<Card>)
    ensures SortedBy(r, CardOrder)
    ensures multiset(r) == multiset(Present(list.cards, cards))
  {
    SortBy(Present(list.cards, cards), CardOrder)
  }

  /** The renumbering `forEach`: one action per entry in rank order; it
      stops with an exception at the first undefined entry. */
  method DispatchRanks<T>(a: seq<Option<T>>, update: (T, nat) -> Action)
    returns (dispatched: seq<Action>, threw: bool)
    ensures dispatched == Renumbered(a, update)
    ensures threw <==> FirstHole(a) < |a|
  {
    dispatched := [];
    threw := false;
    var i := 0;
    while i < |a|
      invariant 0 <= i <= |a|
      invariant |dispatched| == i
      invariant forall j :: 0 <= j < i ==> a[j].Some? && dispatched[j] == update(a[j].value, j)
    {
      if a[i].None? {
        threw := true;
        assert FirstHole(a) == i;
        return;
      }
      dispatched := dispatched + [update(a[i].value, i)];
      i := i + 1;
    }
    assert FirstHole(a) == |a|;
  }

  /** `onDragEnd`. */
  method OnDragEnd(drop: DropResult, lists: seq<List>, cards: map<Id, Card>)
    returns (dispatched: seq<Action>, threw: bool)
    ensures !Moved(drop) ==> dispatched == [] && !threw
    ensures Moved(drop) && drop.kind == ListDrag ==>
      var a := SpliceMove(lists, drop.source.index, drop.destination.value.index);
      dispatched == Renumbered(a, ListUpdate) && (threw <==> FirstHole(a) < |a|)
    ensures Moved(drop) && drop.kind == CardDrag && SameDroppable(drop) ==>
      var list := FindList(lists, drop.source.droppableId);
      (list.None? ==> dispatched == [] && threw) &&
      (list.Some? ==>
        var a := SpliceMove(ListCards(list.value, cards), drop.source.index, drop.destination.value.index);
        dispatched == Renumbered(a, CardUpdate) && (threw <==> FirstHole(a) < |a|))
    ensures Moved(drop) && drop.kind == CardDrag && !SameDroppable(drop) ==>
      var dest := drop.destination.value;
      dispatched == [MoveCardLocally(drop.draggableId, dest.droppableId),
                     UpdateCardPlacement(drop.draggableId, dest.droppableId, dest.index)] &&
      !threw
    ensures drop.kind == OtherDrag ==> dispatched == [] && !threw
  {
    dispatched := [];
    threw := false;
    if drop.destination.None? {
      return;
    }
    var dest := drop.destination.value;
    var source := drop.source;
    if dest.droppableId == source.droppableId && dest.index == source.index {
      return;
    }
    if drop.kind == ListDrag {
      var newListOrder := Lift(lists);
      var (removed, rest) := SpliceOut(newListOrder, source.index);
      newListOrder := SpliceIn(rest, dest.index, removed);
      dispatched, threw := DispatchRanks(newListOrder, ListUpdate);
      return;
    }
    if drop.kind == CardDrag {
      if source.droppableId == dest.droppableId {
        var list := FindList(lists, source.droppableId);
        if list.None? {
          threw := true;
          return;
        }
        var listCards := Lift(ListCards(list.value, cards));
        var (removed, rest) := SpliceOut(listCards, source.index);
        listCards := SpliceIn(rest, dest.index, removed);
        dispatched, threw := DispatchRanks(listCards, CardUpdate);
      } else {
        dispatched := [MoveCardLocally(drop.draggableId, dest.droppableId)];
        dispatched := dispatched + [UpdateCardPlacement(drop.draggableId, dest.droppableId, dest.index)];
      }
    }
  }

  /** A list drag between two positions of the board renumbers every list:
      the lists in their new arrangement (a permutation of the old one, the
      dragged list at the destination) get the orders 0, 1, ..., n-1, and
      nothing throws. */
  lemma {:induction false} ListDragRenumbers(lists: seq<List>, from: nat, to: nat)
    requires from < |lists| && to < |lists|
    ensures var u := Renumbered(SpliceMove(lists, from, to), ListUpdate);
      var m := Move(lists, from, to);
      && FirstHole(SpliceMove(lists, from, to)) == |lists|
      && |u| == |lists|
      && multiset(m) == multiset(lists)
      && (forall i :: 0 <= i < |u| ==> u[i] == UpdateListOrder(m[i].id, i))
      && u[to] == UpdateListOrder(lists[from].id, to)
  {
    SpliceMoveInRange(lists, from, to);
    FirstHoleLift(Move(lists, from, to));
  }

  /** A card drag within one list, between two positions it holds,
      renumbers the list's cards: the cards ordered by
      `order`, with the dragged one moved to the destination, get the orders
      0, 1, ..., n-1, and they are a permutation of the list's resolved
      cards (an id the list names twice resolves twice). */
  lemma {:induction false} CardDragRenumbers(list: List, cards: map<Id, Card>, from: nat, to: nat)
    requires from < |ListCards(list, cards)| && to < |ListCards(list, cards)|
    ensures var s := ListCards(list, cards);
      var u := Renumbered(SpliceMove(s, from, to), CardUpdate);
      var m := Move(s, from, to);
      && FirstHole(SpliceMove(s, from, to)) == |s|
      && |u| == |s|
      && multiset(m) == multiset(Present(list.cards, cards))
      && (forall i :: 0 <= i < |u| ==> u[i] == UpdateCardOrder(m[i].id, i))
      && u[to] == UpdateCardOrder(s[from].id, to)
  {
    var s := ListCards(list, cards);
    SpliceMoveInRange(s, from, to);
    FirstHoleLift(Move(s, from, to));
  }

  /** A list drag whose source index lies past the last list removes
      nothing: the undefined value is inserted at the destination (or at
      the end), the lists before it are renumbered in place, and the
      handler throws on reaching it. */
  lemma {:induction false} ListDragFromPastTheEnd(lists: seq<List>, from: nat, to: nat)
    requires from >= |lists|
    ensures var k := if to <= |lists| then to else |lists|;
      var u := Renumbered(SpliceMove(lists, from, to), ListUpdate);
      && FirstHole(SpliceMove(lists, from, to)) == k
      && |u| == k
      && forall i :: 0 <= i < k ==> u[i] == UpdateListOrder(lists[i].id, i)
  {
    var k := if to <= |lists| then to else |lists|;
    var a := SpliceMove(lists, from, to);
    var l := Lift(lists);
    assert SpliceOut(l, from) == (None, l);
    assert a == l[..k] + [None] + l[k..];
    assert forall i :: 0 <= i < k ==> a[i] == Some(lists[i]);
    assert a[k] == None;
  }
}
