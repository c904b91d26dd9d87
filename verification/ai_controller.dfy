/** The AI endpoints of the server. The language-model call and the
    parsing of its reply are not modelled: the parsed suggestion, or the
    reply text, is a parameter, and `None` stands for a failed call or an
    unparseable reply. What is modelled is the validation, the mapping of
    suggestions to subtasks, and the board statistics. */
module AiController {
  import opened Common
  import opened Models

  /** `subtasks.map(text => ({ text, completed: false }))`. */
  function SubtaskObjects(texts: seq<string>): (r: seq<Subtask>)
    ensures |r| == |texts|
    ensures forall i :: 0 <= i < |texts| ==> r[i].text == texts[i] && !r[i].completed
  {
    if texts == [] then [] else [Subtask(texts[0], false)] + SubtaskObjects(texts[1..])
  }

  /** `generateSubtasks`: a request without a title is rejected before
      anything else; a failed suggestion is a server failure; otherwise
      each suggested text becomes an open subtask, in order. */
  method GenerateSubtasks(title: Option<string>, suggestion: Option<seq<string>>)
    returns (r: Result<seq<Subtask>>)
    ensures !Truthy(title) ==> r == Err(Invalid)
    ensures Truthy(title) && suggestion.None? ==> r == Err(ServiceFailure)
    ensures Truthy(title) && suggestion.Some? ==>
      && r.Ok? && |r.value| == |suggestion.value|
      && forall i :: 0 <= i < |r.value| ==> r.value[i] == Subtask(suggestion.value[i], false)
  {
    if !Truthy(title) {
      return Err(Invalid);
    }
    if suggestion.None? {
      return Err(ServiceFailure);
    }
    r := Ok(SubtaskObjects(suggestion.value));
  }

  /** A list with its card references replaced by the stored cards. */
  datatype PopulatedList = PopulatedList(title: string, cards: seq<CardDoc>)

  /** The per-card and per-list summaries of the board data. */
  datatype CardSummary = CardSummary(title: string, subtaskCount: nat, completedSubtasks: nat)
  datatype ListSummary = ListSummary(title: string, cardCount: nat, cards: seq<CardSummary>)

  datatype Stats = Stats(
    totalCards: nat,
    totalSubtasks: nat,
    completedSubtasks: nat,
    completionRate: nat)

  datatype BoardSummary = BoardSummary(summary: string, stats: Stats)

  /** The nested `populate` of lists and their cards: references with no
      stored document are dropped. */
  function PopulateLists(ls: seq<ListDoc>, cards: map<Id, CardDoc>): (r: seq<PopulatedList>)
    ensures |r| == |ls|
    ensures forall i :: 0 <= i < |ls| ==>
      r[i] == PopulatedList(ls[i].title, Present(ls[i].cards, cards))
  {
    if ls == [] then []
    else [PopulatedList(ls[0].title, Present(ls[0].cards, cards))] + PopulateLists(ls[1..], cards)
  }

  function Populate(board: BoardDoc, lists: map<Id, ListDoc>, cards: map<Id, CardDoc>): seq<PopulatedList> {
    PopulateLists(Present(board.lists, lists), cards)
  }

  /** `subtasks.filter(st => st.completed).length`. */
  function CompletedCount(s: seq<Subtask>): (n: nat)
    ensures n <= |s|
    ensures n == |s| <==> forall i :: 0 <= i < |s| ==> s[i].completed
  {
    if s == [] then 0
    else (if s[0].completed then 1 else 0) + CompletedCount(s[1..])
  }

  /** Freshly suggested subtasks are all open. */
  lemma {:induction false} SuggestedSubtasksOpen(texts: seq<string>)
    ensures CompletedCount(SubtaskObjects(texts)) == 0
  {
    if texts != [] {
      SuggestedSubtasksOpen(texts[1..]);
    }
  }

  function SubtasksOf(cs: seq<CardDoc>): nat {
    if cs == [] then 0 else |cs[0].subtasks| + SubtasksOf(cs[1..])
  }

  function CompletedOf(cs: seq<CardDoc>): nat {
    if cs == [] then 0 else CompletedCount(cs[0].subtasks) + CompletedOf(cs[1..])
  }

  /** `totalCards`: the cards of all lists. */
  function TotalCards(ls: seq<PopulatedList>): nat {
    if ls == [] then 0 else |ls[0].cards| + TotalCards(ls[1..])
  }

  /** `totalSubtasks`: the subtasks of all cards of all lists. */
  function TotalSubtasks(ls: seq<PopulatedList>): nat {
    if ls == [] then 0 else SubtasksOf(ls[0].cards) + TotalSubtasks(ls[1..])
  }

  /** `completedSubtasks`: the completed subtasks of all cards of all
      lists. */
  function CompletedSubtasks(ls: seq<PopulatedList>): nat {
    if ls == [] then 0 else CompletedOf(ls[0].cards) + CompletedSubtasks(ls[1..])
  }

  function SummarizeCards(cs: seq<CardDoc>): (r: seq<CardSummary>)
    ensures |r| == |cs|
    ensures forall i :: 0 <= i < |cs| ==>
      r[i] == CardSummary(cs[i].title, |cs[i].subtasks|, CompletedCount(cs[i].subtasks))
  {
    if cs == [] then []
    else [CardSummary(cs[0].title, |cs[0].subtasks|, CompletedCount(cs[0].subtasks))] + SummarizeCards(cs[1..])
  }

  /** `boardData.lists`: per list its title, card count and card
      summaries. */
  function Breakdown(ls: seq<PopulatedList>): (r: seq<ListSummary>)
    ensures |r| == |ls|
    ensures forall i :: 0 <= i < |ls| ==>
      r[i] == ListSummary(ls[i].title, |ls[i].cards|, SummarizeCards(ls[i].cards))
  {
    if ls == [] then []
    else [ListSummary(ls[0].title, |ls[0].cards|, SummarizeCards(ls[0].cards))] + Breakdown(ls[1..])
  }

  function SumCardCounts(bs: seq<ListSummary>): nat {
    if bs == [] then 0 else bs[0].cardCount + SumCardCounts(bs[1..])
  }

  function SumSubtaskCounts(cs: seq<CardSummary>): nat {
    if cs == [] then 0 else cs[0].subtaskCount + SumSubtaskCounts(cs[1..])
  }

  function SumCompletedCounts(cs: seq<CardSummary>): nat {
    if cs == [] then 0 else cs[0].completedSubtasks + SumCompletedCounts(cs[1..])
  }

  /** The total card count is the sum of the breakdown's per-list card
      counts. */
  lemma {:induction false} TotalCardsMatchesBreakdown(ls: seq<PopulatedList>)
    ensures TotalCards(ls) == SumCardCounts(Breakdown(ls))
  {
    if ls != [] {
      TotalCardsMatchesBreakdown(ls[1..]);
      assert Breakdown(ls)[1..] == Breakdown(ls[1..]);
    }
  }

  /** Per list, the subtask totals are the sums of the card summaries'
      counts. */
  lemma {:induction false} CardSummariesMatch(cs: seq<CardDoc>)
    ensures SubtasksOf(cs) == SumSubtaskCounts(SummarizeCards(cs))
    ensures CompletedOf(cs) == SumCompletedCounts(SummarizeCards(cs))
  {
    if cs != [] {
      CardSummariesMatch(cs[1..]);
      assert SummarizeCards(cs)[1..] == SummarizeCards(cs[1..]);
    }
  }

  /** Within the cards of one list, no more subtasks are completed than
      exist. */
  lemma {:induction false} CompletedOfWithin(cs: seq<CardDoc>)
    ensures CompletedOf(cs) <= SubtasksOf(cs)
  {
    if cs != [] {
      CompletedOfWithin(cs[1..]);
    }
  }

  /** On a whole board, no more subtasks are completed than exist. */
  lemma {:induction false} CompletedWithinTotal(ls: seq<PopulatedList>)
    ensures CompletedSubtasks(ls) <= TotalSubtasks(ls)
  {
    if ls != [] {
      CompletedOfWithin(ls[0].cards);
      CompletedWithinTotal(ls[1..]);
    }
  }

  /** `Math.round(completed / total * 100)` for a positive total, 0
      otherwise: the percentage rounded to the nearest integer, halves
      upwards, computed exactly. */
  function CompletionRate(completed: nat, total: nat): (rate: nat)
    ensures total == 0 ==> rate == 0
    ensures total > 0 ==> 2 * total * rate <= 200 * completed + total < 2 * total * (rate + 1)
    ensures completed <= total ==> rate <= 100
  {
    if total == 0 then 0
    else
      var rate := (200 * completed + total) / (2 * total);
      assert 200 * completed + total < 2 * total * (rate + 1);
      assert completed <= total ==> 200 * completed + total < 2 * total * 101;
      rate
  }

  /** The statistics of a populated board. */
  function StatsOf(ls: seq<PopulatedList>): (s: Stats)
    ensures s.completedSubtasks <= s.totalSubtasks && s.completionRate <= 100
  {
    CompletedWithinTotal(ls);
    var completed := CompletedSubtasks(ls);
    var total := TotalSubtasks(ls);
    Stats(TotalCards(ls), total, completed, CompletionRate(completed, total))
  }

  /** `generateBoardSummary`: 400 without a board id, 404 for an unknown
      board, a server failure when the summary cannot be produced;
      otherwise the summary with the statistics of the board's stored
      lists and cards. */
  method GenerateBoardSummary(db: Db, boardId: Option<Id>, summary: Option<string>)
    returns (r: Result<BoardSummary>)
    ensures !Truthy(boardId) ==> r == Err(Invalid)
    ensures Truthy(boardId) && boardId.value !in db.boards ==> r == Err(NotFound)
    ensures Truthy(boardId) && boardId.value in db.boards && summary.None? ==> r == Err(ServiceFailure)
    ensures Truthy(boardId) && boardId.value in db.boards && summary.Some? ==>
      r == Ok(BoardSummary(summary.value, StatsOf(Populate(db.boards[boardId.value], db.lists, db.cards))))
    ensures r.Ok? ==> r.value.stats.completedSubtasks <= r.value.stats.totalSubtasks
    ensures r.Ok? ==> r.value.stats.completionRate <= 100
  {
    if !Truthy(boardId) {
      return Err(Invalid);
    }
    if boardId.value !in db.boards {
      return Err(NotFound);
    }
    var lists := Populate(db.boards[boardId.value], db.lists, db.cards);
    var stats := StatsOf(lists);
    if summary.None? {
      return Err(ServiceFailure);
    }
    r := Ok(BoardSummary(summary.value, stats));
  }
}
