/**
 * Moving an issue between the lists of an issue board. A list is backed by a label,
 * or is the board's `Done` list. Moving changes the issue's label set and its
 * open/closed state. Each move is recorded as one call of the update, close or
 * reopen service; a move into or out of `Done` could also go through the update
 * service, which the model does not record.
 */
module BoardMoves {
  import opened Basics

  /** What a board list shows: the issues with a label, or the closed ones. */
  datatype ListKind = LabelList(labelId: int) | DoneList

  /** A list of one of the project's boards. */
  datatype BoardList = BoardList(id: int, boardId: int, kind: ListKind)

  /** The service a move is handed to. */
  datatype Step = UpdateStep | CloseStep | ReopenStep

  /** The first list with id `id`, if any. */
  function FindList(lists: seq<BoardList>, id: int): (r: Option<BoardList>)
    ensures r.Some? ==> r.value in lists && r.value.id == id
    ensures r.None? <==> forall i :: 0 <= i < |lists| ==> lists[i].id != id
  {
    if lists == [] then None
    else if lists[0].id == id then Some(lists[0])
    else
      assert forall i :: 1 <= i < |lists| ==> lists[i] == lists[1..][i - 1];
      FindList(lists[1..], id)
  }

  /** The labels that back a list on any board of the project. */
  function BoardLabels(lists: seq<BoardList>): (r: set<int>)
    ensures forall x :: x in r <==> exists i :: 0 <= i < |lists| && lists[i].kind == LabelList(x)
  {
    if lists == [] then {}
    else
      assert forall i :: 1 <= i < |lists| ==> lists[i] == lists[1..][i - 1];
      (if lists[0].kind.LabelList? then {lists[0].kind.labelId} else {}) + BoardLabels(lists[1..])
  }

  /** From the `Done` list the issue is reopened, into it closed, otherwise updated. */
  function StepOf(from: BoardList, to: BoardList): Step {
    if from.kind == DoneList then ReopenStep
    else if to.kind == DoneList then CloseStep
    else UpdateStep
  }

  /** The label of the destination list, if it has one. */
  function AddedLabels(to: BoardList): set<int> {
    if to.kind.LabelList? then {to.kind.labelId} else {}
  }

  /** Into `Done`: every label backing a list; otherwise the origin's label, if any. */
  function RemovedLabels(lists: seq<BoardList>, from: BoardList, to: BoardList): set<int> {
    if to.kind == DoneList then BoardLabels(lists)
    else if from.kind.LabelList? then {from.kind.labelId}
    else {}
  }

  /** The labels after a move: the added label joins, then the removed ones leave. */
  function MovedLabels(labels: set<int>, lists: seq<BoardList>, from: BoardList, to: BoardList): set<int> {
    (labels + AddedLabels(to)) - RemovedLabels(lists, from, to)
  }

  /** Whether the issue is closed after a move. */
  function MovedClosed(closed: bool, from: BoardList, to: BoardList): bool {
    match StepOf(from, to)
    case ReopenStep => false
    case CloseStep => true
    case UpdateStep => closed
  }

  /** A move needs both lists to exist and to be different. */
  predicate ValidMove(lists: seq<BoardList>, fromId: int, toId: int) {
    FindList(lists, fromId).Some? && FindList(lists, toId).Some?
    && FindList(lists, fromId).value != FindList(lists, toId).value
  }

  /** An issue's labels, its closed flag and the services its changes went through. */
  class Issue {
    var labels: set<int>
    var closed: bool
    /** Every service call that has changed this issue, oldest first. */
    var delegated: seq<Step>

    constructor (labels: set<int>, closed: bool)
      ensures this.labels == labels && this.closed == closed && delegated == []
    {
      this.labels := labels;
      this.closed := closed;
      delegated := [];
    }

    /** The update, close or reopen service applying the label changes of a move. */
    method Apply(step: Step, add: set<int>, remove: set<int>)
      modifies this
      ensures labels == (old(labels) + add) - remove
      ensures closed == match step
                        case ReopenStep => false
                        case CloseStep => true
                        case UpdateStep => old(closed)
      ensures delegated == old(delegated) + [step]
    {
      labels := (labels + add) - remove;
      if step == ReopenStep {
        closed := false;
      } else if step == CloseStep {
        closed := true;
      }
      delegated := delegated + [step];
    }
  }

  /** `Boards::Issues::MoveService` for a project's lists and one request. */
  class MoveService {
    const lists: seq<BoardList>
    const fromListId: int
    const toListId: int

    constructor (lists: seq<BoardList>, fromListId: int, toListId: int)
      ensures this.lists == lists && this.fromListId == fromListId && this.toListId == toListId
    {
      this.lists := lists;
      this.fromListId := fromListId;
      this.toListId := toListId;
    }

    /**
     * `execute(issue)`: `false` with the issue untouched when the move is not valid;
     * otherwise the label and state changes, recorded as one call of the chosen service.
     */
    method Execute(issue: Issue) returns (ok: bool)
      modifies issue
      ensures ok <==> ValidMove(lists, fromListId, toListId)
      ensures !ok ==> issue.labels == old(issue.labels) && issue.closed == old(issue.closed)
                      && issue.delegated == old(issue.delegated)
      ensures ok ==>
                var from := FindList(lists, fromListId).value;
                var to := FindList(lists, toListId).value;
                && issue.labels == MovedLabels(old(issue.labels), lists, from, to)
                && issue.closed == MovedClosed(old(issue.closed), from, to)
                && issue.delegated == old(issue.delegated) + [StepOf(from, to)]
    {
      var from := FindList(lists, fromListId);
      var to := FindList(lists, toListId);
      if from.None? || to.None? || from.value == to.value {
        return false;
      }
      issue.Apply(StepOf(from.value, to.value), AddedLabels(to.value), RemovedLabels(lists, from.value, to.value));
      ok := true;
    }
  }

  // ---------------------------------------------------------------------------
  // What each kind of move does

  /** Between two label lists: the origin's label goes, the destination's comes, the rest stay. */
  lemma {:induction false} MoveBetweenLists(labels: set<int>, lists: seq<BoardList>, from: BoardList, to: BoardList, x: int)
    requires from.kind.LabelList? && to.kind.LabelList? && from.kind.labelId != to.kind.labelId
    ensures x in MovedLabels(labels, lists, from, to) <==>
              x == to.kind.labelId || (x in labels && x != from.kind.labelId)
    ensures StepOf(from, to) == UpdateStep
  {
  }

  /** Into `Done`: every label backing a list of any board goes, the rest stay, and the issue closes. */
  lemma MoveToDone(labels: set<int>, lists: seq<BoardList>, from: BoardList, to: BoardList, x: int)
    requires from.kind.LabelList? && to.kind == DoneList
    ensures x in MovedLabels(labels, lists, from, to) <==>
              x in labels && forall i :: 0 <= i < |lists| ==> lists[i].kind != LabelList(x)
    ensures MovedClosed(false, from, to) && StepOf(from, to) == CloseStep
  {
  }

  /** Out of `Done`: the destination's label joins the others and the issue reopens. */
  lemma MoveFromDone(labels: set<int>, lists: seq<BoardList>, from: BoardList, to: BoardList)
    requires from.kind == DoneList && to.kind.LabelList?
    ensures MovedLabels(labels, lists, from, to) == labels + {to.kind.labelId}
    ensures !MovedClosed(true, from, to) && StepOf(from, to) == ReopenStep
  {
  }

  /** A move onto the list the issue comes from is refused. */
  lemma SameListRefused(lists: seq<BoardList>, id: int)
    ensures !ValidMove(lists, id, id)
  {
  }

  /** A move between lists that both exist and differ is accepted. */
  lemma DistinctListsAccepted(lists: seq<BoardList>, i: nat, j: nat)
    requires i < |lists| && j < |lists| && lists[i].id != lists[j].id
    ensures ValidMove(lists, lists[i].id, lists[j].id)
  {
    assert FindList(lists, lists[i].id).value.id != FindList(lists, lists[j].id).value.id;
  }

  // ---------------------------------------------------------------------------
  // The board of the test file: `Development`, `Testing` and `Done` on board 1,
  // `Regression` on board 2; `Bug` backs no list.

  function TestLists(b1: int, b2: int, development: int, testing: int, regression: int): seq<BoardList> {
    [BoardList(1, b1, LabelList(development)), BoardList(2, b1, LabelList(testing)),
     BoardList(3, b1, DoneList), BoardList(4, b2, LabelList(regression))]
  }

  /** Between lists: `Bug` and `Development` become `Bug` and `Testing`. */
  lemma TestBetweenLists(b1: int, b2: int, bug: int, development: int, testing: int, regression: int)
    requires |{bug, development, testing, regression}| == 4
    ensures var lists := TestLists(b1, b2, development, testing, regression);
            ValidMove(lists, 1, 2)
            && MovedLabels({bug, development}, lists, lists[0], lists[1]) == {bug, testing}
            && !MovedClosed(false, lists[0], lists[1])
  {
  }

  /** To done: all four labels but `Bug` go, across both boards, and the issue closes. */
  lemma TestToDone(b1: int, b2: int, bug: int, development: int, testing: int, regression: int)
    requires |{bug, development, testing, regression}| == 4
    ensures var lists := TestLists(b1, b2, development, testing, regression);
            ValidMove(lists, 2, 3)
            && MovedLabels({bug, development, testing, regression}, lists, lists[1], lists[2]) == {bug}
            && MovedClosed(false, lists[1], lists[2])
  {
    var lists := TestLists(b1, b2, development, testing, regression);
    var labels := {bug, development, testing, regression};
    forall x ensures x in MovedLabels(labels, lists, lists[1], lists[2]) <==> x == bug {
      MoveToDone(labels, lists, lists[1], lists[2], x);
      if x == development { assert lists[0].kind == LabelList(x); }
      if x == testing { assert lists[1].kind == LabelList(x); }
      if x == regression { assert lists[3].kind == LabelList(x); }
    }
  }

  /** From done: a closed issue labelled `Bug` reopens with `Bug` and `Testing`. */
  lemma TestFromDone(b1: int, b2: int, bug: int, development: int, testing: int, regression: int)
    requires |{bug, development, testing, regression}| == 4
    ensures var lists := TestLists(b1, b2, development, testing, regression);
            ValidMove(lists, 3, 2)
            && MovedLabels({bug}, lists, lists[2], lists[1]) == {bug, testing}
            && !MovedClosed(true, lists[2], lists[1])
  {
  }
}
