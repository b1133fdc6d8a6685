/** One task card: its status chips, its priority colour, and the expand and
    delete-confirmation state with the requests it passes to its parent. */
module Item {
  import opened Common
  import opened Server

  /** The status chips a card can show next to the category. */
  datatype StatusChip = Overdue | Upcoming | Completed

  /** `isDueDate`: the task's instant is before now; such a task is never
      upcoming. */
  predicate IsDueDate(t: Todo, now: int)
    ensures IsDueDate(t, now) ==> !IsUpcoming(t, now)
  {
    t.dateTime < now
  }

  /** `isUpcoming`: the task is not done and its instant is after now,
      which is the condition of the server's `filter=upcoming`. */
  predicate IsUpcoming(t: Todo, now: int)
    ensures IsUpcoming(t, now) <==> StatusHolds(Some("upcoming"), t, now)
  {
    !t.isDone && t.dateTime > now
  }

  /** The chips shown for `t` at instant `now`. */
  function Chips(t: Todo, now: int): (r: set<StatusChip>)
    ensures Overdue in r <==> !t.isDone && t.dateTime < now
    ensures Upcoming in r <==> !t.isDone && t.dateTime > now
    ensures Completed in r <==> t.isDone
  {
    (if IsDueDate(t, now) && !t.isDone then {Overdue} else {})
    + (if IsUpcoming(t, now) then {Upcoming} else {})
    + (if t.isDone then {Completed} else {})
  }

  /** The chips exclude each other, and a task that is not done and due
      exactly now shows none. */
  lemma ChipsExclusive(t: Todo, now: int)
    ensures |Chips(t, now)| <= 1
    ensures Chips(t, now) == {} <==> !t.isDone && t.dateTime == now
  {
  }

  /** The card's chips agree with the server's list filter: the Upcoming
      chip shows exactly for the tasks `filter=upcoming` lists, the
      Completed chip exactly for those `filter=done` lists. */
  lemma ChipsAgreeWithFilter(t: Todo, now: int)
    ensures Upcoming in Chips(t, now) <==> StatusHolds(Some("upcoming"), t, now)
    ensures Completed in Chips(t, now) <==> StatusHolds(Some("done"), t, now)
  {
  }

  /** `priorityColors[key]`: the colour of each priority name, and nothing
      for any other text. */
  function PriorityColour(key: string): (r: Option<string>)
    ensures r.Some? <==> ParsePriority(key).Some?
  {
    if key == "LOW" then Some("#8bc34a")
    else if key == "MEDIUM" then Some("#ffeb3b")
    else if key == "HIGH" then Some("#ff9800")
    else if key == "URGENT" then Some("#f44336")
    else None
  }

  /** The card's left border colour: the priority's colour, or grey. */
  function BorderColour(key: string): (r: string)
    ensures PriorityColour(key).Some? ==> r == PriorityColour(key).value
    ensures PriorityColour(key).None? ==> r == "grey"
  {
    PriorityColour(key).GetOr("grey")
  }

  /** Every priority has its own colour, none of them grey. */
  lemma ColoursDistinct(p: Priority, q: Priority)
    ensures BorderColour(PriorityName(p)) != "grey"
    ensures p != q ==> BorderColour(PriorityName(p)) != BorderColour(PriorityName(q))
  {
  }

  /** What the card asks of its parent. */
  datatype ItemRequest = ToggleRequest(todo: Todo) | EditRequest(todo: Todo) | DeleteRequest(id: int)

  class ItemView {
    const todo: Todo
    var expanded: bool
    var deleteConfirmOpen: bool
    /** Every call to `onToggle`, `onEdit` and `onDelete`, in order. */
    var requests: seq<ItemRequest>

    constructor (t: Todo)
      ensures todo == t && !expanded && !deleteConfirmOpen && requests == []
    {
      todo := t;
      expanded := false;
      deleteConfirmOpen := false;
      requests := [];
    }

    /** The expand icon. */
    method ToggleExpand()
      modifies this
      ensures expanded == !old(expanded)
      ensures deleteConfirmOpen == old(deleteConfirmOpen) && requests == old(requests)
    {
      expanded := !expanded;
    }

    /** The checkbox. */
    method Toggle()
      modifies this
      ensures requests == old(requests) + [ToggleRequest(todo)]
      ensures expanded == old(expanded) && deleteConfirmOpen == old(deleteConfirmOpen)
    {
      requests := requests + [ToggleRequest(todo)];
    }

    /** The Edit button. */
    method Edit()
      modifies this
      ensures requests == old(requests) + [EditRequest(todo)]
      ensures expanded == old(expanded) && deleteConfirmOpen == old(deleteConfirmOpen)
    {
      requests := requests + [EditRequest(todo)];
    }

    /** The Delete button only opens the confirmation. */
    method AskDelete()
      modifies this
      ensures deleteConfirmOpen
      ensures expanded == old(expanded) && requests == old(requests)
    {
      deleteConfirmOpen := true;
    }

    /** Cancel, or dismissing the confirmation: it closes, nothing is
        deleted. */
    method CancelDelete()
      modifies this
      ensures !deleteConfirmOpen
      ensures expanded == old(expanded) && requests == old(requests)
    {
      deleteConfirmOpen := false;
    }

    /** The confirmation's Delete button, present only while it is open:
        the task's id goes to `onDelete` and the confirmation closes. */
    method ConfirmDelete()
      requires deleteConfirmOpen
      modifies this
      ensures !deleteConfirmOpen
      ensures requests == old(requests) + [DeleteRequest(todo.id)]
      ensures expanded == old(expanded)
    {
      requests := requests + [DeleteRequest(todo.id)];
      deleteConfirmOpen := false;
    }
  }
}
