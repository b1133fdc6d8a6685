/** The application shell: the overdue notice, the toggle request and its
    notice, the theme mode, the sidebar category filter and the snackbar. */
module App {
  import opened Common
  import opened Api
  import Server
  import Exchange
  import Filters
  import Item
  import Form

  // ---------------------------------------------------------------------
  // Overdue tasks

  /** Overdue: not done and due before now, the card's `isDueDate` for a
      task that is not done. */
  predicate IsOverdue(t: Todo, now: int)
    ensures IsOverdue(t, now) <==> !t.isDone && Item.IsDueDate(t, now)
  {
    !t.isDone && t.dateTime < now
  }

  /** `todos.filter(todo => !todo.isDone && new Date(todo.dateTime) < new Date())`:
      the overdue tasks, in their list order. */
  function OverdueTasks(todos: seq<Todo>, now: int): (r: seq<Todo>)
    ensures forall t :: t in r <==> t in todos && IsOverdue(t, now)
    ensures |r| <= |todos|
  {
    if todos == [] then []
    else (if IsOverdue(todos[0], now) then [todos[0]] else []) + OverdueTasks(todos[1..], now)
  }

  /** The overdue tasks of a joined list are those of its first part
      followed by those of its second: the filter keeps the list order. */
  lemma {:induction false} OverdueAppend(a: seq<Todo>, b: seq<Todo>, now: int)
    ensures OverdueTasks(a + b, now) == OverdueTasks(a, now) + OverdueTasks(b, now)
  {
    if a == [] {
      assert a + b == b;
    } else {
      assert (a + b)[0] == a[0];
      assert (a + b)[1..] == a[1..] + b;
      OverdueAppend(a[1..], b, now);
    }
  }

  /** A task counts as overdue exactly when its card shows the Overdue chip. */
  lemma OverdueMatchesChip(t: Todo, now: int)
    ensures IsOverdue(t, now) <==> Item.Overdue in Item.Chips(t, now)
  {
  }

  /** With no overdue task nothing is counted, and every overdue task is. */
  lemma {:induction false} OverdueCountZero(todos: seq<Todo>, now: int)
    ensures |OverdueTasks(todos, now)| == 0 <==> forall i | 0 <= i < |todos| :: !IsOverdue(todos[i], now)
  {
    if todos != [] {
      OverdueCountZero(todos[1..], now);
      assert forall i | 1 <= i < |todos| :: todos[i] == todos[1..][i - 1];
    }
  }

  /** The decimal digit for `d`. */
  function Digit(d: nat): char
    requires d < 10
  {
    "0123456789"[d]
  }

  /** The value of a text of decimal digits. */
  function DigitsValue(s: string): nat
    requires forall i | 0 <= i < |s| :: '0' <= s[i] <= '9'
  {
    if s == [] then 0
    else 10 * DigitsValue(s[..|s| - 1]) + (s[|s| - 1] as int - '0' as int)
  }

  /** A number in a template literal: its decimal digits, with no leading
      zero, read back as the same number. */
  function NatToString(n: nat): (r: string)
    ensures |r| >= 1
    ensures forall i | 0 <= i < |r| :: '0' <= r[i] <= '9'
    ensures n > 0 ==> r[0] != '0'
    ensures DigitsValue(r) == n
  {
    if n < 10 then [Digit(n)]
    else
      var prefix := NatToString(n / 10);
      var r := prefix + [Digit(n % 10)];
      assert r[..|r| - 1] == prefix;
      r
  }

  /** The notice's text for `n` overdue tasks. */
  function OverdueMessage(n: nat): (r: string)
    ensures n == 1 ==> r == "1 task is overdue!"
    ensures n != 1 ==> r == NatToString(n) + " tasks are overdue!"
  {
    (if n == 1 then "1 task is" else NatToString(n) + " tasks are") + " overdue!"
  }

  /** The plural message is never the singular one. */
  lemma PluralIsNotSingular(n: nat)
    ensures NatToString(n) + " tasks are overdue!" != "1 task is overdue!"
  {
  }

  /** Different counts give different messages, so the notice always tells
      the count. */
  lemma OverdueMessageInjective(m: nat, n: nat)
    requires m != n
    ensures OverdueMessage(m) != OverdueMessage(n)
  {
    if m == 1 {
      PluralIsNotSingular(n);
    } else if n == 1 {
      PluralIsNotSingular(m);
    } else {
      var a, b := NatToString(m), NatToString(n);
      var suffix := " tasks are overdue!";
      assert a != b by {
        assert DigitsValue(a) == m && DigitsValue(b) == n;
      }
      if |a| == |b| {
        assert (a + suffix)[..|a|] == a && (b + suffix)[..|b|] == b;
      } else {
        assert |a + suffix| != |b + suffix|;
      }
    }
  }

  // ---------------------------------------------------------------------
  // Theme mode

  datatype Mode = Light | Dark

  /** `toggleThemeMode`'s new mode. */
  function Toggled(m: Mode): (r: Mode)
    ensures r != m
  {
    if m == Light then Dark else Light
  }

  /** Toggling twice restores the mode. */
  lemma ToggledInvolution(m: Mode)
    ensures Toggled(Toggled(m)) == m
  {
  }

  // ---------------------------------------------------------------------
  // Snackbar

  datatype Severity = Success | Error | Info

  datatype Snackbar = Snackbar(open: bool, message: string, severity: Severity)

  /** `{ ...snackbar, open: false }` */
  function Closed(s: Snackbar): (r: Snackbar)
    ensures !r.open && r.message == s.message && r.severity == s.severity
  {
    s.(open := false)
  }

  // ---------------------------------------------------------------------
  // Toggling a task

  /** `{ isDone: !todo.isDone }`: only the flag, flipped. */
  function ToggleRequest(t: Todo): (u: TodoUpdate)
    ensures u.isDone == Some(!t.isDone)
    ensures u.name.None? && u.shortDescription.None? && u.dateTime.None?
    ensures u.priority.None? && u.category.None? && u.tags.None?
  {
    NoChanges.(isDone := Some(!t.isDone))
  }

  /** On the server the toggle flips the stored flag and changes nothing
      else, and toggling the result again restores the record. */
  lemma ToggleFlipsOnly(t: Todo, read: Exchange.IsoReader)
    ensures var r := Server.Merge(t, Exchange.UpdateBodyOf(ToggleRequest(t), read));
            && r == t.(isDone := !t.isDone)
            && Server.Merge(r, Exchange.UpdateBodyOf(ToggleRequest(r), read)) == t
  {
  }

  /** The notice after a successful toggle, chosen from the flag before it. */
  function ToggleMessage(wasDone: bool): (r: string)
    ensures wasDone ==> r == "Task marked as incomplete"
    ensures !wasDone ==> r == "Task marked as complete"
  {
    if wasDone then "Task marked as incomplete" else "Task marked as complete"
  }

  const ToggleFailed := "Failed to update task status"

  // ---------------------------------------------------------------------
  // Adding, editing and deleting

  /** A call the shell makes to the server client: `addTodo`, `updateTodo`
      or `deleteTodo`. */
  datatype ServerCall = AddCall(created: TodoCreate) | UpdateCall(id: int, changes: TodoUpdate) | DeleteCall(id: int)

  const AddSucceeded := "Task added successfully!"
  const AddFailed := "Failed to add task"
  const EditSucceeded := "Task updated successfully!"
  const EditFailed := "Failed to update task"
  const DeleteSucceeded := "Task deleted!"
  const DeleteFailed := "Failed to delete task"

  /** The snackbar after one of the shell's server calls: the success text
      with its severity, or the failure text as an error. */
  function Notice(succeeded: bool, success: string, severity: Severity, failure: string): (r: Snackbar)
    ensures r.open
    ensures succeeded ==> r.message == success && r.severity == severity
    ensures !succeeded ==> r.message == failure && r.severity == Error
  {
    if succeeded then Snackbar(true, success, severity) else Snackbar(true, failure, Error)
  }

  // ---------------------------------------------------------------------
  // Sidebar category

  /** `{ ...filters, category }` */
  function WithCategory(f: JsObject, c: string): (r: JsObject)
    ensures "category" in r && r["category"] == Str(c)
    ensures Filters.SameExcept(f, r, "category")
  {
    f["category" := Str(c)]
  }

  /** After a sidebar click on a non-empty category the server lists only
      tasks of that category, and among them exactly those the previous
      filter listed. */
  lemma CategoryClickNarrows(f: JsObject, c: string, t: Todo, now: int, fold: Fold)
    requires c != ""
    ensures Server.Matches(Exchange.ListQueryOf(Some(WithCategory(f, c))), t, now, fold)
        <==> t.category == c
             && Server.Matches(Exchange.ListQueryOf(Some(f)).(category := None), t, now, fold)
  {
  }

  /** The panel's reset brings the list back to every task: the server
      accepts the query and every record matches it. */
  lemma ResetListsEverything(t: Todo, now: int, fold: Fold)
    ensures Server.ListErrors(Exchange.ListQueryOf(Some(Filters.InitialFilter()))) == []
    ensures Server.Matches(Exchange.ListQueryOf(Some(Filters.InitialFilter())), t, now, fold)
  {
  }

  // ---------------------------------------------------------------------
  // The application state

  class AppState {
    var todos: seq<Todo>
    var filters: JsObject
    var snackbar: Snackbar
    var mode: Mode
    var drawerOpen: bool
    var editTodo: Option<Todo>
    /** Every call the shell makes to the server client, in order. */
    var calls: seq<ServerCall>

    constructor ()
      ensures todos == [] && filters == Filters.InitialFilter()
      ensures snackbar == Snackbar(false, "", Success) && mode == Light
      ensures !drawerOpen && editTodo == None && calls == []
    {
      todos := [];
      filters := Filters.InitialFilter();
      snackbar := Snackbar(false, "", Success);
      mode := Light;
      drawerOpen := false;
      editTodo := None;
      calls := [];
    }

    /** A fetched list is shown, and the overdue effect runs on it: an error
        notice with the count when some task is overdue, the snackbar as it
        was otherwise. */
    method ShowTodos(list: seq<Todo>, now: int)
      modifies this
      ensures todos == list
      ensures |OverdueTasks(list, now)| > 0 ==>
        snackbar == Snackbar(true, OverdueMessage(|OverdueTasks(list, now)|), Error)
      ensures |OverdueTasks(list, now)| == 0 ==> snackbar == old(snackbar)
      ensures filters == old(filters) && mode == old(mode) && drawerOpen == old(drawerOpen)
      ensures editTodo == old(editTodo) && calls == old(calls)
    {
      todos := list;
      var overdue := OverdueTasks(list, now);
      if |overdue| > 0 {
        snackbar := Snackbar(true, OverdueMessage(|overdue|), Error);
      }
    }

    /** `handleToggle`, with `succeeded` standing for how `updateTodo` ends. */
    method Toggle(t: Todo, succeeded: bool)
      modifies this
      ensures calls == old(calls) + [UpdateCall(t.id, ToggleRequest(t))]
      ensures succeeded ==> snackbar == Snackbar(true, ToggleMessage(t.isDone), Info)
      ensures !succeeded ==> snackbar == Snackbar(true, ToggleFailed, Error)
      ensures todos == old(todos) && filters == old(filters) && mode == old(mode)
      ensures drawerOpen == old(drawerOpen) && editTodo == old(editTodo)
    {
      calls := calls + [UpdateCall(t.id, ToggleRequest(t))];
      if succeeded {
        snackbar := Snackbar(true, ToggleMessage(t.isDone), Info);
      } else {
        snackbar := Snackbar(true, ToggleFailed, Error);
      }
    }

    /** `handleAdd`, the form's `onAdd`, with `succeeded` standing for how
        `addTodo` ends. The failure is caught, so the call always settles
        as resolved for the form. */
    method Add(data: TodoCreate, succeeded: bool) returns (outcome: Form.AddOutcome)
      modifies this
      ensures outcome == Form.Added
      ensures calls == old(calls) + [AddCall(data)]
      ensures snackbar == Notice(succeeded, AddSucceeded, Success, AddFailed)
      ensures todos == old(todos) && filters == old(filters) && mode == old(mode)
      ensures drawerOpen == old(drawerOpen) && editTodo == old(editTodo)
    {
      calls := calls + [AddCall(data)];
      snackbar := Notice(succeeded, AddSucceeded, Success, AddFailed);
      outcome := Form.Added;
    }

    /** `handleEdit`, the dialog's `onSave`, with `succeeded` standing for
        how `updateTodo` ends. The failure is caught, so `resolved`, how the
        call settles for the dialog, is always true. */
    method Edit(id: int, data: TodoUpdate, succeeded: bool) returns (resolved: bool)
      modifies this
      ensures resolved
      ensures calls == old(calls) + [UpdateCall(id, data)]
      ensures snackbar == Notice(succeeded, EditSucceeded, Success, EditFailed)
      ensures todos == old(todos) && filters == old(filters) && mode == old(mode)
      ensures drawerOpen == old(drawerOpen) && editTodo == old(editTodo)
    {
      calls := calls + [UpdateCall(id, data)];
      snackbar := Notice(succeeded, EditSucceeded, Success, EditFailed);
      resolved := true;
    }

    /** `handleDelete`, a card's `onDelete`, with `succeeded` standing for how
        `deleteTodo` ends. */
    method Delete(id: int, succeeded: bool)
      modifies this
      ensures calls == old(calls) + [DeleteCall(id)]
      ensures snackbar == Notice(succeeded, DeleteSucceeded, Info, DeleteFailed)
      ensures todos == old(todos) && filters == old(filters) && mode == old(mode)
      ensures drawerOpen == old(drawerOpen) && editTodo == old(editTodo)
    {
      calls := calls + [DeleteCall(id)];
      snackbar := Notice(succeeded, DeleteSucceeded, Info, DeleteFailed);
    }

    method ToggleTheme()
      modifies this
      ensures mode == Toggled(old(mode))
      ensures todos == old(todos) && filters == old(filters) && snackbar == old(snackbar)
      ensures drawerOpen == old(drawerOpen) && editTodo == old(editTodo) && calls == old(calls)
    {
      mode := Toggled(mode);
    }

    /** A category in the permanent sidebar. */
    method SelectCategory(c: string)
      modifies this
      ensures filters == WithCategory(old(filters), c)
      ensures todos == old(todos) && snackbar == old(snackbar) && mode == old(mode)
      ensures drawerOpen == old(drawerOpen) && editTodo == old(editTodo) && calls == old(calls)
    {
      filters := WithCategory(filters, c);
    }

    /** A category in the mobile drawer: the same, and the drawer closes. */
    method SelectCategoryInDrawer(c: string)
      modifies this
      ensures filters == WithCategory(old(filters), c) && !drawerOpen
      ensures todos == old(todos) && snackbar == old(snackbar) && mode == old(mode)
      ensures editTodo == old(editTodo) && calls == old(calls)
    {
      filters := WithCategory(filters, c);
      drawerOpen := false;
    }

    /** The filter panel's `onFilterChange`. */
    method ReceiveFilters(f: JsObject)
      modifies this
      ensures filters == f
      ensures todos == old(todos) && snackbar == old(snackbar) && mode == old(mode)
      ensures drawerOpen == old(drawerOpen) && editTodo == old(editTodo) && calls == old(calls)
    {
      filters := f;
    }

    /** A card's `onEdit` opens the dialog on that task; the dialog's
        `onClose` clears it. */
    method OpenEditor(t: Todo)
      modifies this
      ensures editTodo == Some(t)
      ensures todos == old(todos) && filters == old(filters) && snackbar == old(snackbar)
      ensures mode == old(mode) && drawerOpen == old(drawerOpen) && calls == old(calls)
    {
      editTodo := Some(t);
    }

    method CloseEditor()
      modifies this
      ensures editTodo == None
      ensures todos == old(todos) && filters == old(filters) && snackbar == old(snackbar)
      ensures mode == old(mode) && drawerOpen == old(drawerOpen) && calls == old(calls)
    {
      editTodo := None;
    }

    /** The snackbar's and the alert's `onClose`. */
    method CloseSnackbar()
      modifies this
      ensures snackbar == Closed(old(snackbar))
      ensures todos == old(todos) && filters == old(filters) && mode == old(mode)
      ensures drawerOpen == old(drawerOpen) && editTodo == old(editTodo) && calls == old(calls)
    {
      snackbar := Closed(snackbar);
    }
  }
}
