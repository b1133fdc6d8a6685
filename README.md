# Todo app — a verified model

This project models the rules of a small task manager written in JavaScript
and TypeScript. An Express server keeps the tasks in a database table and
offers list, categories, create, update and delete over REST. A React client
offers an add form, a filter panel, task cards, an edit dialog and an
application shell around them.

The model keeps each part in the form its source has:

- `common.dfy` (module `Common`): the `Todo` record, the priority
  enumeration, duplicate-free sequences, and the case-insensitive substring
  test. The case folding is an abstract function `Fold`.
- `server.dfy` (module `Server`): the request validators and their messages.
  - The list handler's where clause is built by reassignment, as the handler
    does. Its meaning is proved equal to a reference predicate `Matches`.
  - The table is a class `Store` holding a `map<int, Todo>` and the next
    id. Its `List`, `Categories`, `Create`, `Update` and `Delete` methods give
    the 400 and 404 answers and change the map as the database would.
- `api.dfy` (module `Api`): the client's payload types, and `getTodos`'s
  cleaning loop. The loop deletes `undefined`/`null` keys one at a time and is
  proved equal to a specification function.
- `exchange.dfy` (module `Exchange`): what the server receives for a client
  payload or filter object.
- `editing.dfy` (module `Editing`): the tag list and the "add new" category
  rules that the form and the dialog share.
- `filters.dfy` (module `Filters`): the filter panel's state as a class. Its
  handlers apply pure transition functions and publish what they store.
- `form.dfy` (module `Form`): the add form as a class with its nine state
  fields. It covers tag and category editing and the submit, which
  validates, sends, resets or shows the error.
- `editdialog.dfy` (module `EditDialog`): the edit dialog as a class. It
  covers loading a task, tag and category editing, and the save in two steps
  around the `onSave` call.
- `item.dfy` (module `Item`): a task card's status chips, its priority
  colour, and its expand and delete-confirmation state.
- `app.dfy` (module `App`): the shell. It covers the overdue notice, the
  toggle request and notice, the theme mode, the sidebar category, and the
  snackbar.

Conventions:

- The current time is a parameter `now`, and instants are integers.
- How the server reads an ISO 8601 text is an abstract parameter
  (`Exchange.IsoReader`).
- How a call ends is a parameter of the method that waits for it. The form
  and the dialog are given how the parent's `onAdd` or `onSave` settles
  (`AddOutcome`, `succeeded`). The shell is given how its server call ends
  (`succeeded`).
- Requests a component passes to its parent are recorded in a sequence
  field (`published`, `sent`, `saved`, `requests`).
- The shell's calls to the server client are recorded in the field
  `calls`.
- The shell's `handleAdd` and `handleEdit` catch every failure. So, as the
  shell wires them, `onAdd` and `onSave` always resolve (`App.AppState.Add`,
  `App.AppState.Edit`). The form's and the dialog's failure paths are
  modelled for a parent that rejects.

## Model

| member | source | states |
|---|---|---|
| `Common.ParsePriority` | server/index.js:20 | a text is accepted as a priority exactly when it is the name of one of LOW, MEDIUM, HIGH, URGENT, and it is read as that priority |
| `Server.Join` | server/index.js:13 | the messages joined by the separator: empty for no messages, starting with the first message, and as long as all messages plus one separator between each pair |
| `Server.JoinAppend` | server/index.js:13 | joining one more message appends the separator and that message, so the messages appear in order, one separator between each pair |
| `Server.FormatValidationErrors` | server/index.js:13 | no text for no messages, the message itself for one, and for more the text of all but the last, then ", " and the last |
| `Server.RequestQuery` | server/index.js:26 | each of the four list parameters is present in the query exactly when the request carries it, and then has the request's text |
| `Server.ListErrors` | server/index.js:20-23 | the list request is refused exactly when a priority parameter is given that is not one of the four names |
| `Server.BuildWhere` | server/index.js:26-66 | for every record and every case folding, the assembled where clause holds exactly when the status condition holds, and the search text (in name or description, ignoring case), the category and the priority each match whenever they are given |
| `Server.SearchWhereMeaning` | server/index.js:35-56 | both shapes the handler gives a search (an `OR` added to a plain clause, or an `AND` of the status clause and the `OR`) mean "the status clause holds and the text occurs in the name or the description" |
| `Server.CreateErrors` | server/index.js:104-107 | a create body is accepted exactly when name and description are non-empty, the date/time is valid and the priority, if present, is known; each failing condition contributes its own message |
| `Server.NewTodo` | server/index.js:114-124 | the created record has the given id, texts and instant, is not done, and takes MEDIUM, "General" and no tags when priority, category and tags are absent |
| `Server.UpdateErrors` | server/index.js:134-142 | an update is accepted exactly when the id is an integer, a present date/time is valid and a present priority is known; each failing condition has its own message |
| `Server.Merge` | server/index.js:148-157 | the updated record keeps its id, takes every supplied field from the body, and differs from the old record only in supplied fields |
| `Server.ApplyUpdate` | server/index.js:148-155 | filling the update data field by field and applying it gives the merged record |
| `Server.MergeDetermined` | server/index.js:148-157 | any record with the same id that carries the body and changes nothing else is the merged one |
| `Server.MergeIdempotent` | server/index.js:148-157 | applying the same update twice gives the same record as applying it once |
| `Server.MergeNothing` | server/index.js:148-157 | an update that supplies no field leaves the record as it was |
| `Server.Store.constructor` | server/index.js:7 | the table starts empty and the first id handed out is 1 |
| `Server.Store.List` | server/index.js:16-80 | a 400 with the joined messages for an unknown priority; otherwise a 200 with exactly the stored records the query matches, unchanged |
| `Server.Store.Categories` | server/index.js:87-96 | every category of a stored record, each exactly once, and no other text |
| `Server.Store.Create` | server/index.js:103-126 | a rejected body gives 400 and leaves the table as it was; an accepted one gives 201 and adds exactly one record under a fresh id |
| `Server.Store.Update` | server/index.js:133-162 | 400 for a rejected request and 404 for an id not in the table, neither changing anything; otherwise 200 and only that record changes, to the merged one |
| `Server.Store.Delete` | server/index.js:165-177 | 400 for a non-integer id and 404 for an id not in the table, neither changing anything; otherwise 200 with success and exactly that id is removed |
| `Api.Cleaned` | client/src/api.ts:87-97 | the parameters sent for a filter object: none for no filter, and exactly the keys whose value is neither undefined nor null, each with its own value |
| `Api.CleanedIdempotent` | client/src/api.ts:93-97 | cleaning already cleaned parameters changes nothing |
| `Api.CleanFilters` | client/src/api.ts:90-97 | copying the filter object and deleting its undefined and null keys one at a time gives exactly the cleaned parameters |
| `Api.QueryOf` | client/src/api.ts:99 | the query string carries the same keys as the cleaned parameters, each with its text |
| `Exchange.ReadIso` | server/index.js:106 | a date/time text that is sent is never absent on the server: it is the instant the text reads as, or invalid when it does not read as one |
| `Exchange.CreateBodyOf` | client/src/api.ts:102-103 | the server accepts an `addTodo` payload exactly when its name and description are non-empty and its date/time text reads as an instant |
| `Exchange.UpdateBodyOf` | client/src/api.ts:105-106 | for a valid id the server accepts an `updateTodo` payload exactly when a date/time it carries reads as an instant; a payload without one leaves the date/time absent |
| `Exchange.PriorityTextAccepted` | server/index.js:107 | every priority the client sends is accepted by the server and read back as the same priority |
| `Exchange.ListQueryOf` | client/src/api.ts:87-99 | each list parameter the server sees is present exactly when the filter object holds a text under that key, and has that text |
| `Editing.AddTag` | client/src/components/TodoForm.tsx:56-61 | a non-empty input that is not yet a tag is appended at the end and the input cleared; otherwise tags and input stay as they were; no tag becomes duplicated |
| `Editing.RemoveTag` | client/src/components/TodoForm.tsx:63-65 | the tag no longer occurs, every other tag is kept, the list does not grow and stays duplicate-free |
| `Editing.RemoveTagAppend` | client/src/components/TodoForm.tsx:64 | removing distributes over concatenation, so the kept tags stay in their original order |
| `Editing.RemoveAbsentTag` | client/src/components/TodoForm.tsx:64 | removing a tag that is not in the list leaves the list as it is |
| `Editing.RemoveTagAt` | client/src/components/TodoForm.tsx:64 | in a duplicate-free list, removing the tag at a position cuts out exactly that position |
| `Editing.AddThenRemove` | client/src/components/TodoForm.tsx:56-65 | adding a new tag and then removing it gives back the original list |
| `Editing.ChooseCategory` | client/src/components/TodoForm.tsx:67-73 | choosing "add-new" takes the typed new category, any other choice is taken as it is |
| `Filters.InitialFilter` | client/src/components/TodoFilters.tsx:28 | the initial filter object holds exactly `filter: 'all'` |
| `Filters.WithStatus` | client/src/components/TodoFilters.tsx:32-36 | `filter` becomes the chosen status, or "all" when there is none; every other key is preserved |
| `Filters.WithSearch` | client/src/components/TodoFilters.tsx:38-42 | `search` becomes the input when it is non-empty and undefined when it is empty; every other key is preserved |
| `Filters.WithoutSearch` | client/src/components/TodoFilters.tsx:44-49 | `search` becomes undefined; every other key is preserved |
| `Filters.WithChoice` | client/src/components/TodoFilters.tsx:51-69 | choosing "all" for category or priority makes that key undefined, any other choice sets it; every other key is preserved |
| `Filters.EmptySearchIsCleared` | client/src/components/TodoFilters.tsx:39 | searching for the empty text sends the same parameters as clearing the search, and none of them is `search` |
| `Filters.AllChoiceDropsParameter` | client/src/components/TodoFilters.tsx:55 | after choosing "all" the request carries no parameter for that key and every other parameter as before |
| `Filters.ResetSendsOnlyAll` | client/src/components/TodoFilters.tsx:80 | after a reset the server is sent `filter=all` and nothing else |
| `Filters.HandlersIdempotent` | client/src/components/TodoFilters.tsx:32-69 | repeating any handler with the same choice changes nothing further |
| `Filters.ClearUndoesSearch` | client/src/components/TodoFilters.tsx:38-49 | a search followed by clearing it is the same as clearing it |
| `Filters.FilterPanel.constructor` | client/src/components/TodoFilters.tsx:28-30 | the panel starts with `{ filter: 'all' }`, an empty search input and the advanced selects hidden |
| `Filters.FilterPanel.TypeSearch` | client/src/components/TodoFilters.tsx:113 | typing changes only the search input; nothing is published |
| `Filters.FilterPanel.ToggleAdvanced` | client/src/components/TodoFilters.tsx:100 | the advanced selects are shown or hidden; nothing else changes |
| `Filters.FilterPanel.ChangeStatus` | client/src/components/TodoFilters.tsx:32-36 | the stored filter is the status transition of the old one, and that same object is published |
| `Filters.FilterPanel.Search` | client/src/components/TodoFilters.tsx:38-42 | the stored filter is the search transition for the current input, and that same object is published |
| `Filters.FilterPanel.SearchKeyDown` | client/src/components/TodoFilters.tsx:71-75 | Enter searches; any other key changes nothing |
| `Filters.FilterPanel.ClearSearch` | client/src/components/TodoFilters.tsx:44-49 | the input is emptied, `search` is unset, and that same object is published |
| `Filters.FilterPanel.ChangeCategory` | client/src/components/TodoFilters.tsx:51-59 | the stored filter is the category transition of the old one, and that same object is published |
| `Filters.FilterPanel.ChangePriority` | client/src/components/TodoFilters.tsx:61-69 | the stored filter is the priority transition of the old one, and that same object is published |
| `Filters.FilterPanel.ResetFilters` | client/src/components/TodoFilters.tsx:77-81 | the filter becomes exactly `{ filter: 'all' }`, the input is emptied, and `{ filter: 'all' }` is published |
| `Form.Complete` | client/src/components/TodoForm.tsx:30 | the form's check is JavaScript truthiness of the three texts; this is the server's test for the name and the description, while its date/time test is stricter (see `Form.UnreadableDateRefused`) |
| `Form.FailureMessage` | client/src/components/TodoForm.tsx:52 | the error after a rejected `onAdd` is the server's error text when it has one, else "Failed to add todo"; it is never empty |
| `Form.SubmittedIsAccepted` | client/src/components/TodoForm.tsx:30-42 | a payload that passes the form's check is accepted by the server's create validation whenever its date/time is readable, and the record created holds exactly the form's values |
| `Form.UnreadableDateRefused` | server/index.js:106 | a date/time text the server cannot read passes the form's check but is refused by the server with "Valid dateTime is required" |
| `Form.TodoForm.constructor` | client/src/components/TodoForm.tsx:18-26 | the form starts empty, with MEDIUM, "General" and no tags |
| `Form.TodoForm.AddTag` | client/src/components/TodoForm.tsx:56-61 | tags and tag input become the add-tag transition of the old ones; the list stays duplicate-free; nothing else changes |
| `Form.TodoForm.RemoveTag` | client/src/components/TodoForm.tsx:63-65 | tags become the old ones without that tag; the list stays duplicate-free; nothing else changes |
| `Form.TodoForm.ChangeCategory` | client/src/components/TodoForm.tsx:67-73 | the category follows the "add new" rule; nothing else changes |
| `Form.TodoForm.NewCategoryKeyDown` | client/src/components/TodoForm.tsx:139-144 | Enter with a non-empty new category makes it the category; anything else changes nothing |
| `Form.TodoForm.Submit` | client/src/components/TodoForm.tsx:28-54 | an incomplete form only gets the error message and sends nothing; a complete one sends its values once, then is reset on success or keeps its values and shows the failure message otherwise; tag input and new category are never touched |
| `EditDialog.InputDate` | client/src/components/TodoEditDialog.tsx:56 | the loaded date/time text is the first 16 characters of the ISO text, or all of it when shorter |
| `EditDialog.SavePayload` | client/src/components/TodoEditDialog.tsx:88-96 | a save sends all seven edited fields |
| `EditDialog.SaveReplacesRecord` | client/src/components/TodoEditDialog.tsx:88-96 | on the server a save is always accepted for a readable date/time and replaces every field of the record except its id |
| `EditDialog.UnchangedSaveRoundTrip` | client/src/components/TodoEditDialog.tsx:56 | saving an unchanged dialog gives back the loaded record exactly when the server reads the shortened date/time text as the record's own instant |
| `EditDialog.Dialog.constructor` | client/src/components/TodoEditDialog.tsx:38-47 | the dialog starts with empty fields, MEDIUM, no tags and not saving |
| `EditDialog.Dialog.Load` | client/src/components/TodoEditDialog.tsx:49-61 | a todo's name, description, flag, priority, category and tags are copied and its date/time shortened; no todo leaves the fields as they were |
| `EditDialog.Dialog.AddTag` | client/src/components/TodoEditDialog.tsx:64-69 | as in the form: the add-tag transition, duplicate-free when the tags were |
| `EditDialog.Dialog.RemoveTag` | client/src/components/TodoEditDialog.tsx:71-73 | as in the form: the tag is removed, duplicate-free when the tags were |
| `EditDialog.Dialog.ChangeCategory` | client/src/components/TodoEditDialog.tsx:75-81 | the category follows the "add new" rule |
| `EditDialog.Dialog.NewCategoryKeyDown` | client/src/components/TodoEditDialog.tsx:173-178 | Enter with a non-empty new category makes it the category |
| `EditDialog.Dialog.BeginSave` | client/src/components/TodoEditDialog.tsx:83-96 | with no todo nothing happens; otherwise `saving` is set and the todo's id with the seven fields is sent once |
| `EditDialog.Dialog.FinishSave` | client/src/components/TodoEditDialog.tsx:97-102 | the dialog asks to close only after a successful save, and `saving` is false afterwards either way |
| `Item.IsDueDate` | client/src/components/TodoItem.tsx:42 | a task due before now is never upcoming |
| `Item.IsUpcoming` | client/src/components/TodoItem.tsx:43 | the card's upcoming test is the condition of the server's `filter=upcoming` |
| `Item.Chips` | client/src/components/TodoItem.tsx:87-112 | Overdue shows exactly for a task not done and due before now, Upcoming for one not done and due after now, Completed for a done task |
| `Item.ChipsExclusive` | client/src/components/TodoItem.tsx:42-112 | at most one status chip shows, and none exactly when the task is not done and due now |
| `Item.ChipsAgreeWithFilter` | client/src/components/TodoItem.tsx:43 | the Upcoming chip shows exactly for the tasks the server's `upcoming` filter lists, the Completed chip for those its `done` filter lists |
| `Item.PriorityColour` | client/src/components/TodoItem.tsx:18-23 | a colour is found exactly for the four priority names |
| `Item.BorderColour` | client/src/components/TodoItem.tsx:54 | the border takes the priority's colour, or grey when there is none |
| `Item.ColoursDistinct` | client/src/components/TodoItem.tsx:18-23 | no priority's border is grey, and different priorities have different colours |
| `Item.ItemView.constructor` | client/src/components/TodoItem.tsx:35-36 | a card starts collapsed with the confirmation closed |
| `Item.ItemView.ToggleExpand` | client/src/components/TodoItem.tsx:38-40 | the card is expanded or collapsed; nothing is requested |
| `Item.ItemView.Toggle` | client/src/components/TodoItem.tsx:63 | the checkbox passes the task to `onToggle` |
| `Item.ItemView.Edit` | client/src/components/TodoItem.tsx:170 | the Edit button passes the task to `onEdit` |
| `Item.ItemView.AskDelete` | client/src/components/TodoItem.tsx:178 | the Delete button only opens the confirmation; nothing is requested |
| `Item.ItemView.CancelDelete` | client/src/components/TodoItem.tsx:195 | Cancel closes the confirmation and deletes nothing |
| `Item.ItemView.ConfirmDelete` | client/src/components/TodoItem.tsx:196-201 | confirming passes the task's id to `onDelete` once and closes the confirmation |
| `App.IsOverdue` | client/src/App.tsx:104 | a task is overdue exactly when it is not done and the card's `isDueDate` holds for it |
| `App.OverdueTasks` | client/src/App.tsx:103-105 | a task is in the overdue list exactly when it is in the list, not done and due before now; the list is no longer than the task list |
| `App.OverdueAppend` | client/src/App.tsx:103-105 | the overdue tasks of a joined list are those of the first part followed by those of the second, so the filter keeps the list order |
| `App.OverdueMatchesChip` | client/src/App.tsx:104 | a task counts as overdue exactly when its card shows the Overdue chip |
| `App.OverdueCountZero` | client/src/App.tsx:107 | the overdue count is zero exactly when no task in the list is overdue |
| `App.NatToString` | client/src/App.tsx:110 | the count in the message is written in decimal digits, without a leading zero, and reads back as the count |
| `App.OverdueMessage` | client/src/App.tsx:108-114 | "1 task is overdue!" for one task, the count followed by " tasks are overdue!" otherwise |
| `App.PluralIsNotSingular` | client/src/App.tsx:108-110 | the plural message is never the singular one |
| `App.OverdueMessageInjective` | client/src/App.tsx:108-114 | different counts give different messages |
| `App.Toggled` | client/src/App.tsx:169 | the new theme mode is always the other mode |
| `App.ToggledInvolution` | client/src/App.tsx:168-171 | toggling the theme twice restores the mode |
| `App.Closed` | client/src/App.tsx:349 | closing the snackbar sets `open` false and keeps its message and severity |
| `App.ToggleRequest` | client/src/App.tsx:135 | the toggle sends only `isDone`, the negation of the task's flag |
| `App.ToggleFlipsOnly` | client/src/App.tsx:135 | on the server the toggle flips the flag and changes nothing else, and toggling again restores the record |
| `App.ToggleMessage` | client/src/App.tsx:139 | the notice is chosen from the flag before the toggle: "Task marked as incomplete" when it was done, "Task marked as complete" otherwise |
| `App.Notice` | client/src/App.tsx:120-166 | the notice after a server call is open, with the success text and its severity on success and the failure text as an error on failure |
| `App.WithCategory` | client/src/App.tsx:224 | a sidebar click sets `category` and preserves every other filter key |
| `App.CategoryClickNarrows` | client/src/App.tsx:224 | after a click on a non-empty category, the server lists exactly the tasks of that category that the other filter keys let through |
| `App.ResetListsEverything` | client/src/components/TodoFilters.tsx:80 | after a reset of the filter panel, the server accepts the list query and every task matches it |
| `App.AppState.constructor` | client/src/App.tsx:22-29 | the shell starts with no tasks, `{ filter: 'all' }`, a closed snackbar, the light theme and no task being edited |
| `App.AppState.ShowTodos` | client/src/App.tsx:102-118 | a shown list with overdue tasks raises an error notice with the count message; with none the snackbar stays as it was |
| `App.AppState.Toggle` | client/src/App.tsx:133-145 | the toggle request is sent for the task's id, then an info notice on success or the error notice "Failed to update task status" on failure |
| `App.AppState.Add` | client/src/App.tsx:120-131 | the payload is sent once, then "Task added successfully!" as a success or "Failed to add task" as an error; the form's `onAdd` resolves either way |
| `App.AppState.Edit` | client/src/App.tsx:157-166 | the id and payload are sent once, then "Task updated successfully!" as a success or "Failed to update task" as an error; the dialog's `onSave` resolves either way |
| `App.AppState.Delete` | client/src/App.tsx:147-155 | the id is sent once, then "Task deleted!" as info or "Failed to delete task" as an error |
| `App.AppState.ToggleTheme` | client/src/App.tsx:168-172 | the mode becomes the other mode; nothing else changes |
| `App.AppState.SelectCategory` | client/src/App.tsx:224 | the filter gets the clicked category, with the other keys preserved |
| `App.AppState.SelectCategoryInDrawer` | client/src/App.tsx:260-263 | the same, and the drawer closes |
| `App.AppState.ReceiveFilters` | client/src/App.tsx:282 | the filter panel's published object becomes the shell's filter |
| `App.AppState.OpenEditor` | client/src/App.tsx:321 | a card's edit request opens the dialog on that task |
| `App.AppState.CloseEditor` | client/src/App.tsx:340 | the dialog's close clears the task being edited |
| `App.AppState.CloseSnackbar` | client/src/App.tsx:355 | closing the notice keeps its message and severity |

## Left out

- Ordering of the list: the `orderBy` of the list handler depends on the
  database's enum order, which is not part of this model. `Store.List`
  returns the matching records as a map keyed by id, with no order.
- The 500 answers of the list, categories and create handlers: the
  in-memory store has no database failures. A create whose date/time the
  validator accepts but `new Date` cannot read would also fail in the
  database; `IsoReader` rules this out (see the next line).
- ISO 8601 parsing and formatting: instants are integers. The server's
  reading of a text is the abstract `IsoReader`. The dialog's ISO text of
  a task is a parameter of `Load`. `toLocaleString` is not modelled.
- `Exchange.ReadIso`: one `IsoReader` stands for both `isISO8601` and
  `new Date`, so the model assumes they agree. A text the validator accepts
  but `new Date` cannot read (an ISO week date, say) passes validation in the
  server and then fails in the database: a 500 on create, a 404 on update.
  The model does not have that case.
- Enter in an empty tag box does not add a tag. It is not prevented, so it
  submits the form as the submit button does; the model has no key method
  for the tag box.
- The id path parameter is modelled already parsed (`Option<int>`, None for
  a non-integer text).
- Validators that only check a JSON type (`isString`, `isArray`,
  `isBoolean`) are met by construction of the typed body records. `null`
  and values of the wrong JSON type are not modelled.
- express-validator's extra default "Invalid value" entries are not
  modelled. A failing chain such as `isString().isLength(...)` adds only its
  one custom message here. The list handler's priority validator has no
  custom message, so its one entry is "Invalid value".
- An empty `search` or `category` parameter counts as not given, as in the
  handler's truthiness tests. An empty `priority` parameter is not a
  priority name, so the list request is refused with 400 ("Invalid value").
- `EditDialog.Dialog.Load`: the fallback `todo.tags || []` is not modelled,
  because a `Todo` always has a tag list.
- `Item.ItemView.Edit` and `Item.ItemView.AskDelete`: there is no
  precondition that the card is expanded. Collapsing hides the buttons
  without removing them. The confirmation's Delete button exists only
  while it is open, so `ConfirmDelete` requires that.
- `App.AppState.Toggle`, `App.AppState.Add`, `App.AppState.Edit` and
  `App.AppState.Delete`: the refetch of the list (and of the categories)
  after a successful call is not modelled. Fetching is network I/O, and the
  order of overlapping fetches is concurrency. `ShowTodos` models what a
  completed fetch does to the shell. The shell's loading flag of the form is
  left out for the same reason.
- `Form.TodoForm.Submit`: its `Rejected` branch, the reset being skipped and
  `FailureMessage` being shown, is not reached through the shell as wired.
  `handleAdd` catches the failure, so a create the server refuses still
  resets the form and the form's error alert stays empty.
- `EditDialog.Dialog.FinishSave`: its failure branch is not reached through
  the shell as wired. `handleEdit` catches the failure, so a failed save
  still closes the dialog.
- `Server.Merge`: the `createdAt` and `updatedAt` timestamps of a record are
  not part of `Todo`. The database sets `updatedAt` on every update, so the
  stored row also differs there, not only in the supplied fields.
- `Item.PriorityColour`: the lookup `priorityColors[key]` on a JavaScript
  object also finds inherited members (say `toString`) for other keys. A
  card's key is always one of the four priority names, so this is not
  modelled.
- The typing handlers (`onChange` setters of the text fields) of the form
  and the dialog are plain field assignments on the class and have no
  methods.
- The axios instance, its retry interceptor, `localStorage` persistence of
  the theme mode, `console` output, CORS and `app.listen` are left out. So
  are JSX rendering, theming and the responsive layout. `client/src/App.js`
  is a superseded earlier UI and is not part of this model.
