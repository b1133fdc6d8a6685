/** The edit dialog: the todo it edits, the copy of that todo's fields in its
    own state, and the save that sends them back. */
module EditDialog {
  import opened Common
  import opened Api
  import opened Server
  import opened Exchange
  import Editing

  /** `toISOString().slice(0, 16)`: the first sixteen characters of the ISO
      text (the `YYYY-MM-DDThh:mm` a date-time input takes), or all of it if
      it is shorter. */
  function InputDate(iso: string): (r: string)
    ensures |r| <= 16 && r <= iso
    ensures |iso| >= 16 ==> |r| == 16
    ensures |iso| < 16 ==> r == iso
  {
    if |iso| <= 16 then iso else iso[..16]
  }

  /** The payload of a save: the todo's id and all seven edited fields. */
  function SavePayload(name: string, shortDescription: string, dateTime: string, isDone: bool,
                       priority: Priority, category: string, tags: seq<string>): (u: TodoUpdate)
    ensures u.name.Some? && u.shortDescription.Some? && u.dateTime.Some? && u.isDone.Some?
    ensures u.priority.Some? && u.category.Some? && u.tags.Some?
    ensures u.name.value == name && u.shortDescription.value == shortDescription
    ensures u.dateTime.value == dateTime && u.isDone.value == isDone
    ensures u.priority.value == priority && u.category.value == category && u.tags.value == tags
  {
    TodoUpdate(Some(name), Some(shortDescription), Some(dateTime), Some(isDone),
               Some(priority), Some(category), Some(tags))
  }

  /** A save replaces every field of the stored record: when the server
      reads the date/time text as an instant, the record after the update
      is the dialog's values under the record's own id, whatever the
      record held before. */
  lemma SaveReplacesRecord(t: Todo, name: string, shortDescription: string, dateTime: string,
                           isDone: bool, priority: Priority, category: string, tags: seq<string>,
                           read: IsoReader)
    requires read(dateTime).Some?
    ensures var b := UpdateBodyOf(SavePayload(name, shortDescription, dateTime, isDone, priority, category, tags), read);
            && UpdateErrors(Some(t.id), b) == []
            && Merge(t, b) == Todo(t.id, name, shortDescription, read(dateTime).value, isDone, priority, category, tags)
  {
  }

  /** Saving an unchanged dialog gives back the loaded record exactly when
      the server reads the shortened date/time text as the record's own
      instant; any other reading moves the task's date/time. */
  lemma UnchangedSaveRoundTrip(t: Todo, iso: string, read: IsoReader)
    requires read(InputDate(iso)).Some?
    ensures var b := UpdateBodyOf(SavePayload(t.name, t.shortDescription, InputDate(iso), t.isDone,
                                              t.priority, t.category, t.tags), read);
            Merge(t, b) == t <==> read(InputDate(iso)) == Some(t.dateTime)
  {
  }

  class Dialog {
    /** The `todo` prop: the task being edited, if any. */
    var todo: Option<Todo>
    var name: string
    var shortDescription: string
    var dateTime: string
    var isDone: bool
    var priority: Priority
    var category: string
    var newCategory: string
    var tags: seq<string>
    var tagInput: string
    var saving: bool
    /** Every `onSave` call, in order: the id and the payload. */
    var saved: seq<(int, TodoUpdate)>
    /** How many times the dialog asked its parent to close it. */
    var closeRequests: nat

    constructor ()
      ensures todo == None && name == "" && shortDescription == "" && dateTime == "" && !isDone
      ensures priority == MEDIUM && category == "" && newCategory == "" && tags == [] && tagInput == ""
      ensures !saving && saved == [] && closeRequests == 0
    {
      todo := None;
      name, shortDescription, dateTime, isDone := "", "", "", false;
      priority, category, newCategory := MEDIUM, "", "";
      tags, tagInput := [], "";
      saving, saved, closeRequests := false, [], 0;
    }

    /** The effect run when the `todo` prop changes to `t`; `iso` is the
        ISO text of `t`'s date/time. A todo is copied field by field; no
        todo leaves the fields as they were. */
    method Load(t: Option<Todo>, iso: string)
      modifies this
      ensures todo == t
      ensures t.Some? ==>
        && name == t.value.name && shortDescription == t.value.shortDescription
        && dateTime == InputDate(iso) && isDone == t.value.isDone
        && priority == t.value.priority && category == t.value.category && tags == t.value.tags
      ensures t.None? ==>
        && name == old(name) && shortDescription == old(shortDescription) && dateTime == old(dateTime)
        && isDone == old(isDone) && priority == old(priority) && category == old(category) && tags == old(tags)
      ensures newCategory == old(newCategory) && tagInput == old(tagInput)
      ensures saving == old(saving) && saved == old(saved) && closeRequests == old(closeRequests)
    {
      todo := t;
      if t.Some? {
        name := t.value.name;
        shortDescription := t.value.shortDescription;
        dateTime := InputDate(iso);
        isDone := t.value.isDone;
        priority := t.value.priority;
        category := t.value.category;
        tags := t.value.tags;
      }
    }

    method AddTag()
      modifies this
      ensures (tags, tagInput) == Editing.AddTag(old(tags), old(tagInput))
      ensures Distinct(old(tags)) ==> Distinct(tags)
      ensures todo == old(todo) && name == old(name) && shortDescription == old(shortDescription)
      ensures dateTime == old(dateTime) && isDone == old(isDone) && priority == old(priority)
      ensures category == old(category) && newCategory == old(newCategory)
      ensures saving == old(saving) && saved == old(saved) && closeRequests == old(closeRequests)
    {
      var r := Editing.AddTag(tags, tagInput);
      tags, tagInput := r.0, r.1;
    }

    method RemoveTag(x: string)
      modifies this
      ensures tags == Editing.RemoveTag(old(tags), x)
      ensures Distinct(old(tags)) ==> Distinct(tags)
      ensures todo == old(todo) && name == old(name) && shortDescription == old(shortDescription)
      ensures dateTime == old(dateTime) && isDone == old(isDone) && priority == old(priority)
      ensures category == old(category) && newCategory == old(newCategory) && tagInput == old(tagInput)
      ensures saving == old(saving) && saved == old(saved) && closeRequests == old(closeRequests)
    {
      tags := Editing.RemoveTag(tags, x);
    }

    method ChangeCategory(selected: string)
      modifies this
      ensures category == Editing.ChooseCategory(selected, old(newCategory))
      ensures todo == old(todo) && name == old(name) && shortDescription == old(shortDescription)
      ensures dateTime == old(dateTime) && isDone == old(isDone) && priority == old(priority)
      ensures newCategory == old(newCategory) && tags == old(tags) && tagInput == old(tagInput)
      ensures saving == old(saving) && saved == old(saved) && closeRequests == old(closeRequests)
    {
      category := Editing.ChooseCategory(selected, newCategory);
    }

    /** Enter in the "Add new" category box with a non-empty new category. */
    method NewCategoryKeyDown(key: string)
      modifies this
      ensures key == "Enter" && old(newCategory) != "" ==> category == old(newCategory)
      ensures !(key == "Enter" && old(newCategory) != "") ==> category == old(category)
      ensures todo == old(todo) && name == old(name) && shortDescription == old(shortDescription)
      ensures dateTime == old(dateTime) && isDone == old(isDone) && priority == old(priority)
      ensures newCategory == old(newCategory) && tags == old(tags) && tagInput == old(tagInput)
      ensures saving == old(saving) && saved == old(saved) && closeRequests == old(closeRequests)
    {
      if key == "Enter" && newCategory != "" {
        category := newCategory;
      }
    }

    /** The Save button up to the `onSave` call: with no todo nothing
        happens; otherwise `saving` is set and the todo's id and the seven
        fields are sent. The button is disabled while saving. */
    method BeginSave()
      requires !saving
      modifies this
      ensures todo.None? ==> saving == old(saving) && saved == old(saved)
      ensures todo.Some? ==>
        && saving
        && saved == old(saved) + [(todo.value.id, SavePayload(name, shortDescription, dateTime, isDone,
                                                              priority, category, tags))]
      ensures closeRequests == old(closeRequests)
      ensures todo == old(todo) && name == old(name) && shortDescription == old(shortDescription)
      ensures dateTime == old(dateTime) && isDone == old(isDone) && priority == old(priority)
      ensures category == old(category) && newCategory == old(newCategory)
      ensures tags == old(tags) && tagInput == old(tagInput)
    {
      if todo.None? {
        return;
      }
      saving := true;
      saved := saved + [(todo.value.id, SavePayload(name, shortDescription, dateTime, isDone,
                                                    priority, category, tags))];
    }

    /** The rest of the save once `onSave` has settled: the dialog asks to
        be closed only if the save succeeded, and `saving` is cleared
        either way. */
    method FinishSave(succeeded: bool)
      requires saving
      modifies this
      ensures !saving
      ensures closeRequests == old(closeRequests) + (if succeeded then 1 else 0)
      ensures saved == old(saved)
      ensures todo == old(todo) && name == old(name) && shortDescription == old(shortDescription)
      ensures dateTime == old(dateTime) && isDone == old(isDone) && priority == old(priority)
      ensures category == old(category) && newCategory == old(newCategory)
      ensures tags == old(tags) && tagInput == old(tagInput)
    {
      if succeeded {
        closeRequests := closeRequests + 1;
      }
      saving := false;
    }
  }
}
