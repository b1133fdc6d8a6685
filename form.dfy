/** The add-task form: its fields, the tag and category editing, and the
    submit that validates, sends the payload and resets. */
module Form {
  import opened Common
  import opened Api
  import opened Server
  import opened Exchange
  import Editing

  const MissingFields := "Name, description and date/time are required"
  const AddFailed := "Failed to add todo"

  /** The form's own check before calling `onAdd`: the three texts are
      non-empty (JavaScript truthiness). This is the server's test for the
      name and the description; its date/time test is stricter (see
      `UnreadableDateRefused`). */
  predicate Complete(name: string, shortDescription: string, dateTime: string)
    ensures Complete(name, shortDescription, dateTime) <==>
      Given(Some(name)) && Given(Some(shortDescription)) && Given(Some(dateTime))
  {
    name != "" && shortDescription != "" && dateTime != ""
  }

  /** The error shown after a failed add: the server's `error` text when it
      has one, otherwise the fallback. It is never empty, so the error alert
      shows whenever `onAdd` rejects. */
  function FailureMessage(serverError: Option<string>): (r: string)
    ensures r != ""
    ensures serverError.Some? && serverError.value != "" ==> r == serverError.value
    ensures serverError.None? || serverError.value == "" ==> r == AddFailed
  {
    if serverError.Some? && serverError.value != "" then serverError.value else AddFailed
  }

  /** How the `onAdd` call ended: resolved, or rejected with the server's
      `error` text if the response carried one. */
  datatype AddOutcome = Added | Rejected(serverError: Option<string>)

  /** A payload the form's check lets through passes the server's create
      validation whenever the server reads its date/time as an instant, and
      the record created from it holds exactly the form's values. */
  lemma SubmittedIsAccepted(name: string, shortDescription: string, dateTime: string,
                            priority: Priority, category: string, tags: seq<string>,
                            read: IsoReader, id: int)
    requires Complete(name, shortDescription, dateTime) && read(dateTime).Some?
    ensures var b := CreateBodyOf(TodoCreate(name, shortDescription, dateTime, Some(priority), Some(category), Some(tags)), read);
            && CreateErrors(b) == []
            && NewTodo(id, b) == Todo(id, name, shortDescription, read(dateTime).value, false, priority, category, tags)
  {
  }

  /** The form's check is weaker than the server's on one point only: a
      date/time text the server cannot read passes the form but is
      refused by the server. */
  lemma UnreadableDateRefused(c: TodoCreate, read: IsoReader)
    requires read(c.dateTime).None?
    ensures DateTimeRequired in CreateErrors(CreateBodyOf(c, read))
  {
  }

  class TodoForm {
    var name: string
    var shortDescription: string
    var dateTime: string
    var priority: Priority
    var category: string
    var newCategory: string
    var tags: seq<string>
    var tagInput: string
    var error: string
    /** Every payload handed to `onAdd`, in order. */
    var sent: seq<TodoCreate>

    /** The tag list never holds a tag twice. */
    ghost predicate Valid()
      reads this
    {
      Distinct(tags)
    }

    constructor ()
      ensures Valid()
      ensures name == "" && shortDescription == "" && dateTime == ""
      ensures priority == MEDIUM && category == "General" && newCategory == ""
      ensures tags == [] && tagInput == "" && error == "" && sent == []
    {
      name, shortDescription, dateTime := "", "", "";
      priority, category, newCategory := MEDIUM, "General", "";
      tags, tagInput, error := [], "", "";
      sent := [];
    }

    /** The "Add Tag" button, and Enter in a non-empty tag box. */
    method AddTag()
      requires Valid()
      modifies this
      ensures Valid()
      ensures (tags, tagInput) == Editing.AddTag(old(tags), old(tagInput))
      ensures name == old(name) && shortDescription == old(shortDescription) && dateTime == old(dateTime)
      ensures priority == old(priority) && category == old(category) && newCategory == old(newCategory)
      ensures error == old(error) && sent == old(sent)
    {
      var r := Editing.AddTag(tags, tagInput);
      tags, tagInput := r.0, r.1;
    }

    /** The delete icon of a tag chip. */
    method RemoveTag(x: string)
      requires Valid()
      modifies this
      ensures Valid()
      ensures tags == Editing.RemoveTag(old(tags), x)
      ensures name == old(name) && shortDescription == old(shortDescription) && dateTime == old(dateTime)
      ensures priority == old(priority) && category == old(category) && newCategory == old(newCategory)
      ensures tagInput == old(tagInput) && error == old(error) && sent == old(sent)
    {
      tags := Editing.RemoveTag(tags, x);
    }

    /** A choice in the category select. */
    method ChangeCategory(selected: string)
      modifies this
      ensures category == Editing.ChooseCategory(selected, old(newCategory))
      ensures name == old(name) && shortDescription == old(shortDescription) && dateTime == old(dateTime)
      ensures priority == old(priority) && newCategory == old(newCategory) && tags == old(tags)
      ensures tagInput == old(tagInput) && error == old(error) && sent == old(sent)
    {
      category := Editing.ChooseCategory(selected, newCategory);
    }

    /** A key press in the "Add new" category box: Enter with a non-empty
        new category makes it the category. */
    method NewCategoryKeyDown(key: string)
      modifies this
      ensures key == "Enter" && old(newCategory) != "" ==> category == old(newCategory)
      ensures !(key == "Enter" && old(newCategory) != "") ==> category == old(category)
      ensures name == old(name) && shortDescription == old(shortDescription) && dateTime == old(dateTime)
      ensures priority == old(priority) && newCategory == old(newCategory) && tags == old(tags)
      ensures tagInput == old(tagInput) && error == old(error) && sent == old(sent)
    {
      if key == "Enter" && newCategory != "" {
        category := newCategory;
      }
    }

    /** `handleSubmit`, with `outcome` standing for how `onAdd` ends. An
        incomplete form only sets the error and sends nothing; a complete
        one sends its values, then resets on success or keeps them and
        shows the failure on error. The tag input and the new category are
        never touched. */
    method Submit(outcome: AddOutcome)
      requires Valid()
      modifies this
      ensures Valid()
      ensures tagInput == old(tagInput) && newCategory == old(newCategory)
      ensures !Complete(old(name), old(shortDescription), old(dateTime)) ==>
        && error == MissingFields && sent == old(sent)
        && name == old(name) && shortDescription == old(shortDescription) && dateTime == old(dateTime)
        && priority == old(priority) && category == old(category) && tags == old(tags)
      ensures Complete(old(name), old(shortDescription), old(dateTime)) ==>
        sent == old(sent) + [TodoCreate(old(name), old(shortDescription), old(dateTime),
                                        Some(old(priority)), Some(old(category)), Some(old(tags)))]
      ensures Complete(old(name), old(shortDescription), old(dateTime)) && outcome.Added? ==>
        && name == "" && shortDescription == "" && dateTime == ""
        && priority == MEDIUM && category == "General" && tags == [] && error == ""
      ensures Complete(old(name), old(shortDescription), old(dateTime)) && outcome.Rejected? ==>
        && error == FailureMessage(outcome.serverError)
        && name == old(name) && shortDescription == old(shortDescription) && dateTime == old(dateTime)
        && priority == old(priority) && category == old(category) && tags == old(tags)
    {
      if !Complete(name, shortDescription, dateTime) {
        error := MissingFields;
        return;
      }
      sent := sent + [TodoCreate(name, shortDescription, dateTime, Some(priority), Some(category), Some(tags))];
      match outcome
      case Added =>
        name := "";
        shortDescription := "";
        dateTime := "";
        priority := MEDIUM;
        category := "General";
        tags := [];
        error := "";
      case Rejected(serverError) =>
        error := FailureMessage(serverError);
    }
  }
}
