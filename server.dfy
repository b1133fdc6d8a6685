/** The REST backend: request validation, the list query's where clause, and
    the create / update / delete / list-categories handlers acting on a store
    of todos held in memory in place of the database. */
module Server {
  import opened Common

  /** What a handler sends back: a JSON body with a status, or `{ error }`. */
  datatype Reply<T> = Ok(status: int, body: T) | Error(status: int, message: string)

  /** A date/time field of a request body after ISO 8601 parsing: absent,
      present but not a valid ISO 8601 text, or the instant it denotes. */
  datatype IsoInput = Missing | Malformed | Instant(at: int)

  /** JavaScript truthiness of an optional text: present and non-empty. */
  predicate Given(s: Option<string>) {
    s.Some? && s.value != ""
  }

  /** `arr.join(sep)`. */
  function Join(msgs: seq<string>, sep: string): (r: string)
    ensures msgs == [] ==> r == ""
    ensures msgs != [] ==> |r| == TotalLength(msgs) + |sep| * (|msgs| - 1)
    ensures msgs != [] ==> r[..|msgs[0]|] == msgs[0]
  {
    if msgs == [] then ""
    else if |msgs| == 1 then msgs[0]
    else msgs[0] + sep + Join(msgs[1..], sep)
  }

  function TotalLength(msgs: seq<string>): nat {
    if msgs == [] then 0 else |msgs[0]| + TotalLength(msgs[1..])
  }

  /** Joining one more message adds the separator and that message at the
      end, so every message follows the previous one in order. */
  lemma {:induction false} JoinAppend(msgs: seq<string>, sep: string, m: string)
    requires msgs != []
    ensures Join(msgs + [m], sep) == Join(msgs, sep) + sep + m
  {
    if |msgs| == 1 {
      assert msgs + [m] == [msgs[0], m];
    } else {
      assert (msgs + [m])[1..] == msgs[1..] + [m];
      JoinAppend(msgs[1..], sep, m);
    }
  }

  /** `formatValidationErrors`: the messages of the failed validators,
      in validator order, separated by ", ". */
  function FormatValidationErrors(msgs: seq<string>): (r: string)
    ensures msgs == [] ==> r == ""
    ensures |msgs| == 1 ==> r == msgs[0]
    ensures |msgs| >= 2 ==> r == FormatValidationErrors(msgs[..|msgs| - 1]) + ", " + msgs[|msgs| - 1]
  {
    if |msgs| >= 2 then
      assert msgs == msgs[..|msgs| - 1] + [msgs[|msgs| - 1]];
      JoinAppend(msgs[..|msgs| - 1], ", ", msgs[|msgs| - 1]);
      Join(msgs, ", ")
    else Join(msgs, ", ")
  }

  // ---------------------------------------------------------------------
  // GET /api/todos

  /** The query parameters of a list request, each absent or a text. */
  datatype ListQuery = ListQuery(
    filter: Option<string>,
    search: Option<string>,
    category: Option<string>,
    priority: Option<string>)

  /** Express's `req.query`, restricted to the four parameters read. */
  function RequestQuery(params: map<string, string>): (q: ListQuery)
    ensures q.filter.Some? <==> "filter" in params
    ensures q.search.Some? <==> "search" in params
    ensures q.category.Some? <==> "category" in params
    ensures q.priority.Some? <==> "priority" in params
    ensures q.filter.Some? ==> q.filter.value == params["filter"]
    ensures q.search.Some? ==> q.search.value == params["search"]
    ensures q.category.Some? ==> q.category.value == params["category"]
    ensures q.priority.Some? ==> q.priority.value == params["priority"]
  {
    ListQuery(
      if "filter" in params then Some(params["filter"]) else None,
      if "search" in params then Some(params["search"]) else None,
      if "category" in params then Some(params["category"]) else None,
      if "priority" in params then Some(params["priority"]) else None)
  }

  /** The only list validator that can fail on a text value is the
      priority's `isIn`; it carries no custom message. */
  function ListErrors(q: ListQuery): (errs: seq<string>)
    ensures errs == [] <==> (q.priority.Some? ==> ParsePriority(q.priority.value).Some?)
  {
    if q.priority.Some? && ParsePriority(q.priority.value).None? then ["Invalid value"] else []
  }

  /** The status part of the list query: "done" asks for finished tasks,
      "upcoming" for unfinished ones later than now, anything else
      (including "all") for every task. */
  predicate StatusHolds(filter: Option<string>, t: Todo, now: int) {
    if filter == Some("done") then t.isDone
    else if filter == Some("upcoming") then !t.isDone && t.dateTime > now
    else true
  }

  /** The search part of the list query: a given text must occur in the
      name or in the description, ignoring case. */
  predicate SearchHolds(search: Option<string>, t: Todo, fold: Fold) {
    Given(search) ==>
      ContainsIgnoringCase(t.name, search.value, fold)
      || ContainsIgnoringCase(t.shortDescription, search.value, fold)
  }

  /** The reference meaning of a list query: the status condition, and the
      search text, the category and the priority whenever each is given. */
  predicate Matches(q: ListQuery, t: Todo, now: int, fold: Fold) {
    && StatusHolds(q.filter, t, now)
    && SearchHolds(q.search, t, fold)
    && (Given(q.category) ==> t.category == q.category.value)
    && (Given(q.priority) ==> PriorityName(t.priority) == q.priority.value)
  }

  /** The ORM where clause the handler assembles: each present key is a
      condition, `all` is `AND` (every member holds) and `any` is `OR` (some
      member holds; an empty `OR` holds of nothing). */
  datatype Where = Where(
    isDone: Option<bool>,
    dateTimeGt: Option<int>,
    nameContains: Option<string>,
    descriptionContains: Option<string>,
    category: Option<string>,
    priority: Option<string>,
    all: seq<Where>,
    any: Disjunction)

  /** The `OR` key of a where clause: absent, or its list of alternatives. */
  datatype Disjunction = NoOr | Or(alternatives: seq<Where>)

  /** `{}` */
  const EmptyWhere: Where := Where(None, None, None, None, None, None, [], NoOr)

  /** Whether a record meets a where clause. */
  predicate Satisfies(w: Where, t: Todo, fold: Fold)
    decreases w
  {
    && (w.isDone.Some? ==> t.isDone == w.isDone.value)
    && (w.dateTimeGt.Some? ==> t.dateTime > w.dateTimeGt.value)
    && (w.nameContains.Some? ==> ContainsIgnoringCase(t.name, w.nameContains.value, fold))
    && (w.descriptionContains.Some? ==>
          ContainsIgnoringCase(t.shortDescription, w.descriptionContains.value, fold))
    && (w.category.Some? ==> t.category == w.category.value)
    && (w.priority.Some? ==> PriorityName(t.priority) == w.priority.value)
    && (forall c | c in w.all :: Satisfies(c, t, fold))
    && match w.any
       case NoOr => true
       case Or(alternatives) => exists c | c in alternatives :: Satisfies(c, t, fold)
  }

  /** The handler's where clause, built by successive reassignment as the
      handler does; the record meets it exactly when the query matches. */
  method BuildWhere(q: ListQuery, now: int) returns (w: Where)
    ensures forall t: Todo, fold: Fold :: Satisfies(w, t, fold) <==> Matches(q, t, now, fold)
  {
    w := EmptyWhere;
    if q.filter == Some("done") {
      w := w.(isDone := Some(true));
    }
    if q.filter == Some("upcoming") {
      w := EmptyWhere.(isDone := Some(false), dateTimeGt := Some(now));
    }
    ghost var status := w;
    if Given(q.search) {
      var s := q.search.value;
      var byText := [EmptyWhere.(nameContains := Some(s)), EmptyWhere.(descriptionContains := Some(s))];
      if w.isDone.Some? || w.dateTimeGt.Some? {
        w := EmptyWhere.(all := [w, EmptyWhere.(any := Or(byText))]);
      } else {
        w := w.(any := Or(byText));
      }
    }
    ghost var searched := w;
    if Given(q.category) {
      w := w.(category := q.category);
    }
    if Given(q.priority) {
      w := w.(priority := q.priority);
    }
    forall t: Todo, fold: Fold
      ensures Satisfies(w, t, fold) <==> Matches(q, t, now, fold)
    {
      assert Satisfies(status, t, fold) <==> StatusHolds(q.filter, t, now);
      if Given(q.search) {
        SearchWhereMeaning(status, q.search.value, t, fold);
      }
      assert Satisfies(searched, t, fold) <==> StatusHolds(q.filter, t, now) && SearchHolds(q.search, t, fold);
    }
  }

  /** The clause the handler builds for a search text on top of the status
      clause `w`, and its meaning. */
  lemma SearchWhereMeaning(w: Where, s: string, t: Todo, fold: Fold)
    requires s != "" && w.all == [] && w.any == NoOr
    ensures var byText := [EmptyWhere.(nameContains := Some(s)), EmptyWhere.(descriptionContains := Some(s))];
            && Satisfies(w.(any := Or(byText)), t, fold) == (Satisfies(w, t, fold) && SearchHolds(Some(s), t, fold))
            && Satisfies(EmptyWhere.(all := [w, EmptyWhere.(any := Or(byText))]), t, fold)
               == (Satisfies(w, t, fold) && SearchHolds(Some(s), t, fold))
  {
    var byName, byDescription := EmptyWhere.(nameContains := Some(s)), EmptyWhere.(descriptionContains := Some(s));
    assert Satisfies(byName, t, fold) == ContainsIgnoringCase(t.name, s, fold);
    assert Satisfies(byDescription, t, fold) == ContainsIgnoringCase(t.shortDescription, s, fold);
    var eitherText := EmptyWhere.(any := Or([byName, byDescription]));
    assert Satisfies(eitherText, t, fold) == (Satisfies(byName, t, fold) || Satisfies(byDescription, t, fold));
  }

  // ---------------------------------------------------------------------
  // POST /api/todos

  /** A create request body; validators that only check a JSON type are
      met by construction. */
  datatype CreateBody = CreateBody(
    name: Option<string>,
    shortDescription: Option<string>,
    dateTime: IsoInput,
    priority: Option<string>,
    category: Option<string>,
    tags: Option<seq<string>>)

  const NameRequired := "Name is required"
  const DescriptionRequired := "Short description is required"
  const DateTimeRequired := "Valid dateTime is required"
  const PriorityInvalid := "Priority must be LOW, MEDIUM, HIGH, or URGENT"

  /** A priority field that is absent or one of the four names. */
  predicate PriorityAccepted(p: Option<string>) {
    p.Some? ==> ParsePriority(p.value).Some?
  }

  /** The messages of the failing create validators, in order: the body is
      accepted exactly when name and description are non-empty, the
      dateTime is valid and the priority, if any, is known. */
  function CreateErrors(b: CreateBody): (errs: seq<string>)
    ensures errs == [] <==>
      Given(b.name) && Given(b.shortDescription) && b.dateTime.Instant? && PriorityAccepted(b.priority)
    ensures NameRequired in errs <==> !Given(b.name)
    ensures DescriptionRequired in errs <==> !Given(b.shortDescription)
    ensures DateTimeRequired in errs <==> !b.dateTime.Instant?
    ensures PriorityInvalid in errs <==> !PriorityAccepted(b.priority)
  {
    (if Given(b.name) then [] else [NameRequired])
    + (if Given(b.shortDescription) then [] else [DescriptionRequired])
    + (if b.dateTime.Instant? then [] else [DateTimeRequired])
    + (if PriorityAccepted(b.priority) then [] else [PriorityInvalid])
  }

  /** The record created from an accepted body: not done, with the given
      texts and instant, and MEDIUM, "General" and no tags for an absent
      priority, category and tag list. */
  function NewTodo(id: int, b: CreateBody): (t: Todo)
    requires CreateErrors(b) == []
    ensures t.id == id && !t.isDone
    ensures t.name == b.name.value && t.shortDescription == b.shortDescription.value
    ensures t.dateTime == b.dateTime.at
    ensures b.priority.None? ==> t.priority == MEDIUM
    ensures b.priority.Some? ==> PriorityName(t.priority) == b.priority.value
    ensures b.category.None? ==> t.category == "General"
    ensures b.category.Some? ==> t.category == b.category.value
    ensures b.tags.None? ==> t.tags == []
    ensures b.tags.Some? ==> t.tags == b.tags.value
  {
    var priority := if b.priority.Some? then ParsePriority(b.priority.value).value else MEDIUM;
    Todo(id, b.name.value, b.shortDescription.value, b.dateTime.at, false,
         priority, b.category.GetOr("General"), b.tags.GetOr([]))
  }

  // ---------------------------------------------------------------------
  // PUT /api/todos/:id

  /** An update request body: every field optional. */
  datatype UpdateBody = UpdateBody(
    name: Option<string>,
    shortDescription: Option<string>,
    dateTime: IsoInput,
    isDone: Option<bool>,
    priority: Option<string>,
    category: Option<string>,
    tags: Option<seq<string>>)

  const IdInvalid := "Valid id required"
  const DateTimeInvalid := "dateTime must be a valid ISO8601 date"

  /** The messages of the failing update validators, in order: the id must
      be an integer, a present dateTime valid and a present priority known. */
  function UpdateErrors(id: Option<int>, b: UpdateBody): (errs: seq<string>)
    ensures errs == [] <==> id.Some? && !b.dateTime.Malformed? && PriorityAccepted(b.priority)
    ensures IdInvalid in errs <==> id.None?
    ensures DateTimeInvalid in errs <==> b.dateTime.Malformed?
    ensures PriorityInvalid in errs <==> !PriorityAccepted(b.priority)
  {
    (if id.Some? then [] else [IdInvalid])
    + (if b.dateTime.Malformed? then [DateTimeInvalid] else [])
    + (if PriorityAccepted(b.priority) then [] else [PriorityInvalid])
  }

  /** The fields of a record, as the keys of an update's `data`. */
  datatype Field = NameField | DescriptionField | DateTimeField | IsDoneField
                 | PriorityField | CategoryField | TagsField

  /** The update body supplies field `f` (the key is in `data`). */
  predicate Supplies(b: UpdateBody, f: Field) {
    match f
    case NameField => b.name.Some?
    case DescriptionField => b.shortDescription.Some?
    case DateTimeField => b.dateTime.Instant?
    case IsDoneField => b.isDone.Some?
    case PriorityField => b.priority.Some?
    case CategoryField => b.category.Some?
    case TagsField => b.tags.Some?
  }

  /** The two records differ in field `f`. */
  predicate Differs(a: Todo, c: Todo, f: Field) {
    match f
    case NameField => a.name != c.name
    case DescriptionField => a.shortDescription != c.shortDescription
    case DateTimeField => a.dateTime != c.dateTime
    case IsDoneField => a.isDone != c.isDone
    case PriorityField => a.priority != c.priority
    case CategoryField => a.category != c.category
    case TagsField => a.tags != c.tags
  }

  /** Every field the body supplies has the body's value in `t`. */
  predicate Carries(b: UpdateBody, t: Todo) {
    && (b.name.Some? ==> t.name == b.name.value)
    && (b.shortDescription.Some? ==> t.shortDescription == b.shortDescription.value)
    && (b.dateTime.Instant? ==> t.dateTime == b.dateTime.at)
    && (b.isDone.Some? ==> t.isDone == b.isDone.value)
    && (b.priority.Some? ==> PriorityName(t.priority) == b.priority.value)
    && (b.category.Some? ==> t.category == b.category.value)
    && (b.tags.Some? ==> t.tags == b.tags.value)
  }

  /** The record after a partial update: same id, every supplied field
      takes the body's value and no other field changes. */
  function Merge(t: Todo, b: UpdateBody): (r: Todo)
    requires PriorityAccepted(b.priority)
    ensures r.id == t.id
    ensures Carries(b, r)
    ensures forall f: Field :: Differs(t, r, f) ==> Supplies(b, f)
  {
    Todo(t.id,
         b.name.GetOr(t.name),
         b.shortDescription.GetOr(t.shortDescription),
         if b.dateTime.Instant? then b.dateTime.at else t.dateTime,
         b.isDone.GetOr(t.isDone),
         if b.priority.Some? then ParsePriority(b.priority.value).value else t.priority,
         b.category.GetOr(t.category),
         b.tags.GetOr(t.tags))
  }

  /** The handler's `data`, filled in key by key, applied to the record:
      the result is the merged record. */
  method ApplyUpdate(t: Todo, b: UpdateBody) returns (r: Todo)
    requires PriorityAccepted(b.priority)
    ensures r == Merge(t, b)
  {
    var name, description, dateTime, isDone := t.name, t.shortDescription, t.dateTime, t.isDone;
    var priority, category, tags := t.priority, t.category, t.tags;
    if b.name.Some? { name := b.name.value; }
    if b.shortDescription.Some? { description := b.shortDescription.value; }
    if b.dateTime.Instant? { dateTime := b.dateTime.at; }
    if b.isDone.Some? { isDone := b.isDone.value; }
    if b.priority.Some? { priority := ParsePriority(b.priority.value).value; }
    if b.category.Some? { category := b.category.value; }
    if b.tags.Some? { tags := b.tags.value; }
    r := Todo(t.id, name, description, dateTime, isDone, priority, category, tags);
  }

  /** Merge's contract determines its result: any record with the same id
      that carries the body and changes nothing else is the merged one. */
  lemma MergeDetermined(t: Todo, b: UpdateBody, r: Todo)
    requires PriorityAccepted(b.priority)
    requires r.id == t.id && Carries(b, r)
    requires forall f: Field :: Differs(t, r, f) ==> Supplies(b, f)
    ensures r == Merge(t, b)
  {
    assert !Differs(t, r, NameField) || Supplies(b, NameField);
    assert !Differs(t, r, DescriptionField) || Supplies(b, DescriptionField);
    assert !Differs(t, r, DateTimeField) || Supplies(b, DateTimeField);
    assert !Differs(t, r, IsDoneField) || Supplies(b, IsDoneField);
    assert !Differs(t, r, PriorityField) || Supplies(b, PriorityField);
    assert !Differs(t, r, CategoryField) || Supplies(b, CategoryField);
    assert !Differs(t, r, TagsField) || Supplies(b, TagsField);
  }

  /** Applying the same update twice is applying it once. */
  lemma MergeIdempotent(t: Todo, b: UpdateBody)
    requires PriorityAccepted(b.priority)
    ensures Merge(Merge(t, b), b) == Merge(t, b)
  {
  }

  /** An update body with no fields leaves the record as it is. */
  lemma MergeNothing(t: Todo, b: UpdateBody)
    requires PriorityAccepted(b.priority)
    requires forall f: Field :: !Supplies(b, f)
    ensures Merge(t, b) == t
  {
    assert !Supplies(b, NameField) && !Supplies(b, DescriptionField) && !Supplies(b, DateTimeField);
    assert !Supplies(b, IsDoneField) && !Supplies(b, PriorityField) && !Supplies(b, CategoryField);
    assert !Supplies(b, TagsField);
  }

  // ---------------------------------------------------------------------
  // The store

  /** A non-empty set of ids has a member, so a loop over it can pick one. */
  lemma SomeId(ids: set<int>)
    requires ids != {}
    ensures exists id :: id in ids
  {
    if forall id :: id !in ids {
      assert false;
    }
  }

  /** The categories of the records with the given ids. */
  ghost function CategoriesIn(todos: map<int, Todo>, ids: set<int>): set<string> {
    set id | id in ids && id in todos :: todos[id].category
  }

  const UpdateFailed := "Todo not found or update failed"
  const DeleteFailed := "Todo not found or delete failed"

  /** The todo table: records keyed by their id, ids handed out in
      increasing order starting at 1. */
  class Store {
    var todos: map<int, Todo>
    var nextId: int

    ghost predicate Valid()
      reads this
    {
      0 < nextId && forall id | id in todos :: todos[id].id == id && 0 < id < nextId
    }

    constructor ()
      ensures Valid() && todos == map[] && nextId == 1
    {
      todos := map[];
      nextId := 1;
    }

    /** GET /api/todos: a 400 for an unknown priority, otherwise exactly the
        records the query matches (in no particular order). */
    method List(q: ListQuery, now: int, fold: Fold) returns (r: Reply<map<int, Todo>>)
      ensures r.Error? <==> ListErrors(q) != []
      ensures r.Error? ==> r.status == 400 && r.message == FormatValidationErrors(ListErrors(q))
      ensures r.Ok? ==> r.status == 200 && r.body.Keys <= todos.Keys
      ensures r.Ok? ==> forall id | id in todos ::
                (id in r.body <==> Matches(q, todos[id], now, fold)) && (id in r.body ==> r.body[id] == todos[id])
    {
      var errs := ListErrors(q);
      if errs != [] {
        return Error(400, FormatValidationErrors(errs));
      }
      var w := BuildWhere(q, now);
      var found := map id | id in todos && Satisfies(w, todos[id], fold) :: todos[id];
      return Ok(200, found);
    }

    /** GET /api/categories: every category in the table, each once. */
    method Categories() returns (cats: seq<string>)
      ensures Distinct(cats)
      ensures forall c :: c in cats <==> exists id | id in todos :: todos[id].category == c
    {
      cats := [];
      var remaining := todos.Keys;
      ghost var visited: set<int> := {};
      while remaining != {}
        invariant remaining + visited == todos.Keys && remaining !! visited
        invariant Distinct(cats)
        invariant forall c :: c in cats <==> c in CategoriesIn(todos, visited)
        decreases remaining
      {
        SomeId(remaining);
        var id: int :| id in remaining;
        var c := todos[id].category;
        if c !in cats {
          cats := cats + [c];
        }
        remaining := remaining - {id};
        visited := visited + {id};
      }
    }

    /** POST /api/todos: a 400 and no change for a rejected body, otherwise
        a 201 with the one new record, stored under a fresh id. */
    method Create(b: CreateBody) returns (r: Reply<Todo>)
      requires Valid()
      modifies this
      ensures Valid()
      ensures r.Error? <==> CreateErrors(b) != []
      ensures r.Error? ==> r.status == 400 && r.message == FormatValidationErrors(CreateErrors(b))
      ensures r.Error? ==> todos == old(todos) && nextId == old(nextId)
      ensures r.Ok? ==> r.status == 201 && r.body == NewTodo(old(nextId), b)
      ensures r.Ok? ==> old(nextId) !in old(todos) && todos == old(todos)[old(nextId) := r.body]
    {
      var errs := CreateErrors(b);
      if errs != [] {
        return Error(400, FormatValidationErrors(errs));
      }
      var t := NewTodo(nextId, b);
      todos := todos[nextId := t];
      nextId := nextId + 1;
      return Ok(201, t);
    }

    /** PUT /api/todos/:id: a 400 for a rejected request, a 404 for an id
        not in the table (no change in either case), otherwise the record
        with the supplied fields replaced and every other record unchanged. */
    method Update(id: Option<int>, b: UpdateBody) returns (r: Reply<Todo>)
      requires Valid()
      modifies this
      ensures Valid() && nextId == old(nextId)
      ensures r.Error? <==> UpdateErrors(id, b) != [] || id.value !in old(todos)
      ensures UpdateErrors(id, b) != [] ==> r.Error? && r.status == 400 && r.message == FormatValidationErrors(UpdateErrors(id, b))
      ensures UpdateErrors(id, b) == [] && id.value !in old(todos) ==> r.Error? && r.status == 404 && r.message == UpdateFailed
      ensures r.Error? ==> todos == old(todos)
      ensures r.Ok? ==> r.status == 200 && r.body == Merge(old(todos)[id.value], b)
      ensures r.Ok? ==> todos == old(todos)[id.value := r.body]
    {
      var errs := UpdateErrors(id, b);
      if errs != [] {
        return Error(400, FormatValidationErrors(errs));
      }
      var key := id.value;
      if key !in todos {
        return Error(404, UpdateFailed);
      }
      var t := ApplyUpdate(todos[key], b);
      todos := todos[key := t];
      return Ok(200, t);
    }

    /** DELETE /api/todos/:id: a 400 for a non-integer id, a 404 for an id not
        in the table (no change in either case), otherwise that one record
        is removed. */
    method Delete(id: Option<int>) returns (r: Reply<bool>)
      requires Valid()
      modifies this
      ensures Valid() && nextId == old(nextId)
      ensures r.Error? <==> id.None? || id.value !in old(todos)
      ensures id.None? ==> r.Error? && r.status == 400 && r.message == FormatValidationErrors([IdInvalid])
      ensures id.Some? && id.value !in old(todos) ==> r.Error? && r.status == 404 && r.message == DeleteFailed
      ensures r.Error? ==> todos == old(todos)
      ensures r.Ok? ==> r.status == 200 && r.body && todos == old(todos) - {id.value}
    {
      if id.None? {
        return Error(400, FormatValidationErrors([IdInvalid]));
      }
      if id.value !in todos {
        return Error(404, DeleteFailed);
      }
      todos := todos - {id.value};
      return Ok(200, true);
    }
  }
}
