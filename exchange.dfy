/** What the server receives for a client payload: the JSON body of a create
    or update request, and the query of a list request. */
module Exchange {
  import opened Common
  import opened Api
  import opened Server

  /** How the server reads a date/time text (`isISO8601` and `new Date`):
      the instant it denotes, or None for a text that is not ISO 8601. The
      reading is left abstract. */
  type IsoReader = string -> Option<int>

  function ReadIso(read: IsoReader, s: string): (r: IsoInput)
    ensures read(s).Some? ==> r == Instant(read(s).value)
    ensures read(s).None? ==> r == Malformed
  {
    if read(s).Some? then Instant(read(s).value) else Malformed
  }

  function PriorityText(p: Option<Priority>): Option<string> {
    if p.Some? then Some(PriorityName(p.value)) else None
  }

  /** The body of `POST /api/todos` for an `addTodo` payload: the server
      accepts it exactly when the name and description are non-empty and the
      date/time text reads as an instant. */
  function CreateBodyOf(c: TodoCreate, read: IsoReader): (b: CreateBody)
    ensures CreateErrors(b) == [] <==> c.name != "" && c.shortDescription != "" && read(c.dateTime).Some?
  {
    CreateBody(Some(c.name), Some(c.shortDescription), ReadIso(read, c.dateTime),
               PriorityText(c.priority), c.category, c.tags)
  }

  /** The body of `PUT /api/todos/:id` for an `updateTodo` payload; keys the
      payload leaves out are absent. For a valid id the server accepts it
      exactly when a date/time it carries reads as an instant. */
  function UpdateBodyOf(u: TodoUpdate, read: IsoReader): (b: UpdateBody)
    ensures forall id: int :: UpdateErrors(Some(id), b) == [] <==>
              (u.dateTime.Some? ==> read(u.dateTime.value).Some?)
    ensures u.dateTime.None? ==> b.dateTime == Missing
  {
    UpdateBody(u.name, u.shortDescription,
               if u.dateTime.Some? then ReadIso(read, u.dateTime.value) else Missing,
               u.isDone, PriorityText(u.priority), u.category, u.tags)
  }

  /** A priority the client sends is always one the server accepts, and it
      is read back as the same priority. */
  lemma PriorityTextAccepted(p: Option<Priority>)
    ensures PriorityAccepted(PriorityText(p))
    ensures p.Some? ==> ParsePriority(PriorityText(p).value) == p
  {
  }

  /** The list query the server sees for the filter object `getTodos` is
      given: its cleaned parameters as a query string. */
  function ListQueryOf(filters: Option<JsObject>): (q: ListQuery)
    ensures q.filter.Some? <==> filters.Some? && "filter" in filters.value && filters.value["filter"].Str?
    ensures q.filter.Some? ==> filters.value["filter"] == Str(q.filter.value)
    ensures q.search.Some? <==> filters.Some? && "search" in filters.value && filters.value["search"].Str?
    ensures q.search.Some? ==> filters.value["search"] == Str(q.search.value)
    ensures q.category.Some? <==> filters.Some? && "category" in filters.value && filters.value["category"].Str?
    ensures q.category.Some? ==> filters.value["category"] == Str(q.category.value)
    ensures q.priority.Some? <==> filters.Some? && "priority" in filters.value && filters.value["priority"].Str?
    ensures q.priority.Some? ==> filters.value["priority"] == Str(q.priority.value)
  {
    RequestQuery(QueryOf(Cleaned(filters)))
  }
}
