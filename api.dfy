/** The client's side of the REST interface: the payload shapes it sends, and
    the cleaning of the list filter into query parameters. */
module Api {
  import opened Common

  /** A JavaScript value as the client's filter objects hold it. */
  datatype JsValue = Undefined | Null | Str(s: string)

  /** A plain JavaScript object: its own keys and their values. A key that is
      present with the value `undefined` is different from an absent key. */
  type JsObject = map<string, JsValue>

  /** The payload of `addTodo`. */
  datatype TodoCreate = TodoCreate(
    name: string,
    shortDescription: string,
    dateTime: string,
    priority: Option<Priority>,
    category: Option<string>,
    tags: Option<seq<string>>)

  /** The payload of `updateTodo`: every key optional. */
  datatype TodoUpdate = TodoUpdate(
    name: Option<string>,
    shortDescription: Option<string>,
    dateTime: Option<string>,
    isDone: Option<bool>,
    priority: Option<Priority>,
    category: Option<string>,
    tags: Option<seq<string>>)

  /** `{}` as an update. */
  const NoChanges: TodoUpdate := TodoUpdate(None, None, None, None, None, None, None)

  /** The parameters `getTodos` sends for a filter object (or for none):
      exactly the keys whose value is neither undefined nor null, each with
      its own value. */
  function Cleaned(filters: Option<JsObject>): (params: JsObject)
    ensures filters.None? ==> params == map[]
    ensures forall k | k in params :: params[k].Str?
    ensures filters.Some? ==> forall k :: k in params <==> k in filters.value && filters.value[k].Str?
    ensures filters.Some? ==> forall k | k in params :: params[k] == filters.value[k]
  {
    if filters.None? then map[]
    else map k | k in filters.value && filters.value[k].Str? :: filters.value[k]
  }

  /** Cleaning what is already clean changes nothing. */
  lemma CleanedIdempotent(filters: Option<JsObject>)
    ensures Cleaned(Some(Cleaned(filters))) == Cleaned(filters)
  {
  }

  /** A non-empty set of keys has a member, so a loop over it can pick one. */
  lemma SomeKey(keys: set<string>)
    requires keys != {}
    ensures exists k :: k in keys
  {
    if forall k :: k !in keys {
      assert false;
    }
  }

  /** `getTodos`'s cleaning: copy the filter object, then walk its keys and
      delete each whose value is undefined or null. */
  method CleanFilters(filters: Option<JsObject>) returns (clean: JsObject)
    ensures clean == Cleaned(filters)
  {
    clean := if filters.Some? then filters.value else map[];
    ghost var original := clean;
    var keys := clean.Keys;
    while keys != {}
      invariant keys <= original.Keys
      invariant forall k :: k in clean <==> k in original && (k in keys || original[k].Str?)
      invariant forall k | k in clean :: clean[k] == original[k]
      decreases keys
    {
      SomeKey(keys);
      var k: string :| k in keys;
      if clean[k] == Undefined || clean[k] == Null {
        clean := clean - {k};
      }
      keys := keys - {k};
    }
    assert clean.Keys == Cleaned(filters).Keys;
  }

  /** The query string the server receives for cleaned parameters: the
      same keys, each with its text. */
  function QueryOf(params: JsObject): (q: map<string, string>)
    requires forall k | k in params :: params[k].Str?
    ensures q.Keys == params.Keys
    ensures forall k | k in q :: params[k] == Str(q[k])
  {
    map k | k in params :: params[k].s
  }
}
