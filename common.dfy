/** Values shared by the server and the client: the Todo record, the
    priority enumeration, and the text matching used by the list filter. */
module Common {

  datatype Option<T> = None | Some(value: T) {
    /** `x ?? default`, and the destructuring default `{ x = d } = obj`. */
    function GetOr(default: T): T {
      if Some? then value else default
    }
  }

  /** The priority enumeration of the schema and of every validator. */
  datatype Priority = LOW | MEDIUM | HIGH | URGENT

  /** The text the client sends and the server stores for a priority. */
  function PriorityName(p: Priority): string {
    match p
    case LOW => "LOW"
    case MEDIUM => "MEDIUM"
    case HIGH => "HIGH"
    case URGENT => "URGENT"
  }

  /** The validator `isIn(['LOW', 'MEDIUM', 'HIGH', 'URGENT'])`: the text
      is accepted exactly when it is the name of some priority. */
  function ParsePriority(s: string): (r: Option<Priority>)
    ensures r.Some? ==> PriorityName(r.value) == s
    ensures r.None? ==> forall p: Priority :: PriorityName(p) != s
  {
    if s == "LOW" then Some(LOW)
    else if s == "MEDIUM" then Some(MEDIUM)
    else if s == "HIGH" then Some(HIGH)
    else if s == "URGENT" then Some(URGENT)
    else None
  }

  /** One task. `dateTime` is the task's instant as a number (milliseconds
      since the epoch); the stored timestamps createdAt/updatedAt are not
      part of the model. */
  datatype Todo = Todo(
    id: int,
    name: string,
    shortDescription: string,
    dateTime: int,
    isDone: bool,
    priority: Priority,
    category: string,
    tags: seq<string>)

  /** No element occurs twice. */
  predicate Distinct<T(==)>(s: seq<T>) {
    forall i, j | 0 <= i < j < |s| :: s[i] != s[j]
  }

  /** A sequence with one more element in front has no duplicates exactly
      when the element is new and the rest has none. */
  lemma DistinctPrepend<T>(a: T, s: seq<T>)
    ensures Distinct([a] + s) <==> a !in s && Distinct(s)
  {
    var t := [a] + s;
    if Distinct(t) {
      forall i, j | 0 <= i < j < |s| ensures s[i] != s[j] {
        assert t[i + 1] == s[i] && t[j + 1] == s[j];
      }
      forall k | 0 <= k < |s| ensures s[k] != a {
        assert t[0] == a && t[k + 1] == s[k];
      }
    }
  }

  /** The same for one more element at the end. */
  lemma DistinctAppend<T>(s: seq<T>, a: T)
    ensures Distinct(s + [a]) <==> a !in s && Distinct(s)
  {
    var t := s + [a];
    if Distinct(t) {
      forall i, j | 0 <= i < j < |s| ensures s[i] != s[j] {
        assert t[i] == s[i] && t[j] == s[j];
      }
      forall k | 0 <= k < |s| ensures s[k] != a {
        assert t[k] == s[k] && t[|s|] == a;
      }
    }
  }

  /** `part` occurs in `text` starting at position `i`. */
  predicate OccursAt(text: string, part: string, i: int) {
    0 <= i <= |text| - |part| && text[i..i + |part|] == part
  }

  /** `part` occurs in `text` as a contiguous piece. */
  predicate Contains(text: string, part: string) {
    exists i | 0 <= i <= |text| - |part| :: OccursAt(text, part, i)
  }

  /** The case folding the database applies for `mode: 'insensitive'`; it is
      left abstract, so every property holds whatever folding is used. */
  type Fold = string -> string

  /** `{ contains: part, mode: 'insensitive' }` */
  predicate ContainsIgnoringCase(text: string, part: string, fold: Fold) {
    Contains(fold(text), fold(part))
  }
}
