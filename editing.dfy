/** The editing rules the add form and the edit dialog share: the tag list
    and the "add new" category choice. */
module Editing {
  import opened Common

  /** `handleAddTag`: the new tag list and the new tag input. The input is
      appended and the input cleared only when it is non-empty and not
      already a tag; otherwise nothing changes. */
  function AddTag(tags: seq<string>, input: string): (r: (seq<string>, string))
    ensures input != "" && input !in tags ==> r.0 == tags + [input] && r.1 == ""
    ensures input == "" || input in tags ==> r.0 == tags && r.1 == input
    ensures input != "" ==> input in r.0
    ensures Distinct(tags) ==> Distinct(r.0)
  {
    if input != "" && input !in tags then
      DistinctAppend(tags, input);
      (tags + [input], "")
    else (tags, input)
  }

  /** `handleRemoveTag`: `tags.filter(tag => tag !== x)`. */
  function RemoveTag(tags: seq<string>, x: string): (r: seq<string>)
    ensures x !in r
    ensures forall y :: y != x ==> (y in r <==> y in tags)
    ensures |r| <= |tags|
    ensures Distinct(tags) ==> Distinct(r)
  {
    if tags == [] then []
    else
      var rest := RemoveTag(tags[1..], x);
      assert tags == [tags[0]] + tags[1..];
      DistinctPrepend(tags[0], tags[1..]);
      DistinctPrepend(tags[0], rest);
      (if tags[0] == x then [] else [tags[0]]) + rest
  }

  /** Filtering distributes over concatenation, so the kept tags stay in
      their original order. */
  lemma {:induction false} RemoveTagAppend(a: seq<string>, b: seq<string>, x: string)
    ensures RemoveTag(a + b, x) == RemoveTag(a, x) + RemoveTag(b, x)
  {
    if a == [] {
      assert a + b == b;
    } else {
      assert (a + b)[0] == a[0];
      assert (a + b)[1..] == a[1..] + b;
      RemoveTagAppend(a[1..], b, x);
    }
  }

  /** Removing a tag that is not there leaves the list as it is. */
  lemma {:induction false} RemoveAbsentTag(tags: seq<string>, x: string)
    requires x !in tags
    ensures RemoveTag(tags, x) == tags
  {
    if tags != [] {
      RemoveAbsentTag(tags[1..], x);
    }
  }

  /** In a duplicate-free list, removing the tag at position i is cutting
      exactly that position out. */
  lemma {:induction false} RemoveTagAt(tags: seq<string>, i: nat)
    requires Distinct(tags) && i < |tags|
    ensures RemoveTag(tags, tags[i]) == tags[..i] + tags[i + 1..]
  {
    var x := tags[i];
    assert tags == [tags[0]] + tags[1..];
    DistinctPrepend(tags[0], tags[1..]);
    if i == 0 {
      RemoveAbsentTag(tags[1..], x);
    } else {
      RemoveTagAt(tags[1..], i - 1);
      assert tags[1..][i - 1] == x;
      assert tags[..i] == [tags[0]] + tags[1..][..i - 1];
      assert tags[i + 1..] == tags[1..][i..];
    }
  }

  /** Adding a new tag and then removing it gives back the original list. */
  lemma AddThenRemove(tags: seq<string>, input: string)
    requires input != "" && input !in tags
    ensures RemoveTag(AddTag(tags, input).0, input) == tags
  {
    RemoveTagAppend(tags, [input], input);
    RemoveAbsentTag(tags, input);
  }

  /** The select value that stands for "add a new category". */
  const AddNew := "add-new"

  /** `handleCategoryChange`: the "add new" entry takes the typed new
      category, any other entry is taken as it is; so the entry's own value
      becomes the category only if the user typed exactly that text. */
  function ChooseCategory(selected: string, newCategory: string): (r: string)
    ensures selected == AddNew ==> r == newCategory
    ensures selected != AddNew ==> r == selected
    ensures r == AddNew ==> newCategory == AddNew
  {
    if selected == AddNew then newCategory else selected
  }
}
