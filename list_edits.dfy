/**
 * The list transforms the section editors are built from: `map` over the
 * entries whose id matches, `filter` away the entries whose id matches,
 * `find` the first entry with an id, and `filter` away one index of a nested
 * list. Every entry of a section carries a string id; `key` reads it.
 */
module ListEdits {
  import opened Wrappers
  import opened JsText

  /** `s.map(x => key(x) === id ? f(x) : x)`. */
  function MapWhere<T>(s: seq<T>, key: T -> string, id: string, f: T -> T): (r: seq<T>)
    ensures |r| == |s|
    ensures forall i :: 0 <= i < |s| ==> r[i] == if key(s[i]) == id then f(s[i]) else s[i]
  {
    if s == [] then []
    else [if key(s[0]) == id then f(s[0]) else s[0]] + MapWhere(s[1..], key, id, f)
  }

  /** How many entries have the id. */
  function Matching<T>(s: seq<T>, key: T -> string, id: string): (n: nat)
    ensures n <= |s|
  {
    if s == [] then 0 else (if key(s[0]) == id then 1 else 0) + Matching(s[1..], key, id)
  }

  /** Counting a concatenation adds the counts of its parts. */
  lemma {:induction false} MatchingAppend<T>(a: seq<T>, b: seq<T>, key: T -> string, id: string)
    ensures Matching(a + b, key, id) == Matching(a, key, id) + Matching(b, key, id)
  {
    if a != [] {
      assert (a + b)[0] == a[0] && (a + b)[1..] == a[1..] + b;
      MatchingAppend(a[1..], b, key, id);
    } else {
      assert a + b == b;
    }
  }

  /** One entry counts one exactly when it has the id. */
  lemma MatchingOne<T>(x: T, key: T -> string, id: string)
    ensures Matching([x], key, id) == if key(x) == id then 1 else 0
  {
    assert [x][1..] == [];
  }

  /** `a` is `b` with some entries left out, the rest in their order. */
  ghost predicate IsSubsequence<T>(a: seq<T>, b: seq<T>)
    decreases |b|
  {
    if a == [] then true
    else if b == [] then false
    else (a[0] == b[0] && IsSubsequence(a[1..], b[1..])) || IsSubsequence(a, b[1..])
  }

  /** `s.filter(x => key(x) !== id)`: no entry with the id is left, the others
      keep their relative order, and exactly the matching entries are gone. */
  function RemoveWhere<T>(s: seq<T>, key: T -> string, id: string): (r: seq<T>)
    ensures forall i :: 0 <= i < |r| ==> key(r[i]) != id
    ensures IsSubsequence(r, s)
    ensures |r| == |s| - Matching(s, key, id)
  {
    if s == [] then []
    else if key(s[0]) == id then RemoveWhere(s[1..], key, id)
    else
      var rest := RemoveWhere(s[1..], key, id);
      assert ([s[0]] + rest)[1..] == rest;
      [s[0]] + rest
  }

  /** `s.find(x => key(x) === id)`, as the index of the first entry with the id. */
  function FindFirst<T>(s: seq<T>, key: T -> string, id: string): (r: Option<nat>)
    ensures r.Some? ==> r.value < |s| && key(s[r.value]) == id
    ensures r.Some? ==> forall j :: 0 <= j < r.value ==> key(s[j]) != id
    ensures r.None? <==> forall j :: 0 <= j < |s| ==> key(s[j]) != id
  {
    if s == [] then None
    else if key(s[0]) == id then Some(0)
    else
      match FindFirst(s[1..], key, id)
      case None => None
      case Some(k) => Some(k + 1)
  }

  /** `s.filter((_, i) => i !== index)`: the entry at `index` is dropped; an
      index outside the list drops nothing. */
  function RemoveAt<T>(s: seq<T>, index: int): (r: seq<T>)
    ensures 0 <= index < |s| ==> r == s[..index] + s[index + 1..]
    ensures !(0 <= index < |s|) ==> r == s
  {
    if s == [] then []
    else
      var rest := RemoveAt(s[1..], index - 1);
      if index == 0 then
        assert s[..0] + s[1..] == s[1..];
        rest
      else
        assert 0 < index < |s| ==> [s[0]] + s[1..][..index - 1] == s[..index];
        [s[0]] + rest
  }

  /** Removing an id no entry has changes nothing. */
  lemma {:induction false} RemoveAbsent<T>(s: seq<T>, key: T -> string, id: string)
    requires forall i :: 0 <= i < |s| ==> key(s[i]) != id
    ensures RemoveWhere(s, key, id) == s
  {
    if s != [] {
      RemoveAbsent(s[1..], key, id);
      assert [s[0]] + s[1..] == s;
    }
  }

  /** Removing twice is removing once. */
  lemma RemoveIdempotent<T>(s: seq<T>, key: T -> string, id: string)
    ensures RemoveWhere(RemoveWhere(s, key, id), key, id) == RemoveWhere(s, key, id)
  {
    RemoveAbsent(RemoveWhere(s, key, id), key, id);
  }

  /** Appending an entry and then removing its id is the same as removing that id. */
  lemma {:induction false} RemoveAppended<T>(s: seq<T>, x: T, key: T -> string)
    ensures RemoveWhere(s + [x], key, key(x)) == RemoveWhere(s, key, key(x))
  {
    if s == [] {
      assert [] + [x] == [x];
      assert [x][1..] == [];
    } else {
      assert (s + [x])[0] == s[0] && (s + [x])[1..] == s[1..] + [x];
      RemoveAppended(s[1..], x, key);
    }
  }

  /** Editing entries and then removing them by id is the same as removing
      them, when the edit keeps the id. */
  lemma {:induction false} RemoveAfterEdit<T>(s: seq<T>, key: T -> string, id: string, f: T -> T)
    requires forall x :: key(f(x)) == key(x)
    ensures RemoveWhere(MapWhere(s, key, id, f), key, id) == RemoveWhere(s, key, id)
  {
    if s != [] {
      var m := MapWhere(s, key, id, f);
      assert m[1..] == MapWhere(s[1..], key, id, f);
      RemoveAfterEdit(s[1..], key, id, f);
    }
  }

  /** Editing by an id no entry has changes nothing. */
  lemma MapAbsent<T>(s: seq<T>, key: T -> string, id: string, f: T -> T)
    requires forall i :: 0 <= i < |s| ==> key(s[i]) != id
    ensures MapWhere(s, key, id, f) == s
  {
  }

  /** The item an "add" button takes from the per-entry text inputs:
      `inputs[id]?.trim()`, or nothing when the input was never typed in or
      holds only whitespace (the handler then returns without saving). */
  function PendingItem(inputs: map<string, string>, id: string): (r: Option<string>)
    ensures r.None? <==> id !in inputs || AllWhitespace(inputs[id])
    ensures r.Some? ==> r.value != [] && IsTrimmed(r.value) && r.value == Trim(inputs[id])
  {
    if id in inputs && Trim(inputs[id]) != "" then Some(Trim(inputs[id])) else None
  }
}
