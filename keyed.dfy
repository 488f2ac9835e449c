/** List operations on collections of entities identified by a string key, as the
    services apply them to their caches: `firstIndex(where:)` + subscript assignment,
    `filter` by id, and the id-set tests. The key of an element is given by `key`
    (the entities' `id` property). */
module Keyed {
  import opened Wrappers

  /** The set of keys occurring in `s` (`Set(s.map(\.id))`). */
  function Keys<T>(s: seq<T>, key: T -> string): (k: set<string>)
    ensures forall i :: 0 <= i < |s| ==> key(s[i]) in k
    ensures forall id :: id in k ==> exists i :: 0 <= i < |s| && key(s[i]) == id
  {
    set i | 0 <= i < |s| :: key(s[i])
  }

  lemma KeysAppend<T>(a: seq<T>, b: seq<T>, key: T -> string)
    ensures Keys(a + b, key) == Keys(a, key) + Keys(b, key)
  {
    var ab := a + b;
    forall id | id in Keys(a, key) + Keys(b, key)
      ensures id in Keys(ab, key)
    {
      if id in Keys(a, key) {
        var i :| 0 <= i < |a| && key(a[i]) == id;
        assert ab[i] == a[i];
      } else {
        var i :| 0 <= i < |b| && key(b[i]) == id;
        assert ab[|a| + i] == b[i];
      }
    }
  }

  /** `s.filter { !ids.contains($0.id) }`: the elements whose key is not in `ids`, in order. */
  function WithoutKeys<T>(s: seq<T>, key: T -> string, ids: set<string>): (r: seq<T>)
    ensures |r| <= |s|
    ensures forall i :: 0 <= i < |r| ==> r[i] in s && key(r[i]) !in ids
    ensures forall i :: 0 <= i < |s| && key(s[i]) !in ids ==> s[i] in r
  {
    if s == [] then []
    else (if key(s[0]) in ids then [] else [s[0]]) + WithoutKeys(s[1..], key, ids)
  }

  /** Filtering against keys none of the elements carry changes nothing; in particular
      elements sharing a key with each other are all kept. */
  lemma {:induction false} WithoutKeysNoop<T>(s: seq<T>, key: T -> string, ids: set<string>)
    requires forall i :: 0 <= i < |s| ==> key(s[i]) !in ids
    ensures WithoutKeys(s, key, ids) == s
  {
    if s != [] {
      WithoutKeysNoop(s[1..], key, ids);
    }
  }

  /** The keys that survive the filter are exactly those outside `ids`. */
  lemma KeysWithoutKeys<T>(s: seq<T>, key: T -> string, ids: set<string>)
    ensures Keys(WithoutKeys(s, key, ids), key) == Keys(s, key) - ids
  {
    var r := WithoutKeys(s, key, ids);
    forall id | id in Keys(s, key) - ids
      ensures id in Keys(r, key)
    {
      var i :| 0 <= i < |s| && key(s[i]) == id;
      assert s[i] in r;
      var j :| 0 <= j < |r| && r[j] == s[i];
    }
    forall id | id in Keys(r, key)
      ensures id in Keys(s, key) - ids
    {
      var j :| 0 <= j < |r| && key(r[j]) == id;
      assert r[j] in s;
      var i :| 0 <= i < |s| && s[i] == r[j];
    }
  }

  /** The filter keeps order and multiplicity: it works element by element, keeping an
      element exactly when its key is outside `ids`, and the survivors of two parts
      follow each other. */
  lemma {:induction false} WithoutKeysAppend<T>(a: seq<T>, b: seq<T>, key: T -> string, ids: set<string>)
    ensures |a| == 1 ==> WithoutKeys(a, key, ids) == if key(a[0]) in ids then [] else a
    ensures WithoutKeys(a + b, key, ids) == WithoutKeys(a, key, ids) + WithoutKeys(b, key, ids)
  {
    if a != [] {
      AppendTail(a, b);
      WithoutKeysAppend(a[1..], b, key, ids);
      AppendAssoc(if key(a[0]) in ids then [] else [a[0]], WithoutKeys(a[1..], key, ids), WithoutKeys(b, key, ids));
    } else {
      assert a + b == b;
    }
  }

  /** The head and tail of a concatenation with a non-empty left part. */
  lemma AppendTail<T>(a: seq<T>, b: seq<T>)
    requires a != []
    ensures (a + b)[0] == a[0] && (a + b)[1..] == a[1..] + b
  {
  }

  /** Concatenation is associative; kept apart so that the filter proofs above need
      no reasoning about sequence indices. */
  lemma AppendAssoc<T>(x: seq<T>, y: seq<T>, z: seq<T>)
    ensures x + (y + z) == (x + y) + z
  {
  }

  /** The longest prefix of `s` in which no key belongs to `ids`. */
  function TakeUntilKnown<T>(s: seq<T>, key: T -> string, ids: set<string>): (r: seq<T>)
    ensures |r| <= |s| && r == s[..|r|]
    ensures forall i :: 0 <= i < |r| ==> key(s[i]) !in ids
    ensures |r| < |s| ==> key(s[|r|]) in ids
  {
    if s == [] || key(s[0]) in ids then [] else [s[0]] + TakeUntilKnown(s[1..], key, ids)
  }

  /** Scanning a concatenation: the scan stops inside the first part if it meets a known
      key there, and otherwise runs on into the second. */
  lemma {:induction false} TakeUntilKnownAppend<T>(a: seq<T>, b: seq<T>, key: T -> string, ids: set<string>)
    ensures TakeUntilKnown(a + b, key, ids) ==
      if |TakeUntilKnown(a, key, ids)| < |a| then TakeUntilKnown(a, key, ids)
      else a + TakeUntilKnown(b, key, ids)
  {
    if a != [] {
      assert (a + b)[0] == a[0];
      assert (a + b)[1..] == a[1..] + b;
      TakeUntilKnownAppend(a[1..], b, key, ids);
    } else {
      assert a + b == b;
    }
  }

  /** `firstIndex(where: { $0.id == id })`. */
  function FirstIndexOf<T>(s: seq<T>, key: T -> string, id: string): (r: Option<nat>)
    ensures r.Some? ==>
      && r.value < |s| && key(s[r.value]) == id
      && forall j :: 0 <= j < r.value ==> key(s[j]) != id
    ensures r.None? <==> id !in Keys(s, key)
  {
    if s == [] then None
    else if key(s[0]) == id then Some(0)
    else match FirstIndexOf(s[1..], key, id)
      case None => None
      case Some(i) => Some(i + 1)
  }

  /** Replaces the first element whose key is `id` by `x`; without such an element the
      sequence is returned as it is. */
  function ReplaceFirst<T>(s: seq<T>, key: T -> string, id: string, x: T): (r: seq<T>)
    ensures |r| == |s|
  {
    match FirstIndexOf(s, key, id)
    case None => s
    case Some(i) => s[i := x]
  }

  /** Replacement touches one position only: the first one with the key, and none if the
      key is absent. */
  lemma ReplaceFirstChanges<T>(s: seq<T>, key: T -> string, id: string, x: T)
    ensures id !in Keys(s, key) ==> ReplaceFirst(s, key, id, x) == s
    ensures id in Keys(s, key) ==>
      exists i :: 0 <= i < |s| && key(s[i]) == id && (forall j :: 0 <= j < i ==> key(s[j]) != id)
        && ReplaceFirst(s, key, id, x) == s[i := x]
  {
    var f := FirstIndexOf(s, key, id);
    if f.Some? {
      assert key(s[f.value]) == id;
    }
  }

  /** Replacing by an element that carries the same key leaves the key set alone and
      can be repeated without further effect. */
  lemma ReplaceFirstSameKey<T>(s: seq<T>, key: T -> string, id: string, x: T)
    requires key(x) == id
    ensures Keys(ReplaceFirst(s, key, id, x), key) == Keys(s, key)
    ensures ReplaceFirst(ReplaceFirst(s, key, id, x), key, id, x) == ReplaceFirst(s, key, id, x)
  {
    var f := FirstIndexOf(s, key, id);
    if f.Some? {
      var i := f.value;
      var r := s[i := x];
      assert forall j :: 0 <= j < |s| ==> key(r[j]) == key(s[j]);
      assert Keys(r, key) == Keys(s, key);
      FirstIndexSameKeys(s, r, key, id);
    }
  }

  lemma {:induction false} FirstIndexSameKeys<T>(s: seq<T>, r: seq<T>, key: T -> string, id: string)
    requires |s| == |r| && forall j :: 0 <= j < |s| ==> key(r[j]) == key(s[j])
    ensures FirstIndexOf(r, key, id) == FirstIndexOf(s, key, id)
  {
    if s != [] {
      FirstIndexSameKeys(s[1..], r[1..], key, id);
    }
  }

  /** `s.filter { $0.id != id }`. */
  function RemoveKey<T>(s: seq<T>, key: T -> string, id: string): (r: seq<T>)
    ensures |r| <= |s|
    ensures forall i :: 0 <= i < |r| ==> r[i] in s && key(r[i]) != id
    ensures forall i :: 0 <= i < |s| && key(s[i]) != id ==> s[i] in r
  {
    WithoutKeys(s, key, {id})
  }

  /** Removal deletes every element with the key and nothing else: the key set loses
      exactly `id`, and removing an absent key is the identity. */
  lemma RemoveKeyEffect<T>(s: seq<T>, key: T -> string, id: string)
    ensures Keys(RemoveKey(s, key, id), key) == Keys(s, key) - {id}
    ensures id !in Keys(s, key) ==> RemoveKey(s, key, id) == s
    ensures RemoveKey(RemoveKey(s, key, id), key, id) == RemoveKey(s, key, id)
  {
    KeysWithoutKeys(s, key, {id});
    if id !in Keys(s, key) {
      WithoutKeysNoop(s, key, {id});
    }
    var r := RemoveKey(s, key, id);
    WithoutKeysNoop(r, key, {id});
  }

  /** Removal keeps the order and multiplicity of the survivors: it works element by
      element, and the survivors of two parts follow each other. */
  lemma RemoveKeyAppend<T>(a: seq<T>, b: seq<T>, key: T -> string, id: string)
    ensures |a| == 1 ==> RemoveKey(a, key, id) == if key(a[0]) == id then [] else a
    ensures RemoveKey(a + b, key, id) == RemoveKey(a, key, id) + RemoveKey(b, key, id)
  {
    WithoutKeysAppend(a, b, key, {id});
  }

  /** `s.filter { ids.contains($0.id) }`: the elements whose key is in `ids`, in order. */
  function WithKeys<T>(s: seq<T>, key: T -> string, ids: set<string>): (r: seq<T>)
    ensures |r| <= |s|
    ensures forall i :: 0 <= i < |r| ==> r[i] in s && key(r[i]) in ids
    ensures forall i :: 0 <= i < |s| && key(s[i]) in ids ==> s[i] in r
  {
    if s == [] then []
    else (if key(s[0]) in ids then [s[0]] else []) + WithKeys(s[1..], key, ids)
  }

  /** The filter keeps order and multiplicity: it works element by element, keeping an
      element exactly when its key is in `ids`, and the survivors of two parts follow
      each other. */
  lemma {:induction false} WithKeysAppend<T>(a: seq<T>, b: seq<T>, key: T -> string, ids: set<string>)
    ensures |a| == 1 ==> WithKeys(a, key, ids) == if key(a[0]) in ids then a else []
    ensures WithKeys(a + b, key, ids) == WithKeys(a, key, ids) + WithKeys(b, key, ids)
  {
    if a != [] {
      AppendTail(a, b);
      WithKeysAppend(a[1..], b, key, ids);
      AppendAssoc(if key(a[0]) in ids then [a[0]] else [], WithKeys(a[1..], key, ids), WithKeys(b, key, ids));
    } else {
      assert a + b == b;
    }
  }

  /** No two elements of `s` share a key. */
  predicate DistinctKeys<T>(s: seq<T>, key: T -> string)
  {
    forall i, j :: 0 <= i < j < |s| ==> key(s[i]) != key(s[j])
  }

  /** Filtering against no keys keeps nothing. */
  lemma {:induction false} WithKeysNone<T>(s: seq<T>, key: T -> string)
    ensures WithKeys(s, key, {}) == []
  {
    if s != [] {
      WithKeysNone(s[1..], key);
    }
  }

  /** Elements with distinct keys are as many as their keys. */
  lemma {:induction false} DistinctKeysCount<T>(s: seq<T>, key: T -> string)
    requires DistinctKeys(s, key)
    ensures |Keys(s, key)| == |s|
  {
    if s != [] {
      DistinctKeysCount(s[1..], key);
      assert s == [s[0]] + s[1..];
      KeysAppend([s[0]], s[1..], key);
      assert Keys([s[0]], key) == {key(s[0])};
      assert key(s[0]) !in Keys(s[1..], key);
    }
  }

  /** Filtering keeps exactly the keys that are in `ids`. */
  lemma WithKeysKeys<T>(s: seq<T>, key: T -> string, ids: set<string>)
    ensures Keys(WithKeys(s, key, ids), key) == Keys(s, key) * ids
  {
    var r := WithKeys(s, key, ids);
    forall id | id in Keys(s, key) * ids
      ensures id in Keys(r, key)
    {
      var i :| 0 <= i < |s| && key(s[i]) == id;
      assert s[i] in r;
      var j :| 0 <= j < |r| && r[j] == s[i];
    }
    forall id | id in Keys(r, key)
      ensures id in Keys(s, key) * ids
    {
      var j :| 0 <= j < |r| && key(r[j]) == id;
      assert r[j] in s;
      var i :| 0 <= i < |s| && s[i] == r[j];
    }
  }

  /** Filtering keeps keys distinct. */
  lemma {:induction false} WithKeysDistinct<T>(s: seq<T>, key: T -> string, ids: set<string>)
    requires DistinctKeys(s, key)
    ensures DistinctKeys(WithKeys(s, key, ids), key)
  {
    if s != [] {
      var tail := WithKeys(s[1..], key, ids);
      WithKeysDistinct(s[1..], key, ids);
      forall j | 0 <= j < |tail|
        ensures key(tail[j]) != key(s[0])
      {
        var i :| 0 <= i < |s[1..]| && s[1..][i] == tail[j];
        assert s[1..][i] == s[i + 1];
      }
      assert WithKeys(s, key, ids) == (if key(s[0]) in ids then [s[0]] else []) + tail;
    }
  }

  lemma KeysSingleton<T>(x: T, key: T -> string)
    ensures Keys([x], key) == {key(x)}
  {
    assert [x][0] == x;
  }

  /** `firstIndex(where:)` followed by a subscript assignment, or `append` when no
      element has `x`'s key. */
  function Upsert<T>(s: seq<T>, key: T -> string, x: T): (r: seq<T>)
    ensures key(x) in Keys(s, key) ==> |r| == |s| && r == ReplaceFirst(s, key, key(x), x)
    ensures key(x) !in Keys(s, key) ==> r == s + [x]
  {
    match FirstIndexOf(s, key, key(x))
    case None => s + [x]
    case Some(i) => s[i := x]
  }

  /** An upsert leaves `x` in the list under its key, adds at most that key, and
      keeps every element with another key in its place. */
  lemma UpsertEffect<T>(s: seq<T>, key: T -> string, x: T)
    ensures var r := Upsert(s, key, x);
      && x in r
      && Keys(r, key) == Keys(s, key) + {key(x)}
      && |s| <= |r|
      && (forall i :: 0 <= i < |s| && key(s[i]) != key(x) ==> r[i] == s[i])
  {
    var r := Upsert(s, key, x);
    match FirstIndexOf(s, key, key(x))
    case None =>
      KeysAppend(s, [x], key);
      KeysSingleton(x, key);
      assert r[|s|] == x;
    case Some(i) =>
      assert r == ReplaceFirst(s, key, key(x), x);
      ReplaceFirstSameKey(s, key, key(x), x);
      assert r[i] == x;
  }

  /** Over distinct keys, the upserted element is the only one left with its key. */
  lemma UpsertOnlyEntry<T>(s: seq<T>, key: T -> string, x: T)
    requires DistinctKeys(s, key)
    ensures var r := Upsert(s, key, x);
      x in r && forall i :: 0 <= i < |r| && key(r[i]) == key(x) ==> r[i] == x
  {
    var r := Upsert(s, key, x);
    UpsertDistinct(s, key, x);
    var k: nat;
    match FirstIndexOf(s, key, key(x))
    case None =>
      k := |s|;
    case Some(f) =>
      k := f;
    assert r[k] == x;
    forall i | 0 <= i < |r| && key(r[i]) == key(x)
      ensures r[i] == x
    {
      assert key(r[i]) == key(r[k]);
    }
  }

  /** An upsert keeps keys distinct. */
  lemma UpsertDistinct<T>(s: seq<T>, key: T -> string, x: T)
    requires DistinctKeys(s, key)
    ensures DistinctKeys(Upsert(s, key, x), key)
  {
    var r := Upsert(s, key, x);
    match FirstIndexOf(s, key, key(x))
    case None =>
      assert forall j :: 0 <= j < |s| ==> key(r[j]) == key(s[j]) != key(x);
    case Some(i) =>
      assert forall j :: 0 <= j < |s| ==> key(r[j]) == key(s[j]);
  }
}
