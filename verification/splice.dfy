/** The JavaScript array primitives the collection reconciler is built from,
    stated on sequences: `splice(offset, 1)`, `splice(offset, 0, x)` and
    `findIndex(x => x.id === key)`. */
module Splice {
  import opened Changes

  /** Where `splice(offset, ...)` starts on an array of length `len`: a negative
      offset counts back from the end, and the result is clamped to `[0, len]`. */
  function Start(offset: int, len: nat): (k: nat)
    ensures k <= len
    ensures 0 <= offset <= len ==> k == offset
  {
    if offset < 0 then (if len + offset < 0 then 0 else len + offset)
    else if offset > len then len
    else offset
  }

  /** `a.splice(offset, 1)`: the array left behind and the removed element, if any
      (nothing is removed when the start position is the end of the array). */
  function RemoveAt(s: seq<Doc>, offset: int): (r: (seq<Doc>, Option<Doc>))
    ensures var k := Start(offset, |s|);
      if k < |s| then |r.0| == |s| - 1 && r.1 == Some(s[k]) else r == (s, None)
  {
    var k := Start(offset, |s|);
    if k < |s| then (s[..k] + s[k + 1..], Some(s[k])) else (s, None)
  }

  /** `a.splice(offset, 0, x)`: `x` inserted at the start position. */
  function InsertAt(s: seq<Doc>, offset: int, x: Doc): (r: seq<Doc>)
    ensures |r| == |s| + 1
    ensures r[Start(offset, |s|)] == x
  {
    var k := Start(offset, |s|);
    s[..k] + [x] + s[k..]
  }

  /** `a.findIndex(x => x.id === key)`, with None for -1. */
  function FirstIndex(s: seq<Doc>, key: Key): (r: Option<nat>)
    ensures r.Some? ==> r.value < |s| && s[r.value].id == key
    ensures r.Some? ==> forall j :: 0 <= j < r.value ==> s[j].id != key
    ensures r.None? <==> forall j :: 0 <= j < |s| ==> s[j].id != key
  {
    if |s| == 0 then None
    else if s[0].id == key then Some(0)
    else match FirstIndex(s[1..], key)
      case None => None
      case Some(i) => Some(i + 1)
  }

  /** Some element of `s` carries `key`. */
  predicate HasKey(s: seq<Doc>, key: Key) {
    exists j :: 0 <= j < |s| && s[j].id == key
  }

  /** No two elements of `s` carry the same key. */
  predicate UniqueKeys(s: seq<Doc>) {
    forall i, j :: 0 <= i < j < |s| ==> s[i].id != s[j].id
  }

  /** Removing in range keeps everything before the position and shifts the
      rest one place to the left. */
  lemma RemoveAtInRange(s: seq<Doc>, k: int)
    requires 0 <= k < |s|
    ensures RemoveAt(s, k).1 == Some(s[k])
    ensures var r := RemoveAt(s, k).0;
      |r| == |s| - 1
      && (forall j :: 0 <= j < k ==> r[j] == s[j])
      && (forall j :: k <= j < |r| ==> r[j] == s[j + 1])
  {
  }

  /** Inserting in range keeps everything before the position and shifts the
      rest one place to the right. */
  lemma InsertAtInRange(s: seq<Doc>, k: int, x: Doc)
    requires 0 <= k <= |s|
    ensures var r := InsertAt(s, k, x);
      |r| == |s| + 1 && r[k] == x
      && (forall j :: 0 <= j < k ==> r[j] == s[j])
      && (forall j :: k < j < |r| ==> r[j] == s[j - 1])
  {
  }

  /** Removing in range takes exactly that element out of the multiset. */
  lemma RemoveAtMultiset(s: seq<Doc>, k: int)
    requires 0 <= k < |s|
    ensures multiset(RemoveAt(s, k).0) == multiset(s) - multiset{s[k]}
  {
    assert s == s[..k] + [s[k]] + s[k + 1..];
  }

  /** Inserting adds exactly the new element to the multiset. */
  lemma InsertAtMultiset(s: seq<Doc>, offset: int, x: Doc)
    ensures multiset(InsertAt(s, offset, x)) == multiset(s) + multiset{x}
  {
    var k := Start(offset, |s|);
    assert s == s[..k] + s[k..];
  }

  /** Taking one element out keeps the keys unique. */
  lemma RemovalKeepsUnique(s: seq<Doc>, k: int)
    requires 0 <= k < |s| && UniqueKeys(s)
    ensures UniqueKeys(s[..k] + s[k + 1..])
  {
    var r := s[..k] + s[k + 1..];
    forall a, b | 0 <= a < b < |r| ensures r[a].id != r[b].id {
      var a' := if a < k then a else a + 1;
      var b' := if b < k then b else b + 1;
      assert r[a] == s[a'] && r[b] == s[b'];
    }
  }

  /** Inserting an element whose key is new keeps the keys unique. */
  lemma InsertionKeepsUnique(s: seq<Doc>, offset: int, x: Doc)
    requires UniqueKeys(s) && !HasKey(s, x.id)
    ensures UniqueKeys(InsertAt(s, offset, x))
  {
    var k := Start(offset, |s|);
    var r := InsertAt(s, offset, x);
    forall a, b | 0 <= a < b < |r| ensures r[a].id != r[b].id {
      if a == k {
        assert r[b] == s[b - 1];
      } else if b == k {
        assert r[a] == s[a];
      } else {
        var a' := if a < k then a else a - 1;
        var b' := if b < k then b else b - 1;
        assert r[a] == s[a'] && r[b] == s[b'];
      }
    }
  }
}
