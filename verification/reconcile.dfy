/** The reconciliation rule shared by every client copy: how one changefeed
    notification changes a collection mirror (an ordered array of documents) or a
    value mirror. `Apply` is the rule as a function; `Step` runs it the way the
    client does, with a linear `findIndex` scan; the lemmas state what each kind
    of notification does to the mirror. */
module Reconcile {
  import opened Changes
  import opened Splice

  /** Which entry callback a successful application reports, and with what:
      the removed element and its position, or the added/updated element and its
      position, or the new state label. */
  datatype Touch =
    | Deleted(removed: Option<Doc>, index: int)
    | Added(doc: Doc, index: int)
    | Updated(doc: Doc, index: int)
    | StateLabel(newState: string)

  /** The mirror after one notification, and whether applying it threw. When it
      threw, `items` is what the array holds at the moment of the throw. */
  datatype Outcome =
    | Done(items: seq<Doc>, touch: Touch)
    | Thrown(fault: Fault, items: seq<Doc>)

  predicate IsRemove(kind: string) { kind == "remove" || kind == "uninitial" }
  predicate IsAdd(kind: string) { kind == "add" || kind == "initial" }

  /** The tags the reconciler's `switch` handles. */
  predicate Recognized(kind: string) {
    IsRemove(kind) || IsAdd(kind) || kind == "change" || kind == "state"
  }

  /** `findIndex` on the key of `old_val` followed by what the caller does with
      the index: with `old_val` absent, reading `old_val.id` throws as soon as the
      scan looks at an element, so only an empty array gets to the "-1" branch. */
  function KeyLookup(s: seq<Doc>, oldVal: Option<Doc>): (r: Search)
    ensures r.Found? ==> oldVal.Some? && r.index < |s| && s[r.index].id == oldVal.value.id
    ensures r.Found? ==> forall j :: 0 <= j < r.index ==> s[j].id != oldVal.value.id
    ensures r.Missing? ==> r.fault == InconsistentDiff || (r.fault == MissingOldValue && oldVal.None?)
    ensures oldVal.Some? ==> (r.Found? <==> HasKey(s, oldVal.value.id))
  {
    if oldVal.None? then
      (if |s| == 0 then Missing(InconsistentDiff) else Missing(MissingOldValue))
    else match FirstIndex(s, oldVal.value.id)
      case None => Missing(InconsistentDiff)
      case Some(i) => Found(i)
  }

  /** What the key lookup yields: a position, or the fault it throws. */
  datatype Search = Found(index: nat) | Missing(fault: Fault)

  /** One notification applied to a collection mirror. */
  function Apply(s: seq<Doc>, e: ChangeEvent): Outcome
  {
    if IsRemove(e.kind) then
      if e.oldOffset.Some? then
        var (r, removed) := RemoveAt(s, e.oldOffset.value);
        Done(r, Deleted(removed, e.oldOffset.value))
      else
        match KeyLookup(s, e.oldVal)
        case Missing(f) => Thrown(f, s)
        case Found(i) => Done(s[..i] + s[i + 1..], Deleted(Some(s[i]), i))
    else if IsAdd(e.kind) then
      if e.newVal.None? then Thrown(MissingNewValue, s)
      else if e.newOffset.Some? then
        Done(InsertAt(s, e.newOffset.value, e.newVal.value), Added(e.newVal.value, e.newOffset.value))
      else
        Done(s + [e.newVal.value], Added(e.newVal.value, |s|))
    else if e.kind == "change" then
      var t := if e.oldOffset.Some? then RemoveAt(s, e.oldOffset.value).0 else s;
      if e.newOffset.Some? then
        if e.newVal.None? then Thrown(MissingNewValue, t)
        else Done(InsertAt(t, e.newOffset.value, e.newVal.value), Updated(e.newVal.value, e.newOffset.value))
      else
        match KeyLookup(t, e.oldVal)
        case Missing(f) => Thrown(f, t)
        case Found(i) =>
          if e.newVal.None? then Thrown(MissingNewValue, t)
          else Done(t[i := e.newVal.value], Updated(e.newVal.value, i))
    else if e.kind == "state" then
      Done(s, StateLabel(e.state))
    else
      Thrown(UnrecognizedType, s)
  }

  /** `findIndex(x => x.id === key)`: the first position holding `key`, or -1. */
  method FindIndex(s: seq<Doc>, key: Key) returns (index: int)
    ensures -1 <= index < |s|
    ensures index >= 0 ==> s[index].id == key && forall j :: 0 <= j < index ==> s[j].id != key
    ensures index == -1 <==> !HasKey(s, key)
    ensures index == (match FirstIndex(s, key) case None => -1 case Some(i) => i)
  {
    index := 0;
    while index < |s|
      invariant 0 <= index <= |s|
      invariant forall j :: 0 <= j < index ==> s[j].id != key
    {
      if s[index].id == key {
        return;
      }
      index := index + 1;
    }
    index := -1;
  }

  /** The lookup-and-throw part of the key-based branches, as the source runs it. */
  method Lookup(s: seq<Doc>, oldVal: Option<Doc>) returns (r: Search)
    ensures r == KeyLookup(s, oldVal)
  {
    if oldVal.None? {
      r := if |s| == 0 then Missing(InconsistentDiff) else Missing(MissingOldValue);
      return;
    }
    var index := FindIndex(s, oldVal.value.id);
    if index == -1 {
      r := Missing(InconsistentDiff);
    } else {
      r := Found(index);
    }
  }

  /** One notification applied the way the client's `switch` does it: splice at
      an offset when one is given, otherwise scan for the key. */
  method Step(s: seq<Doc>, e: ChangeEvent) returns (o: Outcome)
    ensures o == Apply(s, e)
  {
    var entries := s;
    if IsRemove(e.kind) {
      if e.oldOffset.Some? {
        var (rest, removed) := RemoveAt(entries, e.oldOffset.value);
        o := Done(rest, Deleted(removed, e.oldOffset.value));
      } else {
        var found := Lookup(entries, e.oldVal);
        if found.Missing? {
          o := Thrown(found.fault, entries);
        } else {
          var i := found.index;
          o := Done(entries[..i] + entries[i + 1..], Deleted(Some(entries[i]), i));
        }
      }
    } else if IsAdd(e.kind) {
      if e.newVal.None? {
        o := Thrown(MissingNewValue, entries);
      } else if e.newOffset.Some? {
        o := Done(InsertAt(entries, e.newOffset.value, e.newVal.value), Added(e.newVal.value, e.newOffset.value));
      } else {
        entries := entries + [e.newVal.value];
        o := Done(entries, Added(e.newVal.value, |entries| - 1));
      }
    } else if e.kind == "change" {
      if e.oldOffset.Some? {
        entries := RemoveAt(entries, e.oldOffset.value).0;
      }
      if e.newOffset.Some? {
        if e.newVal.None? {
          o := Thrown(MissingNewValue, entries);
        } else {
          o := Done(InsertAt(entries, e.newOffset.value, e.newVal.value), Updated(e.newVal.value, e.newOffset.value));
        }
      } else {
        var found := Lookup(entries, e.oldVal);
        if found.Missing? {
          o := Thrown(found.fault, entries);
        } else if e.newVal.None? {
          o := Thrown(MissingNewValue, entries);
        } else {
          o := Done(entries[found.index := e.newVal.value], Updated(e.newVal.value, found.index));
        }
      }
    } else if e.kind == "state" {
      o := Done(entries, StateLabel(e.state));
    } else {
      o := Thrown(UnrecognizedType, entries);
    }
  }

  // ---------------------------------------------------------------------------
  // What each kind of notification does to a collection mirror.
  // ---------------------------------------------------------------------------

  /** remove/uninitial with an in-range `old_offset` removes exactly the element
      at that offset and keeps the others in order. */
  lemma RemoveAtOffset(s: seq<Doc>, e: ChangeEvent, k: int)
    requires IsRemove(e.kind) && e.oldOffset == Some(k) && 0 <= k < |s|
    ensures Apply(s, e).Done? && Apply(s, e).touch == Deleted(Some(s[k]), k)
    ensures var r := Apply(s, e).items;
      |r| == |s| - 1
      && (forall j :: 0 <= j < k ==> r[j] == s[j])
      && (forall j :: k <= j < |r| ==> r[j] == s[j + 1])
    ensures multiset(Apply(s, e).items) == multiset(s) - multiset{s[k]}
  {
    RemoveAtInRange(s, k);
    RemoveAtMultiset(s, k);
  }

  /** An offset at or past the end removes nothing (splice clamps it); a negative
      one counts back from the end, and one further back than the length is
      clamped to the first element. */
  lemma RemoveAtClampedOffset(s: seq<Doc>, e: ChangeEvent, k: int)
    requires IsRemove(e.kind) && e.oldOffset == Some(k)
    ensures k >= |s| ==> Apply(s, e) == Done(s, Deleted(None, k))
    ensures -|s| <= k < 0 ==>
      Apply(s, e) == Done(s[..|s| + k] + s[|s| + k + 1..], Deleted(Some(s[|s| + k]), k))
    ensures k < -|s| && |s| > 0 ==> Apply(s, e) == Done(s[1..], Deleted(Some(s[0]), k))
  {
  }

  /** remove/uninitial without an offset removes the first element whose key is
      the key of `old_val`... */
  lemma RemoveByKey(s: seq<Doc>, e: ChangeEvent, d: Doc, i: nat)
    requires IsRemove(e.kind) && e.oldOffset.None? && e.oldVal == Some(d)
    requires i < |s| && s[i].id == d.id && forall j :: 0 <= j < i ==> s[j].id != d.id
    ensures Apply(s, e) == Done(s[..i] + s[i + 1..], Deleted(Some(s[i]), i))
    ensures |Apply(s, e).items| == |s| - 1
    ensures multiset(Apply(s, e).items) == multiset(s) - multiset{s[i]}
  {
    assert s == s[..i] + [s[i]] + s[i + 1..];
  }

  /** ... and throws, with the mirror unchanged, when no element has that key. */
  lemma RemoveMissingKey(s: seq<Doc>, e: ChangeEvent, d: Doc)
    requires IsRemove(e.kind) && e.oldOffset.None? && e.oldVal == Some(d)
    ensures Apply(s, e).Thrown? <==> !HasKey(s, d.id)
    ensures Apply(s, e).Thrown? ==> Apply(s, e) == Thrown(InconsistentDiff, s)
  {
  }

  /** add/initial with an in-range `new_offset` inserts `new_val` there and shifts
      the later elements one place to the right. */
  lemma AddAtOffset(s: seq<Doc>, e: ChangeEvent, v: Doc, k: int)
    requires IsAdd(e.kind) && e.newVal == Some(v) && e.newOffset == Some(k) && 0 <= k <= |s|
    ensures Apply(s, e).Done? && Apply(s, e).touch == Added(v, k)
    ensures var r := Apply(s, e).items;
      |r| == |s| + 1 && r[k] == v
      && (forall j :: 0 <= j < k ==> r[j] == s[j])
      && (forall j :: k < j < |r| ==> r[j] == s[j - 1])
    ensures multiset(Apply(s, e).items) == multiset(s) + multiset{v}
  {
    InsertAtInRange(s, k, v);
    InsertAtMultiset(s, k, v);
  }

  /** add/initial without an offset appends `new_val`; the callback index is the
      new last position. */
  lemma AddAppends(s: seq<Doc>, e: ChangeEvent, v: Doc)
    requires IsAdd(e.kind) && e.newVal == Some(v) && e.newOffset.None?
    ensures Apply(s, e) == Done(s + [v], Added(v, |s|))
    ensures |Apply(s, e).items| == |s| + 1
  {
  }

  /** change with both offsets in range is a move: one element leaves `old_offset`,
      `new_val` lands at `new_offset`, the other elements keep their relative
      order, and the length is unchanged. */
  lemma ChangeMove(s: seq<Doc>, e: ChangeEvent, v: Doc, i: int, j: int)
    requires e.kind == "change" && e.newVal == Some(v)
    requires e.oldOffset == Some(i) && 0 <= i < |s|
    requires e.newOffset == Some(j) && 0 <= j < |s|
    ensures Apply(s, e).Done? && Apply(s, e).touch == Updated(v, j)
    ensures |Apply(s, e).items| == |s| && Apply(s, e).items[j] == v
    ensures var t := s[..i] + s[i + 1..]; var r := Apply(s, e).items;
      (forall p :: 0 <= p < j ==> r[p] == t[p]) && (forall p :: j < p < |r| ==> r[p] == t[p - 1])
    ensures multiset(Apply(s, e).items) == multiset(s) - multiset{s[i]} + multiset{v}
    ensures v == s[i] ==> multiset(Apply(s, e).items) == multiset(s)
  {
    var t := RemoveAt(s, i).0;
    RemoveAtInRange(s, i);
    assert t == s[..i] + s[i + 1..];
    RemoveAtMultiset(s, i);
    InsertAtMultiset(t, j, v);
    InsertAtInRange(t, j, v);
  }

  /** change with `new_offset` but no `old_offset` inserts `new_val` there: the
      array grows by one. */
  lemma ChangeNewOffsetOnly(s: seq<Doc>, e: ChangeEvent, v: Doc, j: int)
    requires e.kind == "change" && e.oldOffset.None? && e.newVal == Some(v)
    requires e.newOffset == Some(j) && 0 <= j <= |s|
    ensures Apply(s, e) == Done(s[..j] + [v] + s[j..], Updated(v, j))
    ensures |Apply(s, e).items| == |s| + 1
    ensures multiset(Apply(s, e).items) == multiset(s) + multiset{v}
  {
    InsertAtMultiset(s, j, v);
  }

  /** change without `new_offset` and without `old_offset` replaces, in place, the
      first element whose key is the key of `old_val`... */
  lemma ChangeReplace(s: seq<Doc>, e: ChangeEvent, d: Doc, v: Doc, i: nat)
    requires e.kind == "change" && e.oldOffset.None? && e.newOffset.None?
    requires e.oldVal == Some(d) && e.newVal == Some(v)
    requires i < |s| && s[i].id == d.id && forall j :: 0 <= j < i ==> s[j].id != d.id
    ensures Apply(s, e) == Done(s[i := v], Updated(v, i))
    ensures |Apply(s, e).items| == |s|
    ensures forall j :: 0 <= j < |s| && j != i ==> Apply(s, e).items[j] == s[j]
  {
  }

  /** ... and throws, with the mirror unchanged, when no element has that key. */
  lemma ChangeMissingKey(s: seq<Doc>, e: ChangeEvent, d: Doc)
    requires e.kind == "change" && e.oldOffset.None? && e.newOffset.None? && e.oldVal == Some(d)
    ensures !HasKey(s, d.id) ==> Apply(s, e) == Thrown(InconsistentDiff, s)
    ensures HasKey(s, d.id) && e.newVal.Some? ==> Apply(s, e).Done?
  {
  }

  /** change with `old_offset` but no `new_offset` removes first and then looks the
      key up in what is left: when the removed element was the only one with that
      key, the lookup throws and the mirror stays one element short. */
  lemma ChangeOldOffsetOnly(s: seq<Doc>, e: ChangeEvent, d: Doc, k: int)
    requires e.kind == "change" && e.oldOffset == Some(k) && e.newOffset.None? && e.oldVal == Some(d)
    requires 0 <= k < |s| && UniqueKeys(s) && s[k].id == d.id
    ensures Apply(s, e) == Thrown(InconsistentDiff, s[..k] + s[k + 1..])
  {
    var t := s[..k] + s[k + 1..];
    forall j | 0 <= j < |t| ensures t[j].id != d.id {
      if j < k { assert t[j] == s[j]; } else { assert t[j] == s[j + 1]; }
    }
  }

  /** A state notification leaves the mirror as it is and reports the new label. */
  lemma StateLeavesMirror(s: seq<Doc>, e: ChangeEvent)
    requires e.kind == "state"
    ensures Apply(s, e) == Done(s, StateLabel(e.state))
  {
  }

  /** Exactly the tags outside the `switch` throw "Unrecognized type", and they
      leave the mirror unchanged. */
  lemma UnrecognizedThrows(s: seq<Doc>, e: ChangeEvent)
    ensures Apply(s, e) == Thrown(UnrecognizedType, s) <==> !Recognized(e.kind)
  {
  }

  /** A throw leaves the mirror unchanged, except for a change whose `old_offset`
      removal has already happened. */
  lemma FaultLeavesMirror(s: seq<Doc>, e: ChangeEvent)
    requires Apply(s, e).Thrown?
    ensures e.kind == "change" && e.oldOffset.Some? ==> Apply(s, e).items == RemoveAt(s, e.oldOffset.value).0
    ensures !(e.kind == "change" && e.oldOffset.Some?) ==> Apply(s, e).items == s
  {
  }

  // ---------------------------------------------------------------------------
  // Identity keys.
  // ---------------------------------------------------------------------------

  /** A removal keeps the keys unique. */
  lemma RemoveKeepsKeysUnique(s: seq<Doc>, e: ChangeEvent)
    requires IsRemove(e.kind) && UniqueKeys(s)
    ensures UniqueKeys(Apply(s, e).items)
  {
    if e.oldOffset.Some? {
      var k := Start(e.oldOffset.value, |s|);
      if k < |s| {
        RemovalKeepsUnique(s, k);
      }
    } else {
      match KeyLookup(s, e.oldVal)
      case Found(i) => RemovalKeepsUnique(s, i);
      case Missing(_) =>
    }
  }

  /** An add whose document carries a key the mirror does not hold keeps the keys
      unique. */
  lemma AddKeepsKeysUnique(s: seq<Doc>, e: ChangeEvent, v: Doc)
    requires IsAdd(e.kind) && e.newVal == Some(v) && UniqueKeys(s) && !HasKey(s, v.id)
    ensures UniqueKeys(Apply(s, e).items)
  {
    if e.newOffset.Some? {
      InsertionKeepsUnique(s, e.newOffset.value, v);
    } else {
      InsertionKeepsUnique(s, |s|, v);
      assert InsertAt(s, |s|, v) == s + [v];
    }
  }

  /** A move (a change with both offsets) whose new document keeps the moved
      element's key keeps the keys unique. */
  lemma ChangeMoveKeepsKeysUnique(s: seq<Doc>, e: ChangeEvent, v: Doc, i: int)
    requires e.kind == "change" && e.newVal == Some(v) && e.newOffset.Some?
    requires e.oldOffset == Some(i) && 0 <= i < |s|
    requires UniqueKeys(s) && v.id == s[i].id
    ensures UniqueKeys(Apply(s, e).items)
  {
    var t := RemoveAt(s, i).0;
    RemoveAtInRange(s, i);
    assert t == s[..i] + s[i + 1..];
    RemovalKeepsUnique(s, i);
    assert !HasKey(t, v.id) by {
      forall p | 0 <= p < |t| ensures t[p].id != v.id {
        if p < i { assert t[p] == s[p]; } else { assert t[p] == s[p + 1]; }
      }
    }
    InsertionKeepsUnique(t, e.newOffset.value, v);
    assert Apply(s, e).items == InsertAt(t, e.newOffset.value, v);
  }

  /** A change with only `new_offset` whose document carries a key the mirror
      does not hold keeps the keys unique. */
  lemma ChangeInsertKeepsKeysUnique(s: seq<Doc>, e: ChangeEvent, v: Doc)
    requires e.kind == "change" && e.oldOffset.None? && e.newOffset.Some? && e.newVal == Some(v)
    requires UniqueKeys(s) && !HasKey(s, v.id)
    ensures UniqueKeys(Apply(s, e).items)
  {
    InsertionKeepsUnique(s, e.newOffset.value, v);
  }

  /** An in-place replacement whose new document keeps the key keeps the keys
      unique. */
  lemma ReplaceKeepsKeysUnique(s: seq<Doc>, e: ChangeEvent, d: Doc, v: Doc)
    requires e.kind == "change" && e.oldOffset.None? && e.newOffset.None?
    requires e.oldVal == Some(d) && e.newVal == Some(v) && v.id == d.id && UniqueKeys(s)
    ensures UniqueKeys(Apply(s, e).items)
  {
  }

  // ---------------------------------------------------------------------------
  // A stream of notifications.
  // ---------------------------------------------------------------------------

  /** The mirror after a stream of notifications, each applied to what the one
      before left (a notification that throws leaves its partial effect, and the
      next one is still applied). This is the driver of the bundled client,
      where each notification arrives in its own socket message and a throw
      ends only that message's handler; the `cursor.each` loop of
      `trackCollection` in src/index.js would stop at the first throw. */
  function Replay(s: seq<Doc>, es: seq<ChangeEvent>): seq<Doc>
    decreases |es|
  {
    if es == [] then s else Replay(Apply(s, es[0]).items, es[1..])
  }

  /** Replaying two streams one after the other is replaying their concatenation. */
  lemma {:induction false} ReplayConcat(s: seq<Doc>, a: seq<ChangeEvent>, b: seq<ChangeEvent>)
    ensures Replay(s, a + b) == Replay(Replay(s, a), b)
    decreases |a|
  {
    if a == [] {
      assert a + b == b;
    } else {
      assert (a + b)[0] == a[0];
      assert (a + b)[1..] == a[1..] + b;
      ReplayConcat(Apply(s, a[0]).items, a[1..], b);
    }
  }

  /** The documents carried by a stream's `new_val` fields, in order. */
  function NewValues(es: seq<ChangeEvent>): seq<Doc>
    decreases |es|
  {
    if es == [] then []
    else (match es[0].newVal case Some(v) => [v] case None => []) + NewValues(es[1..])
  }

  /** The initial load of an unordered feed: a mirror that starts empty and
      receives `initial` notifications without offsets holds their documents in
      arrival order. */
  lemma {:induction false} InitialLoad(s: seq<Doc>, es: seq<ChangeEvent>)
    requires forall i :: 0 <= i < |es| ==> es[i].kind == "initial" && es[i].newVal.Some? && es[i].newOffset.None?
    ensures Replay(s, es) == s + NewValues(es)
    decreases |es|
  {
    if es != [] {
      InitialLoad(s + [es[0].newVal.value], es[1..]);
      assert s + [es[0].newVal.value] + NewValues(es[1..]) == s + NewValues(es);
    }
  }

  /** An unordered feed's initial load followed by further notifications: the
      later ones are applied to the loaded documents in arrival order. */
  lemma LoadThenChanges(s: seq<Doc>, load: seq<ChangeEvent>, later: seq<ChangeEvent>)
    requires forall i :: 0 <= i < |load| ==> load[i].kind == "initial" && load[i].newVal.Some? && load[i].newOffset.None?
    ensures Replay(s, load + later) == Replay(s + NewValues(load), later)
  {
    ReplayConcat(s, load, later);
    InitialLoad(s, load);
  }

  /** The worked example of a mirror `[{id:1},{id:2},{id:3}]`: remove at offset 1,
      add `{id:4}` at offset 1, then change `{id:4}` by key. */
  lemma Scenario(d1: Doc, d2: Doc, d3: Doc, d4: Doc, d4x: Doc)
    requires d1.id == "1" && d2.id == "2" && d3.id == "3" && d4.id == "4" && d4x.id == "4"
    ensures var e1 := ChangeEvent("remove", None, None, Some(1), None, "");
      var e2 := ChangeEvent("add", None, Some(d4), None, Some(1), "");
      var e3 := ChangeEvent("change", Some(d4), Some(d4x), None, None, "");
      Apply([d1, d2, d3], e1).items == [d1, d3]
      && Apply([d1, d3], e2).items == [d1, d4, d3]
      && Apply([d1, d4, d3], e3).items == [d1, d4x, d3]
      && Replay([d1, d2, d3], [e1, e2, e3]) == [d1, d4x, d3]
  {
    var e1 := ChangeEvent("remove", None, None, Some(1), None, "");
    var e2 := ChangeEvent("add", None, Some(d4), None, Some(1), "");
    var e3 := ChangeEvent("change", Some(d4), Some(d4x), None, None, "");
    assert [d1, d2, d3][..1] + [d1, d2, d3][2..] == [d1, d3];
    assert [d1, d3][..1] + [d4] + [d1, d3][1..] == [d1, d4, d3];
    ChangeReplace([d1, d4, d3], e3, d4, d4x, 1);
    assert [e1, e2, e3][1..] == [e2, e3];
    assert [e2, e3][1..] == [e3];
    assert Replay([d1, d2, d3], [e1, e2, e3]) == Replay([d1, d3], [e2, e3]);
    assert Replay([d1, d3], [e2, e3]) == Replay([d1, d4, d3], [e3]);
    assert Replay([d1, d4, d3], [e3]) == Replay([d1, d4x, d3], []);
  }

  // ---------------------------------------------------------------------------
  // Value mirrors.
  // ---------------------------------------------------------------------------

  /** The value tracker's rule: a present (truthy) `new_val` replaces the value
      wholesale; anything else leaves it. */
  function TrackValue(v: Value, e: ChangeEvent): Value
  {
    if e.newVal.Some? then Document(e.newVal.value) else v
  }

  /** The value after a stream of notifications. */
  function ReplayValue(v: Value, es: seq<ChangeEvent>): Value
    decreases |es|
  {
    if es == [] then v else ReplayValue(TrackValue(v, es[0]), es[1..])
  }

  /** The last notification that carries `new_val` decides the value... */
  lemma {:induction false} ValueLastWriteWins(v: Value, es: seq<ChangeEvent>, k: nat)
    requires k < |es| && es[k].newVal.Some?
    requires forall j :: k < j < |es| ==> es[j].newVal.None?
    ensures ReplayValue(v, es) == Document(es[k].newVal.value)
    decreases |es|
  {
    if k == 0 {
      ValueUntouched(TrackValue(v, es[0]), es[1..]);
    } else {
      ValueLastWriteWins(TrackValue(v, es[0]), es[1..], k - 1);
    }
  }

  /** ... and a stream without one leaves the value as it was. */
  lemma {:induction false} ValueUntouched(v: Value, es: seq<ChangeEvent>)
    requires forall j :: 0 <= j < |es| ==> es[j].newVal.None?
    ensures ReplayValue(v, es) == v
    decreases |es|
  {
    if es != [] {
      ValueUntouched(v, es[1..]);
    }
  }
}
