/** The direct-driver trackers (`trackCollection` and `trackValue`): each binds a
    component field to a mirror and edits that mirror from inside the cursor's
    `each` callback, one notification per call. */
module Tracker {
  import opened Changes
  import opened Reconcile

  /** The `entries` array that `trackCollection` binds to the component field. */
  class CollectionTracker {
    var entries: seq<Doc>

    /** The mirror starts as an empty array. */
    constructor ()
      ensures entries == []
    {
      entries := [];
    }

    /** The cursor callback: apply one notification in place; a throw is
        reported as the fault, with the array as it stood when it threw. */
    method OnChange(e: ChangeEvent) returns (fault: Option<Fault>)
      modifies this
      ensures entries == Apply(old(entries), e).items
      ensures fault.None? <==> Apply(old(entries), e).Done?
      ensures fault.Some? ==> fault.value == Apply(old(entries), e).fault
    {
      var o := Step(entries, e);
      entries := o.items;
      fault := if o.Thrown? then Some(o.fault) else None;
    }
  }

  /** The component field that `trackValue` keeps up to date. */
  class ValueTracker {
    var value: Value

    /** The field starts as the empty object. */
    constructor ()
      ensures value == EmptyObject
    {
      value := EmptyObject;
    }

    /** The cursor callback: an error throws and changes nothing; otherwise a
        present `new_val` replaces the value and anything else leaves it. */
    method OnChange(err: Option<string>, e: ChangeEvent) returns (fault: Option<Fault>)
      modifies this
      ensures err.Some? ==> fault == Some(CursorError(err.value)) && value == old(value)
      ensures err.None? ==> fault.None? && value == TrackValue(old(value), e)
    {
      if err.Some? {
        fault := Some(CursorError(err.value));
        return;
      }
      fault := None;
      if e.newVal.Some? {
        value := Document(e.newVal.value);
      }
    }
  }
}
