/** Values that travel between the bridge and the client: documents of a result set,
    the change notifications a RethinkDB changefeed emits for them, and the faults
    the client raises while applying those notifications to a mirror. */
module Changes {

  datatype Option<T> = None | Some(value: T)

  /** The identity key of a document (its `id` field). */
  type Key = string

  /** One document of a result set. Only its `id` is looked at by the reconcilers;
      `body` stands for every other field. */
  datatype Doc = Doc(id: Key, body: string)

  /** What a value mirror holds: the empty object `{}` it starts as, or a document. */
  datatype Value = EmptyObject | Document(doc: Doc)

  /** One changefeed notification, field by field: `type`, `old_val`, `new_val`,
      `old_offset`, `new_offset` and `state`. A field that is null or absent is None. */
  datatype ChangeEvent = ChangeEvent(
    kind: string,
    oldVal: Option<Doc>,
    newVal: Option<Doc>,
    oldOffset: Option<int>,
    newOffset: Option<int>,
    state: string)

  /** Why applying a notification threw.
      - InconsistentDiff: no element carries the key of `old_val` ("Unable to apply change").
      - UnrecognizedType: the `type` field is none of the known tags.
      - MissingOldValue: `old_val.id` was read while `old_val` is absent (a TypeError).
      - MissingNewValue: an add or change without `new_val` (see the README).
      - NotACollection: a collection operation met a field that holds no array (a TypeError).
      - CursorError: the cursor reported an error to a value tracker. */
  datatype Fault =
    | InconsistentDiff
    | UnrecognizedType
    | MissingOldValue
    | MissingNewValue
    | NotACollection
    | CursorError(message: string)
}
