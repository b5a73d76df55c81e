/** The browser client (`RethinkDB` in dist/vue-rethinkdb.js): one object that
    owns the subscription registry (`queries`, `nextQueryId`), the request
    correlator (`requests`, `nextCid`), the component fields it mirrors into, and
    the message handler that routes replies, heartbeats and query responses.
    What the client writes to the socket is kept in `outbox`; promise settlements
    in `settled`; callbacks it fires in `notices`. */
module Client {
  import opened Changes
  import opened Reconcile
  import opened Correlator
  import Keys

  type Params = map<string, string>

  datatype Kind = ValueQuery | CollectionQuery

  /** A component field: which component (`vm`) and which property. */
  datatype Binding = Binding(vm: nat, field: string)

  /** What a bound field holds. */
  datatype Mirror = ValueField(value: Value) | CollectionField(items: seq<Doc>)

  datatype Callback =
    | OnStateChanged | OnValueChanged | OnEntryAdded | OnEntryUpdated | OnEntryMoved | OnEntryDeleted

  /** A registered query. `name` is the server-side query name, `state` the last
      label a state notification carried, `callbacks` the ones the component gave. */
  datatype Query = Query(
    queryId: int,
    binding: Binding,
    name: string,
    params: Params,
    kind: Kind,
    state: string,
    callbacks: set<Callback>)

  /** A field's configuration: `value` (truthy or not), `collection` and `query`
      (query names; the empty string stands for absent), `params`, callbacks. */
  datatype FieldConfig = FieldConfig(
    value: bool,
    collection: string,
    query: string,
    params: Option<Params>,
    callbacks: set<Callback>)

  datatype Registration = Registered(query: Query) | InvalidQueryType

  /** The `data` of an outgoing message. */
  datatype Payload =
    | NoData
    | SubscribeQuery(queryId: int, query: string, params: Params)
    | UnsubscribeQuery(queryId: int)
    | AuthToken(token: string)

  /** An outgoing message: `{cid, event, data}`, or the heartbeat answer "#2". */
  datatype Frame = Frame(cid: int, event: string, data: Payload) | Pong

  /** The `data` of an incoming message. */
  datatype Body = QueryResponse(queryId: int, change: ChangeEvent) | OtherBody(text: string)

  /** An incoming message: the heartbeat "#1", or `{rid, event, data}`. */
  datatype Incoming = Ping | Envelope(rid: Option<int>, event: string, data: Body)

  /** How a pending request ended. */
  datatype Settlement = Resolved(cid: int, data: Body) | TimedOut(cid: int)

  /** What `emitAck` returns: a pending promise for `cid`, or an immediate rejection. */
  datatype AckResult = Pending(cid: int) | NotConnected

  /** The argument of `authenticate`: absent, `null`, or a token. */
  datatype TokenArg = NoToken | NullToken | Token(value: string)

  /** A callback invocation, with the arguments the client passes. */
  datatype Notice =
    | StateChanged(queryId: int, state: string)
    | ValueChanged(queryId: int, state: string, doc: Doc)
    | EntryAdded(queryId: int, state: string, doc: Doc, index: int)
    | EntryUpdated(queryId: int, state: string, doc: Doc, index: int)
    | EntryDeleted(queryId: int, state: string, removed: Option<Doc>, index: int)

  /** What a query's response handler does: the query record (its state label),
      the field, the callbacks fired and the fault thrown. */
  datatype Effect = Effect(query: Query, mirror: Mirror, notices: seq<Notice>, fault: Option<Fault>)

  /** The element `registerField` puts in a fresh field: `{}` or `[]`. */
  function EmptyMirror(k: Kind): Mirror {
    if k == ValueQuery then ValueField(EmptyObject) else CollectionField([])
  }

  /** What `unsubscribe` leaves in the field: a value field becomes `{}`; a
      collection's array is emptied in place (`length = 0`), which clears nothing
      when the field holds no array. */
  function Cleared(k: Kind, m: Mirror): Mirror {
    if k == ValueQuery then ValueField(EmptyObject)
    else if m.CollectionField? then CollectionField([])
    else m
  }

  function SubscribePayload(q: Query): Payload {
    SubscribeQuery(q.queryId, q.name, q.params)
  }

  /** The callbacks fired after a notification was applied to a collection. */
  function TouchNotices(q: Query, t: Touch): seq<Notice> {
    match t
    case Deleted(r, i) => if OnEntryDeleted in q.callbacks then [EntryDeleted(q.queryId, q.state, r, i)] else []
    case Added(d, i) => if OnEntryAdded in q.callbacks then [EntryAdded(q.queryId, q.state, d, i)] else []
    case Updated(d, i) => if OnEntryUpdated in q.callbacks then [EntryUpdated(q.queryId, q.state, d, i)] else []
    case StateLabel(s) => if OnStateChanged in q.callbacks then [StateChanged(q.queryId, s)] else []
  }

  /** `processValueResponse`. */
  function ValueResponse(q: Query, m: Mirror, e: ChangeEvent): Effect {
    if e.kind == "state" then
      Effect(q.(state := e.state), m,
        if OnStateChanged in q.callbacks then [StateChanged(q.queryId, e.state)] else [], None)
    else if e.newVal.Some? then
      Effect(q, ValueField(Document(e.newVal.value)),
        if OnValueChanged in q.callbacks then [ValueChanged(q.queryId, q.state, e.newVal.value)] else [], None)
    else
      Effect(q, m, [], None)
  }

  /** `processCollectionResponse`: the `switch` on the notification's type, with
      the array edits of `Reconcile.Apply`. Array methods called on a field that
      holds no array throw. */
  function CollectionResponse(q: Query, m: Mirror, e: ChangeEvent): Effect {
    if e.kind == "state" then
      Effect(q.(state := e.state), m,
        if OnStateChanged in q.callbacks then [StateChanged(q.queryId, e.state)] else [], None)
    else if !Recognized(e.kind) then
      Effect(q, m, [], Some(UnrecognizedType))
    else if !m.CollectionField? then
      Effect(q, m, [], Some(NotACollection))
    else match Apply(m.items, e)
      case Done(items, touch) => Effect(q, CollectionField(items), TouchNotices(q, touch), None)
      case Thrown(f, items) => Effect(q, CollectionField(items), [], Some(f))
  }

  /** The registered queries in the order `Object.keys` lists their ids. */
  function Listed(qs: map<int, Query>, n: int): seq<Query>
  {
    var ids := Keys.Ascending(qs, n);
    seq(|ids|, i requires 0 <= i < |ids| => qs[ids[i]])
  }

  /** The frames `subscribeAll` sends for `qs`, numbered from `cid`. */
  function SubscribeFrames(qs: seq<Query>, cid: int): (r: seq<Frame>)
    ensures |r| == |qs|
    decreases |qs|
  {
    if qs == [] then []
    else SubscribeFrames(qs[..|qs| - 1], cid)
         + [Frame(cid + |qs| - 1, "subscribeQuery", SubscribePayload(qs[|qs| - 1]))]
  }

  /** The frames `unsubscribeAll` sends for `qs`, numbered from `cid`. */
  function UnsubscribeFrames(qs: seq<Query>, cid: int): (r: seq<Frame>)
    ensures |r| == |qs|
    decreases |qs|
  {
    if qs == [] then []
    else UnsubscribeFrames(qs[..|qs| - 1], cid)
         + [Frame(cid + |qs| - 1, "unsubscribeQuery", UnsubscribeQuery(qs[|qs| - 1].queryId))]
  }

  /** The `i`-th frame `subscribeAll` sends re-subscribes the `i`-th query,
      under its own id, name and params, on the `i`-th cid from `cid`. */
  lemma {:induction false} SubscribeFramesContent(qs: seq<Query>, cid: int)
    ensures var r := SubscribeFrames(qs, cid);
      forall i :: 0 <= i < |qs| ==> r[i] == Frame(cid + i, "subscribeQuery", SubscribePayload(qs[i]))
    decreases |qs|
  {
    if qs != [] {
      SubscribeFramesContent(qs[..|qs| - 1], cid);
    }
  }

  /** The `i`-th frame `unsubscribeAll` sends unsubscribes the `i`-th query,
      on the `i`-th cid from `cid`. */
  lemma {:induction false} UnsubscribeFramesContent(qs: seq<Query>, cid: int)
    ensures var r := UnsubscribeFrames(qs, cid);
      forall i :: 0 <= i < |qs| ==> r[i] == Frame(cid + i, "unsubscribeQuery", UnsubscribeQuery(qs[i].queryId))
    decreases |qs|
  {
    if qs != [] {
      UnsubscribeFramesContent(qs[..|qs| - 1], cid);
    }
  }

  /** The fields after `unsubscribe` ran for each of `qs` in turn. */
  function ClearAll(fs: map<Binding, Mirror>, qs: seq<Query>): (r: map<Binding, Mirror>)
    requires forall i :: 0 <= i < |qs| ==> qs[i].binding in fs
    ensures r.Keys == fs.Keys
    decreases |qs|
  {
    if qs == [] then fs
    else
      var before := ClearAll(fs, qs[..|qs| - 1]);
      var q := qs[|qs| - 1];
      before[q.binding := Cleared(q.kind, before[q.binding])]
  }

  /** One more query on the list adds one `subscribeQuery` frame at the end. */
  lemma SubscribeFramesSnoc(qs: seq<Query>, i: int, cid: int)
    requires 0 <= i < |qs|
    ensures SubscribeFrames(qs[..i + 1], cid)
      == SubscribeFrames(qs[..i], cid) + [Frame(cid + i, "subscribeQuery", SubscribePayload(qs[i]))]
  {
    assert qs[..i + 1][..i] == qs[..i];
  }

  /** One more query on the list adds one `unsubscribeQuery` frame at the end
      of what has been sent. */
  lemma UnsubscribeFramesSnoc(o: seq<Frame>, qs: seq<Query>, i: int, cid: int)
    requires 0 <= i < |qs|
    ensures o + UnsubscribeFrames(qs[..i + 1], cid)
      == (o + UnsubscribeFrames(qs[..i], cid)) + [Frame(cid + i, "unsubscribeQuery", UnsubscribeQuery(qs[i].queryId))]
  {
    assert qs[..i + 1][..i] == qs[..i];
  }

  /** One more query on the list clears one more field. */
  lemma ClearAllSnoc(fs: map<Binding, Mirror>, qs: seq<Query>, i: int)
    requires forall j :: 0 <= j < |qs| ==> qs[j].binding in fs
    requires 0 <= i < |qs|
    ensures var before := ClearAll(fs, qs[..i]);
      ClearAll(fs, qs[..i + 1]) == before[qs[i].binding := Cleared(qs[i].kind, before[qs[i].binding])]
  {
    assert qs[..i + 1][..i] == qs[..i];
  }

  /** The `queryId`s of `qs`. */
  function IdsOf(qs: seq<Query>): set<int> {
    set i | 0 <= i < |qs| :: qs[i].queryId
  }

  /** One more query on the list adds its id. */
  lemma IdsOfSnoc(qs: seq<Query>, i: int)
    requires 0 <= i < |qs|
    ensures IdsOf(qs[..i + 1]) == IdsOf(qs[..i]) + {qs[i].queryId}
  {
    assert forall j :: 0 <= j < i ==> qs[..i + 1][j] == qs[..i][j];
  }

  /** The rejections a sweep issues, in the order it visits `ids`. */
  function Timeouts(reqs: map<int, Request>, ids: seq<int>, now: int): seq<Settlement>
    decreases |ids|
  {
    if ids == [] then []
    else
      var cid := ids[|ids| - 1];
      Timeouts(reqs, ids[..|ids| - 1], now)
      + (if cid in reqs && Expired(reqs[cid], now) then [TimedOut(cid)] else [])
  }

  /** The pending requests left after a sweep visited `ids`. */
  function Pruned(reqs: map<int, Request>, ids: seq<int>, now: int): (r: map<int, Request>)
    ensures r.Keys <= reqs.Keys
  {
    map cid | cid in reqs && !(cid in ids && Expired(reqs[cid], now)) :: reqs[cid]
  }

  /** Visiting one more, not yet visited, cid removes it exactly when it is
      pending and expired. */
  lemma PrunedStep(reqs: map<int, Request>, ids: seq<int>, i: int, now: int)
    requires 0 <= i < |ids|
    requires forall j :: 0 <= j < i ==> ids[j] < ids[i]
    ensures ids[i] !in ids[..i]
    ensures ids[i] in Pruned(reqs, ids[..i], now) <==> ids[i] in reqs
    ensures Pruned(reqs, ids[..i + 1], now) ==
      if ids[i] in reqs && Expired(reqs[ids[i]], now) then Pruned(reqs, ids[..i], now) - {ids[i]}
      else Pruned(reqs, ids[..i], now)
  {
    assert ids[..i + 1] == ids[..i] + [ids[i]];
  }

  /** A sweep that visited every pending cid leaves exactly the survivors. */
  lemma PrunedAll(reqs: map<int, Request>, ids: seq<int>, now: int)
    requires forall cid :: cid in reqs ==> cid in ids
    ensures Pruned(reqs, ids, now) == Survivors(reqs, now)
  {
    forall cid | cid in reqs
      ensures cid in Pruned(reqs, ids, now) <==> cid in Survivors(reqs, now)
    {
      assert cid in ids;
    }
    assert Pruned(reqs, ids, now).Keys == Survivors(reqs, now).Keys;
  }

  /** One pass of the sweep over `ids`, in order: every visited cid whose
      request has expired is removed and reported. */
  method SweepPass(reqs: map<int, Request>, ids: seq<int>, now: int) returns (left: map<int, Request>, rejected: seq<Settlement>)
    requires forall i, j :: 0 <= i < j < |ids| ==> ids[i] < ids[j]
    ensures left == Pruned(reqs, ids, now)
    ensures rejected == Timeouts(reqs, ids, now)
  {
    left, rejected := reqs, [];
    for i := 0 to |ids|
      invariant left == Pruned(reqs, ids[..i], now)
      invariant rejected == Timeouts(reqs, ids[..i], now)
    {
      var cid := ids[i];
      assert ids[..i + 1][..i] == ids[..i];
      PrunedStep(reqs, ids, i, now);
      if cid in left && Expired(left[cid], now) {
        left := left - {cid};
        rejected := rejected + [TimedOut(cid)];
      }
    }
    assert ids[..|ids|] == ids;
  }

  /** What the client sends once its handshake is acknowledged: an `auth`
      request when a token is stored, then one `subscribeQuery` per query. */
  function Resumption(token: Option<string>, open: bool, qs: map<int, Query>, n: int, cid: int): seq<Frame>
  {
    var sends := SendsAuth(token, open);
    (if sends then [Frame(cid, "auth", AuthToken(token.value))] else [])
    + (if open then SubscribeFrames(Listed(qs, n), cid + (if sends then 1 else 0)) else [])
  }

  /** Whether `authenticate` sends an `auth` request: a truthy stored token and
      an open socket. */
  predicate SendsAuth(token: Option<string>, open: bool) {
    open && token.Some? && token.value != ""
  }

  /** The token `authenticate(arg)` leaves stored: `null` clears it, a truthy
      token replaces it, and anything else keeps the old one. */
  function StoredToken(old_token: Option<string>, arg: TokenArg): Option<string> {
    match arg
    case NullToken => None
    case Token(t) => if t != "" then Some(t) else old_token
    case NoToken => old_token
  }

  /** Every registered query sits under its own id, below the next id. */
  predicate WellKeyed(qs: map<int, Query>, n: int) {
    forall id :: id in qs ==> 1 <= id < n && qs[id].queryId == id
  }

  /** The listing of a well-keyed registry holds every query once, each under
      its own id, in ascending id order. */
  lemma ListedCoversRegistry(qs: map<int, Query>, n: int)
    requires WellKeyed(qs, n)
    ensures var l := Listed(qs, n);
      && |l| == |qs|
      && (forall i :: 0 <= i < |l| ==> l[i].queryId in qs && l[i] == qs[l[i].queryId])
      && (forall i, j :: 0 <= i < j < |l| ==> l[i].queryId < l[j].queryId)
      && (forall id :: id in qs ==> exists i :: 0 <= i < |l| && l[i].queryId == id)
  {
    var ids := Keys.Ascending(qs, n);
    var l := Listed(qs, n);
    Keys.AscendingCount(qs, n);
    assert forall i :: 0 <= i < |l| ==> l[i].queryId == ids[i];
    forall id | id in qs
      ensures exists i :: 0 <= i < |l| && l[i].queryId == id
    {
      Keys.AscendingComplete(qs, n, id);
      var i :| 0 <= i < |ids| && ids[i] == id;
      assert l[i].queryId == id;
    }
  }

  /** `subscribeAll` sends one frame per registered query, and every
      registered query is re-subscribed. */
  lemma ResubscribeCoversRegistry(qs: map<int, Query>, n: int, cid: int)
    requires WellKeyed(qs, n)
    ensures var fs := SubscribeFrames(Listed(qs, n), cid);
      && |fs| == |qs|
      && (forall id :: id in qs ==>
            exists i :: 0 <= i < |fs| && fs[i] == Frame(cid + i, "subscribeQuery", SubscribePayload(qs[id])))
  {
    var l := Listed(qs, n);
    var fs := SubscribeFrames(l, cid);
    ListedCoversRegistry(qs, n);
    SubscribeFramesContent(l, cid);
    forall id | id in qs
      ensures exists i :: 0 <= i < |fs| && fs[i] == Frame(cid + i, "subscribeQuery", SubscribePayload(qs[id]))
    {
      var i :| 0 <= i < |l| && l[i].queryId == id;
      assert fs[i] == Frame(cid + i, "subscribeQuery", SubscribePayload(l[i]));
    }
  }

  /** The frames of `subscribeAll` go out on consecutive cids, each
      re-subscribing a registered query under its own id, name and params, in
      ascending id order, so no query is subscribed twice. */
  lemma ResubscribeInOrder(qs: map<int, Query>, n: int, cid: int)
    requires WellKeyed(qs, n)
    ensures var fs := SubscribeFrames(Listed(qs, n), cid);
      && (forall i :: 0 <= i < |fs| ==>
            && fs[i].Frame? && fs[i].cid == cid + i && fs[i].data.SubscribeQuery?
            && fs[i].data.queryId in qs && fs[i].data == SubscribePayload(qs[fs[i].data.queryId]))
      && (forall i, j :: 0 <= i < j < |fs| ==> fs[i].data.queryId < fs[j].data.queryId)
  {
    var l := Listed(qs, n);
    ListedCoversRegistry(qs, n);
    SubscribeFramesContent(l, cid);
  }

  /** The rejections of a sweep over `ids` name exactly the visited cids whose
      requests have expired, and nothing else. */
  lemma {:induction false} TimeoutsExactly(reqs: map<int, Request>, ids: seq<int>, now: int, cid: int)
    ensures TimedOut(cid) in Timeouts(reqs, ids, now) <==> cid in ids && cid in reqs && Expired(reqs[cid], now)
    ensures forall s :: s in Timeouts(reqs, ids, now) ==> s.TimedOut?
    decreases |ids|
  {
    if ids != [] {
      var front := ids[..|ids| - 1];
      TimeoutsExactly(reqs, front, now, cid);
      assert ids == front + [ids[|ids| - 1]];
    }
  }

  /** A sweep rejects precisely the pending requests that have expired. */
  lemma SweepRejectsExpired(reqs: map<int, Request>, n: int, now: int, cid: int)
    requires forall c :: c in reqs ==> 1 <= c < n
    ensures TimedOut(cid) in Timeouts(reqs, Keys.Ascending(reqs, n), now) <==> cid in ExpiredIds(reqs, now)
  {
    TimeoutsExactly(reqs, Keys.Ascending(reqs, n), now, cid);
    if cid in reqs {
      Keys.AscendingComplete(reqs, n, cid);
    }
  }

  /** `unsubscribeAll` over queries bound to distinct fields clears each of
      their fields as `unsubscribe` does, and touches no other field. */
  lemma {:induction false} ClearAllEffect(fs: map<Binding, Mirror>, qs: seq<Query>, b: Binding)
    requires forall i :: 0 <= i < |qs| ==> qs[i].binding in fs
    requires forall i, j :: 0 <= i < j < |qs| ==> qs[i].binding != qs[j].binding
    requires b in fs
    ensures (forall i :: 0 <= i < |qs| ==> qs[i].binding != b) ==> ClearAll(fs, qs)[b] == fs[b]
    ensures forall i :: 0 <= i < |qs| && qs[i].binding == b ==>
      ClearAll(fs, qs)[b] == Cleared(qs[i].kind, fs[b])
    decreases |qs|
  {
    if qs != [] {
      ClearAllEffect(fs, qs[..|qs| - 1], b);
    }
  }

  /** Unsubscribing leaves a field as registering it did: `{}` for a value,
      `[]` for a collection whose field still holds an array. */
  lemma UnsubscribeRestoresField(k: Kind, m: Mirror)
    requires k == CollectionQuery ==> m.CollectionField?
    ensures Cleared(k, m) == EmptyMirror(k)
  {
  }

  /** The callback a notice invokes. */
  function CallbackOf(n: Notice): Callback {
    match n
    case StateChanged(_, _) => OnStateChanged
    case ValueChanged(_, _, _) => OnValueChanged
    case EntryAdded(_, _, _, _) => OnEntryAdded
    case EntryUpdated(_, _, _, _) => OnEntryUpdated
    case EntryDeleted(_, _, _, _) => OnEntryDeleted
  }

  /** A value response keeps the query's identity, updates its state only on
      a state notification, fires at most one callback and only one the query
      was given, naming the query in it, never throws, and replayed a second
      time changes the field no further. */
  lemma ValueResponseShape(q: Query, m: Mirror, e: ChangeEvent)
    ensures var eff := ValueResponse(q, m, e);
      && eff.query == (if e.kind == "state" then q.(state := e.state) else q)
      && |eff.notices| <= 1
      && (forall i :: 0 <= i < |eff.notices| ==>
            CallbackOf(eff.notices[i]) in q.callbacks && eff.notices[i].queryId == q.queryId)
      && eff.fault.None?
      && ValueResponse(q, eff.mirror, e).mirror == eff.mirror
  {
  }

  /** The callbacks fired for a touch come from the query's callbacks and name
      the query. */
  lemma TouchNoticesShape(q: Query, t: Touch)
    ensures var ns := TouchNotices(q, t);
      |ns| <= 1 && forall i :: 0 <= i < |ns| ==> CallbackOf(ns[i]) in q.callbacks && ns[i].queryId == q.queryId
  {
  }

  /** A collection response keeps the query's identity, updates its state only
      on a state notification, fires at most one callback and only one the
      query was given, naming the query in it, and throws exactly when the
      array edit throws or there is no array to edit. */
  lemma CollectionResponseShape(q: Query, m: Mirror, e: ChangeEvent)
    ensures var eff := CollectionResponse(q, m, e);
      && eff.query == (if e.kind == "state" then q.(state := e.state) else q)
      && |eff.notices| <= 1
      && (forall i :: 0 <= i < |eff.notices| ==>
            CallbackOf(eff.notices[i]) in q.callbacks && eff.notices[i].queryId == q.queryId)
      && (eff.fault.None? <==> e.kind == "state" || (m.CollectionField? && Apply(m.items, e).Done?))
      && (e.kind == "state" ==> eff.mirror == m)
  {
    if e.kind != "state" && Recognized(e.kind) && m.CollectionField? {
      match Apply(m.items, e)
      case Done(_, touch) => TouchNoticesShape(q, touch);
      case Thrown(_, _) =>
    }
  }

  class RethinkClient {
    /** Whether the socket's `readyState` is OPEN. */
    var open: bool
    var nextCid: int
    var nextQueryId: int
    var queries: map<int, Query>
    var requests: map<int, Request>
    /** The component fields the client writes into. */
    var fields: map<Binding, Mirror>
    var authToken: Option<string>
    var outbox: seq<Frame>
    var settled: seq<Settlement>
    var notices: seq<Notice>

    /** Counters only grow past the ids in use, every registered query sits
        under its own id, and its field exists. */
    ghost predicate Valid()
      reads this
    {
      && 1 <= nextCid
      && 1 <= nextQueryId
      && (forall cid :: cid in requests ==> 1 <= cid < nextCid)
      && (forall id :: id in queries ==>
            1 <= id < nextQueryId && queries[id].queryId == id && queries[id].binding in fields)
    }

    /** The client as `install` leaves it before the socket opens. */
    constructor ()
      ensures Valid()
      ensures !open && nextCid == 1 && nextQueryId == 1
      ensures queries == map[] && requests == map[] && fields == map[]
      ensures authToken.None? && outbox == [] && settled == [] && notices == []
    {
      open := false;
      nextCid, nextQueryId := 1, 1;
      queries, requests, fields := map[], map[], map[];
      authToken := None;
      outbox, settled, notices := [], [], [];
    }

    /** `emit`: send `{cid, event, data}` with a fresh cid, or nothing when the
        socket is not open. */
    method Emit(event: string, data: Payload)
      requires Valid()
      modifies this`outbox, this`nextCid
      ensures Valid()
      ensures outbox == old(outbox) + (if open then [Frame(old(nextCid), event, data)] else [])
      ensures nextCid == old(nextCid) + (if open then 1 else 0)
    {
      if !open {
        return;
      }
      outbox := outbox + [Frame(nextCid, event, data)];
      nextCid := nextCid + 1;
    }

    /** `emitAck`: when the socket is not open, reject at once and store nothing;
        otherwise take the next cid, store one pending request stamped `now`, and
        send the message. */
    method EmitAck(event: string, data: Payload, purpose: Purpose, now: int) returns (r: AckResult)
      requires Valid()
      modifies this`outbox, this`nextCid, this`requests
      ensures Valid()
      ensures !open ==>
        && r == NotConnected && requests == old(requests)
        && outbox == old(outbox) && nextCid == old(nextCid)
      ensures open ==>
        && r == Pending(old(nextCid)) && nextCid == old(nextCid) + 1
        && old(nextCid) !in old(requests)
        && requests == old(requests)[old(nextCid) := Request(now, purpose)]
        && |requests| == |old(requests)| + 1
        && outbox == old(outbox) + [Frame(old(nextCid), event, data)]
    {
      if !open {
        r := NotConnected;
        return;
      }
      var cid := nextCid;
      nextCid := nextCid + 1;
      requests := requests[cid := Request(now, purpose)];
      outbox := outbox + [Frame(cid, event, data)];
      r := Pending(cid);
    }

    /** The socket's `open` event: the client sends the handshake and waits for it. */
    method OnOpen(now: int)
      requires Valid()
      modifies this`open, this`outbox, this`nextCid, this`requests
      ensures Valid() && open
      ensures requests == old(requests)[old(nextCid) := Request(now, Handshake)]
      ensures outbox == old(outbox) + [Frame(old(nextCid), "#handshake", NoData)]
      ensures nextCid == old(nextCid) + 1
    {
      open := true;
      var _ := EmitAck("#handshake", NoData, Handshake, now);
    }

    /** The host's socket left the OPEN state (`readyState` changed); the
        client has no close handler, so nothing else changes. */
    method OnClose()
      modifies this`open
      ensures !open
    {
      open := false;
    }

    /** `authenticate(arg)`: store the token as the argument says, then send an
        `auth` request when a truthy token is stored and the socket is open. */
    method Authenticate(arg: TokenArg, now: int)
      requires Valid()
      modifies this`authToken, this`outbox, this`nextCid, this`requests
      ensures Valid()
      ensures authToken == StoredToken(old(authToken), arg)
      ensures SendsAuth(authToken, open) ==>
        requests == old(requests)[old(nextCid) := Request(now, Authentication)]
        && outbox == old(outbox) + [Frame(old(nextCid), "auth", AuthToken(authToken.value))]
        && nextCid == old(nextCid) + 1
      ensures !SendsAuth(authToken, open) ==>
        requests == old(requests) && outbox == old(outbox) && nextCid == old(nextCid)
    {
      if arg.NullToken? || (arg.Token? && arg.value != "") {
        authToken := if arg.NullToken? then None else Some(arg.value);
      }
      SendAuth(now);
    }

    /** The second half of `authenticate`, and all of `authenticate()` without
        an argument: send the stored token when it is truthy and the socket open. */
    method SendAuth(now: int)
      requires Valid()
      modifies this`outbox, this`nextCid, this`requests
      ensures Valid()
      ensures SendsAuth(authToken, open) ==>
        requests == old(requests)[old(nextCid) := Request(now, Authentication)]
        && outbox == old(outbox) + [Frame(old(nextCid), "auth", AuthToken(authToken.value))]
        && nextCid == old(nextCid) + 1
      ensures !SendsAuth(authToken, open) ==>
        requests == old(requests) && outbox == old(outbox) && nextCid == old(nextCid)
    {
      if authToken.Some? && authToken.value != "" && open {
        var _ := EmitAck("auth", AuthToken(authToken.value), Authentication, now);
      }
    }

    /** `subscribe(query)`: send `subscribeQuery` with the query's own id, name
        and params when the socket is open. */
    method Subscribe(q: Query)
      requires Valid()
      modifies this`outbox, this`nextCid
      ensures Valid()
      ensures outbox == old(outbox) + (if open then [Frame(old(nextCid), "subscribeQuery", SubscribePayload(q))] else [])
      ensures nextCid == old(nextCid) + (if open then 1 else 0)
    {
      if open {
        Emit("subscribeQuery", SubscribePayload(q));
      }
    }

    /** `subscribeAll`: re-issue `subscribeQuery` for every registered query, in
        ascending queryId order, one cid each. */
    method SubscribeAll()
      requires Valid()
      modifies this`outbox, this`nextCid
      ensures Valid()
      ensures outbox == old(outbox) + (if open then SubscribeFrames(Listed(queries, nextQueryId), old(nextCid)) else [])
      ensures nextCid == old(nextCid) + (if open then |queries| else 0)
    {
      Keys.AscendingCount(queries, nextQueryId);
      SubscribeEach(Listed(queries, nextQueryId));
    }

    /** The `forEach(subscribe)` over a list of queries, in list order. */
    method SubscribeEach(list: seq<Query>)
      requires Valid()
      modifies this`outbox, this`nextCid
      ensures Valid()
      ensures outbox == old(outbox) + (if open then SubscribeFrames(list, old(nextCid)) else [])
      ensures nextCid == old(nextCid) + (if open then |list| else 0)
    {
      if !open {
        return;
      }
      for i := 0 to |list|
        invariant Valid()
        invariant outbox == old(outbox) + SubscribeFrames(list[..i], old(nextCid))
        invariant nextCid == old(nextCid) + i
      {
        SubscribeFramesSnoc(list, i, old(nextCid));
        Subscribe(list[i]);
      }
      assert list[..|list|] == list;
    }

    /** `registerField`: the next queryId is taken (even when the configuration
        turns out to be invalid); a value gets `{}`, a collection `[]`, anything
        else throws; the query is recorded and subscribed. */
    method RegisterField(vm: nat, field: string, config: FieldConfig) returns (r: Registration)
      requires Valid()
      modifies this`nextQueryId, this`queries, this`fields, this`outbox, this`nextCid
      ensures Valid()
      ensures nextQueryId == old(nextQueryId) + 1
      ensures !config.value && config.collection == "" ==>
        r == InvalidQueryType && queries == old(queries) && fields == old(fields)
        && outbox == old(outbox) && nextCid == old(nextCid)
      ensures config.value || config.collection != "" ==>
        var kind := if config.value then ValueQuery else CollectionQuery;
        var q := Query(old(nextQueryId), Binding(vm, field),
                       if config.query != "" then config.query else config.collection,
                       if config.params.Some? then config.params.value else map[],
                       kind, "initializing", config.callbacks);
        && r == Registered(q)
        && old(nextQueryId) !in old(queries)
        && queries == old(queries)[q.queryId := q]
        && fields == old(fields)[q.binding := EmptyMirror(kind)]
        && outbox == old(outbox) + (if open then [Frame(old(nextCid), "subscribeQuery", SubscribePayload(q))] else [])
        && nextCid == old(nextCid) + (if open then 1 else 0)
    {
      var id := nextQueryId;
      nextQueryId := nextQueryId + 1;
      var name := if config.query != "" then config.query else config.collection;
      var params := if config.params.Some? then config.params.value else map[];
      var kind;
      if config.value {
        kind := ValueQuery;
      } else if config.collection != "" {
        kind := CollectionQuery;
      } else {
        r := InvalidQueryType;
        return;
      }
      var q := Query(id, Binding(vm, field), name, params, kind, "initializing", config.callbacks);
      fields := fields[q.binding := EmptyMirror(kind)];
      queries := queries[id := q];
      Subscribe(q);
      r := Registered(q);
    }

    /** `unsubscribe(query)`: clear the field, forget the query, then send
        `unsubscribeQuery` (when the socket is open). */
    method Unsubscribe(q: Query)
      requires Valid() && q.binding in fields
      modifies this`fields, this`queries, this`outbox, this`nextCid
      ensures Valid()
      ensures fields == old(fields)[q.binding := Cleared(q.kind, old(fields)[q.binding])]
      ensures queries == old(queries) - {q.queryId}
      ensures outbox == old(outbox) + (if open then [Frame(old(nextCid), "unsubscribeQuery", UnsubscribeQuery(q.queryId))] else [])
      ensures nextCid == old(nextCid) + (if open then 1 else 0)
    {
      fields := fields[q.binding := Cleared(q.kind, fields[q.binding])];
      queries := queries - {q.queryId};
      Emit("unsubscribeQuery", UnsubscribeQuery(q.queryId));
    }

    /** `registerField` followed by `unsubscribe` of the query it registered: the
        registry is back as it was, the field holds the fresh element again, and
        (while open) the server saw the subscription and then its withdrawal. */
    method RegisterThenUnsubscribe(vm: nat, field: string, config: FieldConfig) returns (r: Registration)
      requires Valid()
      modifies this`nextQueryId, this`queries, this`fields, this`outbox, this`nextCid
      ensures Valid()
      ensures nextQueryId == old(nextQueryId) + 1
      ensures !config.value && config.collection == "" ==>
        r == InvalidQueryType && queries == old(queries) && fields == old(fields)
        && outbox == old(outbox) && nextCid == old(nextCid)
      ensures config.value || config.collection != "" ==>
        var kind := if config.value then ValueQuery else CollectionQuery;
        && r == Registered(Query(old(nextQueryId), Binding(vm, field),
                                 if config.query != "" then config.query else config.collection,
                                 if config.params.Some? then config.params.value else map[],
                                 kind, "initializing", config.callbacks))
        && queries == old(queries)
        && fields == old(fields)[Binding(vm, field) := EmptyMirror(kind)]
        && outbox == old(outbox) + (if open then [Frame(old(nextCid), "subscribeQuery", SubscribePayload(r.query)),
                                                  Frame(old(nextCid) + 1, "unsubscribeQuery", UnsubscribeQuery(old(nextQueryId)))]
                                    else [])
        && nextCid == old(nextCid) + (if open then 2 else 0)
    {
      r := RegisterField(vm, field, config);
      if r.Registered? {
        UnsubscribeRestoresField(r.query.kind, fields[r.query.binding]);
        Unsubscribe(r.query);
      }
    }

    /** The state after `unsubscribe` ran for the first `i` of `qs`, starting
        from fields `f`, queries `q`, outbox `o` and next cid `c`. */
    ghost predicate UnsubscribedPrefix(qs: seq<Query>, i: int, f: map<Binding, Mirror>, q: map<int, Query>,
                                       o: seq<Frame>, c: int)
      requires 0 <= i <= |qs| && forall j :: 0 <= j < |qs| ==> qs[j].binding in f
      reads this
    {
      && fields == ClearAll(f, qs[..i])
      && queries == q - IdsOf(qs[..i])
      && outbox == o + (if open then UnsubscribeFrames(qs[..i], c) else [])
      && nextCid == c + (if open then i else 0)
    }

    /** `unsubscribeAll(vm)`: `unsubscribe` each query the component registered,
        in order. */
    method UnsubscribeAll(qs: seq<Query>)
      requires Valid()
      requires forall i :: 0 <= i < |qs| ==> qs[i].binding in fields
      modifies this`fields, this`queries, this`outbox, this`nextCid
      ensures Valid()
      ensures fields == ClearAll(old(fields), qs)
      ensures queries == old(queries) - IdsOf(qs)
      ensures outbox == old(outbox) + (if open then UnsubscribeFrames(qs, old(nextCid)) else [])
      ensures nextCid == old(nextCid) + (if open then |qs| else 0)
    {
      for i := 0 to |qs|
        invariant Valid()
        invariant UnsubscribedPrefix(qs, i, old(fields), old(queries), old(outbox), old(nextCid))
      {
        ClearAllSnoc(old(fields), qs, i);
        IdsOfSnoc(qs, i);
        UnsubscribeFramesSnoc(old(outbox), qs, i, old(nextCid));
        Unsubscribe(qs[i]);
      }
      assert qs[..|qs|] == qs;
    }

    /** `processValueResponse` on a registered query. */
    method ProcessValueResponse(q: Query, e: ChangeEvent)
      requires Valid() && q.queryId in queries && queries[q.queryId] == q
      modifies this`queries, this`fields, this`notices
      ensures Valid()
      ensures var eff := ValueResponse(q, old(fields)[q.binding], e);
        queries == old(queries)[q.queryId := eff.query]
        && fields == old(fields)[q.binding := eff.mirror]
        && notices == old(notices) + eff.notices
    {
      if e.kind == "state" {
        queries := queries[q.queryId := q.(state := e.state)];
        if OnStateChanged in q.callbacks {
          notices := notices + [StateChanged(q.queryId, e.state)];
        }
      } else if e.newVal.Some? {
        fields := fields[q.binding := ValueField(Document(e.newVal.value))];
        if OnValueChanged in q.callbacks {
          notices := notices + [ValueChanged(q.queryId, q.state, e.newVal.value)];
        }
      }
    }

    /** `processCollectionResponse` on a registered query; a throw is returned
        as the fault, with the field as it stood when it threw. */
    method ProcessCollectionResponse(q: Query, e: ChangeEvent) returns (fault: Option<Fault>)
      requires Valid() && q.queryId in queries && queries[q.queryId] == q
      modifies this`queries, this`fields, this`notices
      ensures Valid()
      ensures var eff := CollectionResponse(q, old(fields)[q.binding], e);
        queries == old(queries)[q.queryId := eff.query]
        && fields == old(fields)[q.binding := eff.mirror]
        && notices == old(notices) + eff.notices
        && fault == eff.fault
    {
      var m := fields[q.binding];
      if e.kind == "state" {
        queries := queries[q.queryId := q.(state := e.state)];
        if OnStateChanged in q.callbacks {
          notices := notices + [StateChanged(q.queryId, e.state)];
        }
        fault := None;
      } else if !Recognized(e.kind) {
        fault := Some(UnrecognizedType);
      } else if !m.CollectionField? {
        fault := Some(NotACollection);
      } else {
        var o := Step(m.items, e);
        fields := fields[q.binding := CollectionField(o.items)];
        if o.Done? {
          notices := notices + TouchNotices(q, o.touch);
          fault := None;
        } else {
          fault := Some(o.fault);
        }
      }
    }

    /** `processQueryResponse`: dispatch on the query registered under the
        response's queryId; a response for an unknown queryId is ignored. */
    method ProcessQueryResponse(body: Body) returns (fault: Option<Fault>)
      requires Valid()
      modifies this`queries, this`fields, this`notices
      ensures Valid()
      ensures !(body.QueryResponse? && body.queryId in old(queries)) ==>
        fault.None? && queries == old(queries) && fields == old(fields) && notices == old(notices)
      ensures body.QueryResponse? && body.queryId in old(queries) ==>
        var q := old(queries)[body.queryId];
        var eff := if q.kind == ValueQuery then ValueResponse(q, old(fields)[q.binding], body.change)
                   else CollectionResponse(q, old(fields)[q.binding], body.change);
        queries == old(queries)[q.queryId := eff.query]
        && fields == old(fields)[q.binding := eff.mirror]
        && notices == old(notices) + eff.notices
        && fault == eff.fault
    {
      fault := None;
      if body.QueryResponse? && body.queryId in queries {
        var q := queries[body.queryId];
        if q.kind == ValueQuery {
          ProcessValueResponse(q, body.change);
        } else {
          fault := ProcessCollectionResponse(q, body.change);
        }
      }
    }

    /** The continuation of a successful handshake: `authenticate()`, then
        `subscribeAll()`. */
    method ResumeAfterHandshake(now: int)
      requires Valid()
      modifies this`outbox, this`nextCid, this`requests
      ensures Valid()
      ensures outbox == old(outbox) + Resumption(authToken, open, queries, nextQueryId, old(nextCid))
      ensures requests == if SendsAuth(authToken, open)
        then old(requests)[old(nextCid) := Request(now, Authentication)] else old(requests)
    {
      SendAuth(now);
      SubscribeAll();
    }

    /** A reply to the pending request `cid`: settle it with the reply's data and
        forget it; a handshake reply goes on with `ResumeAfterHandshake`. */
    method Resolve(cid: int, data: Body, now: int)
      requires Valid() && cid in requests
      modifies this`outbox, this`nextCid, this`requests, this`settled
      ensures Valid()
      ensures settled == old(settled) + [Resolved(cid, data)]
      ensures cid !in requests
      ensures old(requests)[cid].purpose != Handshake ==>
        requests == old(requests) - {cid} && outbox == old(outbox) && nextCid == old(nextCid)
      ensures old(requests)[cid].purpose == Handshake ==>
        && outbox == old(outbox) + Resumption(authToken, open, queries, nextQueryId, old(nextCid))
        && requests == if SendsAuth(authToken, open)
             then (old(requests) - {cid})[old(nextCid) := Request(now, Authentication)]
             else old(requests) - {cid}
    {
      var request := requests[cid];
      settled := settled + [Resolved(cid, data)];
      requests := requests - {cid};
      if request.purpose == Handshake {
        ResumeAfterHandshake(now);
      }
    }

    /** The socket's `message` handler: answer a heartbeat; resolve the pending
        request whose cid is the reply's `rid`; hand a query response to the
        registry; ignore anything else. */
    method HandleMessage(msg: Incoming, now: int) returns (fault: Option<Fault>)
      requires Valid()
      modifies this`outbox, this`nextCid, this`requests, this`settled, this`queries, this`fields, this`notices
      ensures Valid()
      ensures msg.Ping? ==>
        && fault.None? && outbox == old(outbox) + [Pong] && nextCid == old(nextCid)
        && requests == old(requests) && settled == old(settled)
        && queries == old(queries) && fields == old(fields) && notices == old(notices)
      ensures msg.Envelope? && msg.rid.Some? && msg.rid.value in old(requests) ==>
        && fault.None?
        && settled == old(settled) + [Resolved(msg.rid.value, msg.data)]
        && msg.rid.value !in requests
        && queries == old(queries) && fields == old(fields) && notices == old(notices)
      ensures msg.Envelope? && msg.rid.Some? && msg.rid.value in old(requests)
              && old(requests)[msg.rid.value].purpose != Handshake ==>
        requests == old(requests) - {msg.rid.value} && outbox == old(outbox) && nextCid == old(nextCid)
      ensures msg.Envelope? && msg.rid.Some? && msg.rid.value in old(requests)
              && old(requests)[msg.rid.value].purpose == Handshake ==>
        && outbox == old(outbox) + Resumption(authToken, open, queries, nextQueryId, old(nextCid))
        && requests == if SendsAuth(authToken, open)
             then (old(requests) - {msg.rid.value})[old(nextCid) := Request(now, Authentication)]
             else old(requests) - {msg.rid.value}
      ensures msg.Envelope? && !(msg.rid.Some? && msg.rid.value in old(requests)) ==>
        && requests == old(requests) && settled == old(settled)
        && outbox == old(outbox) && nextCid == old(nextCid)
        && (msg.event != "queryResponse" ==>
              fault.None? && queries == old(queries) && fields == old(fields) && notices == old(notices))
      ensures msg.Envelope? && !(msg.rid.Some? && msg.rid.value in old(requests)) && msg.event == "queryResponse"
              && !(msg.data.QueryResponse? && msg.data.queryId in old(queries)) ==>
        fault.None? && queries == old(queries) && fields == old(fields) && notices == old(notices)
      ensures msg.Envelope? && !(msg.rid.Some? && msg.rid.value in old(requests)) && msg.event == "queryResponse"
              && msg.data.QueryResponse? && msg.data.queryId in old(queries) ==>
        var q := old(queries)[msg.data.queryId];
        var eff := if q.kind == ValueQuery then ValueResponse(q, old(fields)[q.binding], msg.data.change)
                   else CollectionResponse(q, old(fields)[q.binding], msg.data.change);
        queries == old(queries)[q.queryId := eff.query]
        && fields == old(fields)[q.binding := eff.mirror]
        && notices == old(notices) + eff.notices
        && fault == eff.fault
    {
      fault := None;
      if msg.Ping? {
        outbox := outbox + [Pong];
      } else if msg.rid.Some? && msg.rid.value in requests {
        Resolve(msg.rid.value, msg.data, now);
      } else if msg.event == "queryResponse" {
        fault := ProcessQueryResponse(msg.data);
      }
    }

    /** The timer sweep at time `now`: reject and forget, in ascending cid order,
        every pending request older than the timeout; keep the rest unchanged. */
    method Sweep(now: int)
      requires Valid()
      modifies this`requests, this`settled
      ensures Valid()
      ensures requests == Survivors(old(requests), now)
      ensures settled == old(settled) + Timeouts(old(requests), Keys.Ascending(old(requests), nextCid), now)
    {
      var ids := Keys.Ascending(requests, nextCid);
      forall cid | cid in requests
        ensures cid in ids
      {
        Keys.AscendingComplete(requests, nextCid, cid);
      }
      PrunedAll(requests, ids, now);
      var left, rejected := SweepPass(requests, ids, now);
      requests := left;
      settled := settled + rejected;
    }
  }
}
