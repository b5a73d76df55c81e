# vue-rethinkdb, modelled in Dafny

vue-rethinkdb keeps fields of Vue components in step with RethinkDB change
feeds. A browser client (`RethinkDB` in `dist/vue-rethinkdb.js`) registers one
query per component field. It sends `subscribeQuery` messages over a
reconnecting WebSocket and then applies each change notification the server
sends back to the field: a whole value for a value query, an array of
documents for a collection query. A bridge server (`bridge/lib/Socket.js`, and
the earlier `bridge/lib/oldSocket.js`) keeps one change feed per subscribed
queryId on each connection. It forwards every change as a `queryResponse`. The
direct-driver helpers `trackCollection` and `trackValue` (`src/index.js` and
its compiled copy `dist/vue-rethinkdb.common.js`) apply the same reconciliation
straight from a cursor.

The model has these modules:

- `Changes`: change notifications (`type`, `old_val`, `new_val`, `old_offset`,
  `new_offset`, `state`), documents keyed by `id`, and the faults a handler can
  throw.
- `Splice`: the array primitives the reconciler uses. These are `splice` with
  JavaScript's offset clamping (a negative offset counts from the end, a large
  one is clamped to the length) and `findIndex` by `id`.
- `Reconcile`: the collection reconciler as a specification function `Apply`
  on a sequence, and its imperative counterpart `Step`. Lemmas state each
  branch's effect on the array (positions, length, multiset, id uniqueness),
  replay over event sequences, and the value mirror.
- `Tracker`: `trackCollection` and `trackValue` as classes holding the mirror.
- `Keys`: the ascending order in which `Object.keys` lists integer-like keys.
- `Correlator`: the expiry rule of pending acknowledged requests.
- `Client`: the client object as a class. It holds the query registry
  (`queries`, `nextQueryId`), the request correlator (`requests`, `nextCid`),
  the bound fields, the stored auth token, and logs of what it sends, which
  promises it settles and which callbacks it fires. Its `open` flag stands for
  the socket's `readyState === OPEN`, which the host changes: the client
  registers no close handler of its own, so `OnOpen` and `OnClose` are the
  host's transitions, and only `OnOpen` also runs the client's `open` listener.
- `Transport`: the reconnecting socket's listener registry, retry counter,
  `shouldRetry` gate and the number of sockets it has created.
- `Bridge`: one connection of `bridge/lib/Socket.js`.
- `LegacyBridge`: one connection of `bridge/lib/oldSocket.js`.

Clocks, timers, the socket and the database are parameters. `now` is passed to
the methods that stamp or sweep requests. A query run is an abstract outcome
given to the handler: a cursor, or an error. The fresh id that `requireQueryId`
draws from `uuid` is a parameter. Component callbacks are recorded as
`Notice`s, not run.

Where the code and its documentation disagree, the model follows the code:

- `bridge/lib/Socket.js` marks every session valid, because its
  `{ valid: false }` fallback is unreachable.
- Its `end` handler only logs. Feeds stay open when a client disconnects.
- The client sends `cid` and matches replies on `rid`. The model keeps a
  single request number. A reply's `rid` is looked up among the stored cids.

## Model

| member | source | states |
|---|---|---|
| Splice.Start | dist/vue-rethinkdb.js:430 | the index `splice` starts at lies within the array, and is the offset itself whenever the offset is in range |
| Splice.RemoveAt | dist/vue-rethinkdb.js:430 | when the clamped start is inside the array, one element goes: the array is one shorter and the element at the start is returned; at the end nothing is removed and nothing is returned |
| Splice.InsertAt | dist/vue-rethinkdb.js:455 | inserting at a clamped offset grows the array by exactly one and puts the new element at the clamped start |
| Splice.FirstIndex | dist/vue-rethinkdb.js:435 | `findIndex` by id finds the first element with that id, and finds nothing exactly when no element has it |
| Splice.RemoveAtInRange | dist/vue-rethinkdb.js:430 | at an in-range offset, the removed element is the one at that offset; elements before it keep their positions and later ones shift left by one |
| Splice.RemoveAtMultiset | dist/vue-rethinkdb.js:430 | an in-range removal takes exactly that element out of the array's multiset |
| Splice.InsertAtMultiset | dist/vue-rethinkdb.js:455 | an insertion adds exactly the new element to the array's multiset |
| Splice.InsertionKeepsUnique | dist/vue-rethinkdb.js:455 | inserting an element whose id is new, at any clamped offset, keeps ids unique |
| Splice.RemovalKeepsUnique | dist/vue-rethinkdb.js:430 | taking one element out of an array with unique ids keeps the ids unique |
| Splice.InsertAtInRange | dist/vue-rethinkdb.js:455 | at an in-range offset, earlier elements stay, the new element lands at the offset, and later ones shift right by one |
| Reconcile.KeyLookup | dist/vue-rethinkdb.js:435-439 | the lookup of `old_val.id` yields the first matching index, or the "unable to apply change" fault exactly when no element has that id; a missing `old_val` on a non-empty array is a type error |
| Reconcile.FindIndex | src/index.js:46 | the loop returns -1 exactly when no element has the key, otherwise the first index whose id matches, and agrees with `FirstIndex` |
| Reconcile.Lookup | src/index.js:46-50 | the imperative lookup gives the same result as `KeyLookup` |
| Reconcile.Step | src/index.js:39-102 | the client's `switch` on the notification type, with its `findIndex` scan, yields the same array and outcome as the specification `Apply`, for every notification |
| Reconcile.RemoveAtOffset | dist/vue-rethinkdb.js:429-433 | `remove`/`uninitial` with an in-range `old_offset` removes exactly that element (reported to `onEntryDeleted` with its offset) and keeps the others in order; the multiset loses exactly that element |
| Reconcile.RemoveAtClampedOffset | dist/vue-rethinkdb.common.js:53-54 | an `old_offset` past the end removes nothing; a negative one no further back than the length removes counting from the end; one further back removes the first element |
| Reconcile.RemoveByKey | dist/vue-rethinkdb.js:434-445 | without an offset, the first element whose id is `old_val.id` is removed, the length drops by one, and the multiset loses exactly that element |
| Reconcile.RemoveMissingKey | src/index.js:45-50 | without an offset, removal throws exactly when no element has `old_val.id`, and then leaves the array unchanged |
| Reconcile.AddAtOffset | dist/vue-rethinkdb.js:453-458 | `add`/`initial` with an in-range `new_offset` inserts `new_val` there and shifts later elements right; the multiset gains exactly `new_val` |
| Reconcile.AddAppends | dist/vue-rethinkdb.js:459-465 | without an offset, `new_val` is appended at the end, the length grows by one, and the index reported is the old length |
| Reconcile.ChangeMove | dist/vue-rethinkdb.js:471-482 | `change` with both offsets keeps the length, puts `new_val` at `new_offset`, keeps every other element in its relative order (the array with `old_offset` removed, split at `new_offset`), and swaps the old element for the new one in the multiset; it is a pure move when the value is unchanged |
| Reconcile.ChangeNewOffsetOnly | dist/vue-rethinkdb.common.js:82-89 | `change` with only `new_offset` inserts `new_val` there, so the array grows by one and its multiset gains exactly `new_val` |
| Reconcile.ChangeReplace | dist/vue-rethinkdb.js:483-497 | `change` without offsets replaces the first id-match in place: same length, every other position unchanged |
| Reconcile.ChangeMissingKey | src/index.js:84-90 | `change` without offsets throws "unable to apply change" with the array unchanged when `old_val.id` is absent, and succeeds when it is present and `new_val` is given |
| Reconcile.ChangeOldOffsetOnly | dist/vue-rethinkdb.common.js:84-100 | `change` with only `old_offset` removes the element first, then cannot find its id any more and throws, leaving the removal in place |
| Reconcile.StateLeavesMirror | dist/vue-rethinkdb.js:502-507 | a `state` notification leaves the array untouched and carries its new state label |
| Reconcile.UnrecognizedThrows | dist/vue-rethinkdb.js:509-510 | a notification throws "unrecognized type" with the array unchanged if and only if its type is none of the handled ones |
| Reconcile.FaultLeavesMirror | src/index.js:47-49 | every throw leaves the array as it was, except the removal a `change` with `old_offset` already made |
| Reconcile.RemoveKeepsKeysUnique | dist/vue-rethinkdb.common.js:50-65 | removals keep ids unique |
| Reconcile.AddKeepsKeysUnique | dist/vue-rethinkdb.common.js:68-79 | adding a document with a new id keeps ids unique |
| Reconcile.ReplaceKeepsKeysUnique | dist/vue-rethinkdb.common.js:91-101 | replacing a document by one with the same id keeps ids unique |
| Reconcile.ChangeMoveKeepsKeysUnique | dist/vue-rethinkdb.common.js:82-89 | a `change` with both offsets whose `new_val` keeps the removed element's id keeps ids unique |
| Reconcile.ChangeInsertKeepsKeysUnique | dist/vue-rethinkdb.common.js:82-89 | a `change` with only `new_offset` whose `new_val` has a new id keeps ids unique |
| Reconcile.InitialLoad | src/index.js:58-70 | a run of `initial` notifications without offsets appends exactly their documents to the array, in arrival order |
| Reconcile.LoadThenChanges | dist/vue-rethinkdb.js:423-499 | after the initial load of an unordered feed, the later notifications are applied, in arrival order, to the loaded documents |
| Reconcile.Scenario | dist/vue-rethinkdb.js:423-499 | on `[{id:1},{id:2},{id:3}]`, a remove at offset 1, an add of `{id:4}` at offset 1 and a change of `{id:4}` by key give `[{id:1},{id:4'},{id:3}]`, step by step and replayed |
| Reconcile.ValueLastWriteWins | src/index.js:20-22 | the value field ends as the last `new_val` received; later notifications without one leave it |
| Reconcile.ValueUntouched | dist/vue-rethinkdb.common.js:30-32 | notifications without `new_val` never change the value field |
| Tracker.CollectionTracker.constructor | src/index.js:29-35 | the collection mirror starts as an empty array |
| Tracker.CollectionTracker.OnChange | src/index.js:37-103 | each cursor notification edits the entries array as `Apply` says, and reports a fault exactly when `Apply` throws |
| Tracker.ValueTracker.constructor | dist/vue-rethinkdb.common.js:18-23 | the value mirror starts as `{}` |
| Tracker.ValueTracker.OnChange | src/index.js:15-23 | a cursor error throws and leaves the value; otherwise a present `new_val` replaces it and anything else leaves it |
| Keys.Ascending | dist/vue-rethinkdb.js:304 | the listing holds only keys of the map, in strictly increasing order |
| Keys.AscendingComplete | dist/vue-rethinkdb.js:360 | the listing misses no key in range |
| Keys.AscendingCount | dist/vue-rethinkdb.js:360 | when all keys are in range, the listing has one entry per key |
| Correlator.SweepSplits | dist/vue-rethinkdb.js:302-312 | a sweep splits the pending requests into the expired ones, which are rejected, and the others, which are kept unchanged |
| Correlator.RejectedOnce | dist/vue-rethinkdb.js:306-310 | a request a sweep has rejected is gone for every later sweep, and a later sweep rejects only newly expired ones |
| Correlator.RejectingSweep | dist/vue-rethinkdb.js:302-312 | on a schedule of sweeps 1000 ms apart, the sweep that rejects a request comes after its 3000 ms have passed, at most one interval later, and is a scheduled sweep |
| Client.SubscribeFramesContent | dist/vue-rethinkdb.js:358-370 | re-subscribing a list sends, at position `i`, a `subscribeQuery` for the `i`-th query with its own queryId, name and params, on the `i`-th consecutive cid |
| Client.UnsubscribeFramesContent | dist/vue-rethinkdb.js:372-390 | unsubscribing a component sends, at position `i`, an `unsubscribeQuery` for the `i`-th query's id, on the `i`-th consecutive cid |
| Client.ClearAll | dist/vue-rethinkdb.js:375 | unsubscribing clears fields but never adds or removes one |
| Client.Pruned | dist/vue-rethinkdb.js:304-311 | a partial sweep only ever removes pending requests |
| Client.PrunedStep | dist/vue-rethinkdb.js:305-310 | visiting one more cid removes it exactly when it is pending and expired |
| Client.PrunedAll | dist/vue-rethinkdb.js:304 | a sweep that visited every pending cid leaves exactly the requests that have not expired |
| Client.SweepPass | dist/vue-rethinkdb.js:302-312 | the loop over the listed cids leaves the pruned requests and rejects the visited expired ones, in listing order |
| Client.ListedCoversRegistry | dist/vue-rethinkdb.js:360 | `Object.keys` over the registry lists every registered query once, each under its own id, in ascending id order |
| Client.ResubscribeCoversRegistry | dist/vue-rethinkdb.js:358-370 | after a reconnect one frame goes out per registered query, and every registered query is re-subscribed with its own id, name and params |
| Client.ResubscribeInOrder | dist/vue-rethinkdb.js:358-370 | the re-subscriptions go out on consecutive cids, each for a registered query under its own id, in strictly ascending id order, so none is subscribed twice |
| Client.TimeoutsExactly | dist/vue-rethinkdb.js:305-310 | the rejections of a sweep name exactly the visited cids whose requests expired |
| Client.SweepRejectsExpired | dist/vue-rethinkdb.js:302-312 | a sweep rejects a request if and only if it has expired |
| Client.ClearAllEffect | dist/vue-rethinkdb.js:372-390 | `unsubscribeAll` clears each query's field as `unsubscribe` does and leaves every other field alone |
| Client.UnsubscribeRestoresField | dist/vue-rethinkdb.js:336-342 | unsubscribing leaves a field as registering it did: `{}` for a value, `[]` for a collection |
| Client.ValueResponseShape | dist/vue-rethinkdb.js:406-421 | a value response keeps the query's identity, changes its state only on a `state` notification, fires at most one callback and only one the query was given, never throws, and applied twice leaves the field as applied once |
| Client.CollectionResponseShape | dist/vue-rethinkdb.js:423-511 | a collection response keeps the query's identity, changes its state only on a `state` notification, fires at most one callback and only one the query was given, and throws exactly when the field holds no array or the array edit throws |
| Client.RethinkClient.constructor | dist/vue-rethinkdb.js:228-240 | the client starts with both counters at 1, nothing registered or pending, and no token |
| Client.RethinkClient.Emit | dist/vue-rethinkdb.js:543-555 | when the socket is open one message is sent with the next cid, which is used up; otherwise nothing happens |
| Client.RethinkClient.EmitAck | dist/vue-rethinkdb.js:564-588 | when not open, it rejects at once and stores nothing; otherwise it takes `cid = nextCid`, which was not pending, increments `nextCid`, stores exactly one request stamped `now`, and sends the message |
| Client.RethinkClient.OnOpen | dist/vue-rethinkdb.js:267-273 | on open the client sends `#handshake` and waits for its reply |
| Client.RethinkClient.Authenticate | dist/vue-rethinkdb.js:521-535 | `null` clears the stored token and a truthy one replaces it; an `auth` request is sent exactly when a truthy token is stored and the socket is open |
| Client.RethinkClient.SendAuth | dist/vue-rethinkdb.js:527-534 | the stored token is sent exactly when it is truthy and the socket is open |
| Client.RethinkClient.Subscribe | dist/vue-rethinkdb.js:365-370 | an open socket gets one `subscribeQuery` with the query's id, name and params |
| Client.RethinkClient.SubscribeAll | dist/vue-rethinkdb.js:358-363 | every registered query is re-subscribed in ascending queryId order, one cid each |
| Client.RethinkClient.SubscribeEach | dist/vue-rethinkdb.js:360 | the `forEach(subscribe)` sends the frames of the list in list order, one cid each, and nothing when the socket is closed |
| Client.RethinkClient.RegisterField | dist/vue-rethinkdb.js:315-356 | the queryId is the old `nextQueryId`, which is always incremented; a value field becomes `{}`, a collection field `[]`, anything else throws and records nothing; the query is recorded in state `initializing` and subscribed |
| Client.RethinkClient.Unsubscribe | dist/vue-rethinkdb.js:380-390 | the field is cleared, that queryId and no other is deleted, then `unsubscribeQuery` is sent |
| Client.RethinkClient.RegisterThenUnsubscribe | dist/vue-rethinkdb.js:315-390 | `registerField` followed by `unsubscribe` of the query it registered leaves the registry as it was and the field holding the fresh `{}` or `[]`; while open, the server is sent the `subscribeQuery` frame and then the `unsubscribeQuery` frame with the next cid; an invalid configuration changes nothing but the queryId counter |
| Client.RethinkClient.UnsubscribeAll | dist/vue-rethinkdb.js:372-378 | each of the component's queries is unsubscribed in turn |
| Client.RethinkClient.ProcessValueResponse | dist/vue-rethinkdb.js:406-421 | a `state` notification changes only the query's state; a `new_val` replaces the field; anything else changes nothing |
| Client.RethinkClient.ProcessCollectionResponse | dist/vue-rethinkdb.js:423-511 | the field's array is edited as `Apply` says, with the matching callback; `state` changes only the query's state; unknown types throw |
| Client.RethinkClient.ProcessQueryResponse | dist/vue-rethinkdb.js:392-404 | a response is dispatched by its query's type; a response for an unknown queryId is ignored and changes nothing |
| Client.RethinkClient.ResumeAfterHandshake | dist/vue-rethinkdb.js:269-271 | after the handshake reply the client sends `auth` with the stored token (when truthy) and then one `subscribeQuery` per registered query, on consecutive cids; only the `auth` request is stored as pending |
| Client.RethinkClient.Resolve | dist/vue-rethinkdb.js:284-290 | a reply settles exactly the request with its id and deletes it; any other reply sends nothing; a handshake reply continues with authentication and re-subscription |
| Client.RethinkClient.HandleMessage | dist/vue-rethinkdb.js:275-299 | a heartbeat is answered and nothing else changes; a reply to a pending request resolves and deletes it, and a handshake reply also sends the resumption frames and records the authentication request; otherwise a `queryResponse` for a registered query has exactly the effect of that query's value or collection response handler, one for an unknown query changes nothing, and any other message changes nothing |
| Client.RethinkClient.Sweep | dist/vue-rethinkdb.js:302-312 | the sweep deletes exactly the requests with `now > timestamp + 3000`, rejecting them in ascending cid order, and keeps the rest unchanged |
| Transport.Without | dist/vue-rethinkdb.js:215-221 | removing a listener drops every entry of that function and keeps every other one |
| Transport.CloseRun | dist/vue-rethinkdb.js:107-125 | each close in a run without a successful open counts one more attempt |
| Transport.WithoutUnregistered | dist/vue-rethinkdb.js:217-220 | removing a function that was never added changes nothing |
| Transport.AddThenRemove | dist/vue-rethinkdb.js:201-221 | adding a new listener and removing it again restores the list |
| Transport.WithoutKeepsDistinct | dist/vue-rethinkdb.js:215-221 | removal keeps each function registered at most once |
| Transport.GiveUpIsFinal | dist/vue-rethinkdb.js:110-113 | once the retry limit is passed every further close gives up; with the default `Infinity` limit it never gives up |
| Transport.ReconnectingSocket.constructor | dist/vue-rethinkdb.js:64-68 | a new wrapper has no listeners, no retries, retrying allowed, and exactly one socket, created by the initial `connect()` |
| Transport.ReconnectingSocket.AddEventListener | dist/vue-rethinkdb.js:201-214 | a listener is appended unless that function is already registered for the type, so no function is listed twice |
| Transport.ReconnectingSocket.RemoveEventListener | dist/vue-rethinkdb.js:215-223 | every entry of that function for the type is filtered out |
| Transport.ReconnectingSocket.OnOpen | dist/vue-rethinkdb.js:146-152 | a successful open resets the retry counter to 0 |
| Transport.ReconnectingSocket.Connect | dist/vue-rethinkdb.js:126-133 | the socket count grows by one exactly when retrying is allowed, and nothing changes otherwise |
| Transport.ReconnectingSocket.HandleClose | dist/vue-rethinkdb.js:107-125 | each close counts one attempt; past `maxRetries` the client gives up, otherwise it reconnects exactly when retrying is allowed |
| Transport.ReconnectingSocket.Close | dist/vue-rethinkdb.js:161-180 | retrying stays allowed only when not kept closed and within the limit; a kept-closed socket never reconnects; a fast close counts an attempt at once |
| Transport.KeptClosedNeverReconnects | dist/vue-rethinkdb.js:107-125 | after a close that keeps the socket closed, retrying is not allowed, so no later close in the run schedules a reconnection |
| Transport.ReconnectingSocket.CloseForGood | dist/vue-rethinkdb.js:126-180 | a close that keeps the socket closed, followed by the close handler (fast or not) and any pending `connect`, counts one attempt, schedules no reconnection and creates no socket |
| Bridge.SessionFor | bridge/lib/Socket.js:25 | every session is marked valid, with or without a token, and carries the token's claims |
| Bridge.SubscriptionOutcome | bridge/lib/Socket.js:82-112 | a feed is opened if and only if the queryId is truthy and new, the query is known for its type and the run yields a cursor; otherwise the feeds are unchanged and exactly one error is written: the missing-or-duplicate queryId error, else the unknown-query error, else the invalid-query error carrying the run's message |
| Bridge.UnsubscribeTwice | bridge/lib/Socket.js:114-126 | a second unsubscribe of the same queryId is reported unknown and changes nothing |
| Bridge.SubscribeThenUnsubscribe | bridge/lib/Socket.js:97-124 | a feed opened and then unsubscribed leaves the feeds as before and closes exactly its cursor |
| Bridge.HandleKeepsKeysTruthy | bridge/lib/Socket.js:39-131 | no feed is ever stored under a falsy queryId; only `unsubscribe` closes cursors; an operation event runs only its handler; a handshake is echoed with its `rid` |
| Bridge.Spark.constructor | bridge/lib/Socket.js:20-28 | a new connection has a valid session and no feeds |
| Bridge.Spark.Subscribe | bridge/lib/Socket.js:50-112 | `subscribe` and `once` update the feeds and write as the subscription rule says |
| Bridge.Spark.Unsubscribe | bridge/lib/Socket.js:114-126 | a known queryId is acknowledged, its cursor closed and only that key deleted; an unknown one is reported |
| Bridge.Spark.OnData | bridge/lib/Socket.js:31-132 | the data handler dispatches operation events first and then switches on the event |
| Bridge.Spark.Deliver | bridge/lib/Socket.js:102-105 | a change on an open feed is written as a `queryResponse` carrying its type and queryId |
| LegacyBridge.RequireQueryId | bridge/lib/oldSocket.js:48-53 | a missing or empty queryId is replaced by a fresh one, and a present one is kept |
| LegacyBridge.RequireQueryIdStable | bridge/lib/oldSocket.js:48-53 | with a non-empty generated id, assigning an id a second time never alters the first assignment |
| LegacyBridge.ClosePassOutcome | bridge/lib/oldSocket.js:145-147 | the disconnect pass throws exactly when it meets an `undefined` slot; otherwise it closes every listed cursor in order |
| LegacyBridge.DisconnectClosesAll | bridge/lib/oldSocket.js:144-147 | when every slot holds a cursor, disconnect closes every feed, one close per feed |
| LegacyBridge.StopsAfterThrow | bridge/lib/oldSocket.js:147 | once a close throws, the rest of the pass does nothing |
| LegacyBridge.LegacySocket.constructor | bridge/lib/oldSocket.js:20-24 | a new connection has no feeds and an invalid session |
| LegacyBridge.LegacySocket.Auth | bridge/lib/oldSocket.js:27-46 | `auth` marks the session valid and replies with it |
| LegacyBridge.LegacySocket.RequireAuth | bridge/lib/oldSocket.js:55-63 | a request passes exactly when the session is valid, with no reply; otherwise it is refused with one error reply |
| LegacyBridge.LegacySocket.OnChanges | bridge/lib/oldSocket.js:65-87 | an unauthenticated request registers nothing; an unknown query is refused; a successful run stores its cursor under the id, overwriting any earlier feed; a failed run stores nothing |
| LegacyBridge.LegacySocket.OnValues | bridge/lib/oldSocket.js:89-106 | as `changes`, except that a failed run stores an `undefined` slot under the id and throws |
| LegacyBridge.LegacySocket.Unsub | bridge/lib/oldSocket.js:108-121 | a live feed is acknowledged, closed and deleted; an unknown id or an `undefined` slot is refused and nothing changes |
| LegacyBridge.LegacySocket.Disconnect | bridge/lib/oldSocket.js:144-152 | the feeds are closed in listing order until an `undefined` slot throws; a valid session that got through is marked inactive |

## Left out

- Reconcile.Step: an `add`, `initial` or `change` notification without `new_val` throws `MissingNewValue` in the model. The source inserts or writes `undefined` into the array. Documents are not optional in the model's arrays.
- Tracker.CollectionTracker.OnChange: the cursor's `err` argument is not modelled. On an error the source reads `type` from a missing change and throws a type error.
- Client.RethinkClient.Resolve: the handshake continuation runs in the same step as the reply. In the source it runs on later promise callbacks, so other messages can come between.
- Client.RethinkClient.HandleMessage: a message that is not valid JSON throws in the source. The model takes messages already decoded. Log output for unhandled messages is not modelled.
- Client.RethinkClient.UnsubscribeAll: the component's `$rethinkQueries` list, which the source empties afterwards, is not modelled. It belongs to the Vue integration.
- Client.RethinkClient.RegisterField: a value query with neither `query` nor `collection` has the name `undefined` in the source. The model uses the empty name.
- Component callbacks are recorded as notices and not called. Promises are modelled as the log of settlements.
- Vue integration (`install`, the mixin, `defineReactive`), `trackField`'s cursor sniffing and `getConnection`: these are UI and driver plumbing.
- Reconnection delays (`Math.random()` and a float growth factor), timers and the connection timeout: these are randomness, floating point and clocks. Sweeps and closes are explicit calls.
- Transport.ReconnectingSocket.AddEventListener: forwarding to the underlying socket, re-attaching listeners on reconnection, level-0 `on*` handlers, fake close events and the deferred error event are not modelled. These are host-object plumbing.
- Bridge.Spark.OnData: operation handlers (`bridge/lib/operations`) are recorded as calls, not run. The ReQL builders that turn a query name and params into a query are not part of this model.
- Bridge.Spark.Subscribe: the duplicate check and the cursor's arrival are one atomic step. In the source, two subscriptions with the same queryId can both pass the check while their runs are still pending.
- LegacyBridge.LegacySocket.OnChanges: the `change` and `value` events a cursor emits are not modelled. Neither is the fact that a cursor overwritten by a later request with the same id stays open.
- LegacyBridge.LegacySocket.Disconnect: `markUserInactive` is recorded as a flag. The listing order of `Object.values` is a parameter.
- The `message`, `error`, `connectAbort` and `badAuthToken` handlers of `bridge/lib/oldSocket.js` and the `end` handler of `bridge/lib/Socket.js` only log, so they are left out.
- Database connection, logging, JSON encoding, the Authorizor, server bootstrapping and the tests are left out. They are outside the reconciliation and bookkeeping logic.
