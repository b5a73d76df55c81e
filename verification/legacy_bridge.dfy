/** The earlier server side of a connection (`manage` in bridge/lib/oldSocket.js):
    a session that must be authenticated before data requests, a map from
    queryIds to feeds, `changes`/`values` registration, `unsub`, and closing the
    feeds on disconnect. Running a query is one abstract step that yields a
    cursor or an error; the id `requireQueryId` generates is a parameter. */
module LegacyBridge {
  import opened Changes

  /** The session record. */
  datatype Session = Session(valid: bool, traderId: string)

  /** What `socket.feeds[queryId]` holds: a cursor, or `undefined` when a
      `values` run failed and stored its missing cursor. */
  datatype Slot = Live(cursor: nat) | Undefined

  /** The parts of a request's params the handlers read. */
  datatype Params = Params(queryId: Option<string>, query: string)

  /** The outcome of running a query. */
  datatype Run = Ran(cursor: nat) | Failed(message: string)

  /** What the handlers answer through `res`. */
  datatype Reply =
    | SessionReply(session: Session)
    | NotAuthenticated
    | UnknownChangesQuery(query: string)
    | UnknownValuesQuery(query: string)
    | UnsubscribedReply(queryId: string)
    | CannotUnsubscribe(given: Option<string>)

  /** `requireQueryId`: a missing or empty queryId is replaced by a generated one;
      a present one is kept. */
  function RequireQueryId(q: Option<string>, generated: string): (id: string)
    ensures q.Some? && q.value != "" ==> id == q.value
    ensures q.None? || q.value == "" ==> id == generated
  {
    if q.None? || q.value == "" then generated else q.value
  }

  /** Assigning an id twice changes nothing the second time: an id once
      assigned is never altered. */
  lemma RequireQueryIdStable(q: Option<string>, generated: string, later: string)
    requires generated != ""
    ensures RequireQueryId(Some(RequireQueryId(q, generated)), later) == RequireQueryId(q, generated)
  {
  }

  /** The key `unsub` looks up: `params.queryId || ''`. */
  function UnsubKey(q: Option<string>): string {
    if q.Some? then q.value else ""
  }

  /** The `disconnect` pass over the feeds in the order `Object.values` lists
      them: each cursor is closed until an `undefined` slot throws. */
  function ClosePass(feeds: map<string, Slot>, order: seq<string>): (r: (seq<nat>, bool))
    requires forall i :: 0 <= i < |order| ==> order[i] in feeds
    decreases |order|
  {
    if order == [] then ([], false)
    else
      var front := ClosePass(feeds, order[..|order| - 1]);
      var slot := feeds[order[|order| - 1]];
      if front.1 then front
      else if slot.Undefined? then (front.0, true)
      else (front.0 + [slot.cursor], false)
  }

  /** `order` lists every key of `feeds` exactly once. */
  predicate Enumerates(feeds: map<string, Slot>, order: seq<string>) {
    && (forall i :: 0 <= i < |order| ==> order[i] in feeds)
    && (forall k :: k in feeds ==> k in order)
    && (forall i, j :: 0 <= i < j < |order| ==> order[i] != order[j])
  }

  /** The pass throws exactly when it reaches an `undefined` slot; when it does
      not throw it closes every listed cursor, in order. */
  lemma {:induction false} ClosePassOutcome(feeds: map<string, Slot>, order: seq<string>)
    requires forall i :: 0 <= i < |order| ==> order[i] in feeds
    ensures ClosePass(feeds, order).1 <==> exists i :: 0 <= i < |order| && feeds[order[i]].Undefined?
    ensures !ClosePass(feeds, order).1 ==>
      ClosePass(feeds, order).0 == seq(|order|, i requires 0 <= i < |order| => feeds[order[i]].cursor)
    decreases |order|
  {
    if order != [] {
      var front := order[..|order| - 1];
      ClosePassOutcome(feeds, front);
      assert forall i :: 0 <= i < |front| ==> front[i] == order[i];
    }
  }

  /** `disconnect` closes every feed when no slot is `undefined`. */
  lemma DisconnectClosesAll(feeds: map<string, Slot>, order: seq<string>)
    requires Enumerates(feeds, order)
    requires forall k :: k in feeds ==> feeds[k].Live?
    ensures !ClosePass(feeds, order).1
    ensures |ClosePass(feeds, order).0| == |feeds|
    ensures forall k :: k in feeds ==> feeds[k].cursor in ClosePass(feeds, order).0
  {
    ClosePassOutcome(feeds, order);
    var closedCursors := ClosePass(feeds, order).0;
    forall k | k in feeds
      ensures feeds[k].cursor in closedCursors
    {
      var i :| 0 <= i < |order| && order[i] == k;
      assert closedCursors[i] == feeds[k].cursor;
    }
    OrderCard(feeds, order);
  }

  /** A listing of every key once has as many entries as the map. */
  lemma OrderCard(feeds: map<string, Slot>, order: seq<string>)
    requires Enumerates(feeds, order)
    ensures |order| == |feeds|
  {
    var keys := set i | 0 <= i < |order| :: order[i];
    assert keys == feeds.Keys;
    IndexSetCard(order);
  }

  /** A sequence without repetitions has as many values as entries. */
  lemma {:induction false} IndexSetCard(order: seq<string>)
    requires forall i, j :: 0 <= i < j < |order| ==> order[i] != order[j]
    ensures |set i | 0 <= i < |order| :: order[i]| == |order|
    decreases |order|
  {
    if order != [] {
      var front := order[..|order| - 1];
      IndexSetCard(front);
      var last := order[|order| - 1];
      assert (set i | 0 <= i < |order| :: order[i]) == (set i | 0 <= i < |front| :: front[i]) + {last};
      assert last !in (set i | 0 <= i < |front| :: front[i]);
    }
  }

  /** One connection. */
  class LegacySocket {
    const changeQueries: set<string>
    const valueQueries: set<string>
    var session: Session
    var feeds: map<string, Slot>
    var replies: seq<Reply>
    var closed: seq<nat>
    /** Whether `disconnect` marked the user inactive. */
    var markedInactive: bool

    /** A new connection: no feeds, not authenticated. */
    constructor (changeQueries: set<string>, valueQueries: set<string>)
      ensures feeds == map[] && session == Session(false, "")
      ensures replies == [] && closed == [] && !markedInactive
      ensures this.changeQueries == changeQueries && this.valueQueries == valueQueries
    {
      this.changeQueries, this.valueQueries := changeQueries, valueQueries;
      feeds := map[];
      session := Session(false, "");
      replies, closed := [], [];
      markedInactive := false;
    }

    /** `auth`: mark the session valid and answer with it. */
    method Auth()
      modifies this`session, this`replies
      ensures session == Session(true, "") && session.valid
      ensures replies == old(replies) + [SessionReply(Session(true, ""))]
    {
      session := Session(true, "");
      replies := replies + [SessionReply(session)];
    }

    /** `requireAuth`: refuse an unauthenticated request. */
    method RequireAuth() returns (ok: bool)
      modifies this`replies
      ensures ok == session.valid
      ensures ok ==> replies == old(replies)
      ensures !ok ==> replies == old(replies) + [NotAuthenticated]
    {
      ok := session.valid;
      if !ok {
        replies := replies + [NotAuthenticated];
      }
    }

    /** `changes`: after authentication and id assignment, a known query whose
        run yields a cursor is stored under its id, replacing any feed already
        there; a failed run stores nothing; an unknown query is refused. */
    method OnChanges(p: Params, generated: string, run: Run)
      modifies this`replies, this`feeds
      ensures !session.valid ==> feeds == old(feeds) && replies == old(replies) + [NotAuthenticated]
      ensures session.valid && p.query !in changeQueries ==>
        feeds == old(feeds) && replies == old(replies) + [UnknownChangesQuery(p.query)]
      ensures session.valid && p.query in changeQueries ==>
        replies == old(replies)
        && feeds == (if run.Ran? then old(feeds)[RequireQueryId(p.queryId, generated) := Live(run.cursor)] else old(feeds))
    {
      var ok := RequireAuth();
      if !ok {
        return;
      }
      var id := RequireQueryId(p.queryId, generated);
      if p.query in changeQueries {
        if run.Ran? {
          feeds := feeds[id := Live(run.cursor)];
        }
      } else {
        replies := replies + [UnknownChangesQuery(p.query)];
      }
    }

    /** `values`: as `changes`, except that the run's error is not checked: a
        failed run stores `undefined` under the id and then throws when it
        iterates the missing cursor. */
    method OnValues(p: Params, generated: string, run: Run) returns (threw: bool)
      modifies this`replies, this`feeds
      ensures !session.valid ==> !threw && feeds == old(feeds) && replies == old(replies) + [NotAuthenticated]
      ensures session.valid && p.query !in valueQueries ==>
        !threw && feeds == old(feeds) && replies == old(replies) + [UnknownValuesQuery(p.query)]
      ensures session.valid && p.query in valueQueries ==>
        && replies == old(replies)
        && threw == run.Failed?
        && feeds == old(feeds)[RequireQueryId(p.queryId, generated) := if run.Ran? then Live(run.cursor) else Undefined]
    {
      threw := false;
      var ok := RequireAuth();
      if !ok {
        return;
      }
      var id := RequireQueryId(p.queryId, generated);
      if p.query in valueQueries {
        if run.Ran? {
          feeds := feeds[id := Live(run.cursor)];
        } else {
          feeds := feeds[id := Undefined];
          threw := true;
        }
      } else {
        replies := replies + [UnknownValuesQuery(p.query)];
      }
    }

    /** `unsub`: a live feed is acknowledged, closed and deleted; an unknown id
        or an `undefined` slot is refused and nothing changes. */
    method Unsub(q: Option<string>)
      modifies this`replies, this`feeds, this`closed
      ensures var key := UnsubKey(q);
        && (key in old(feeds) && old(feeds)[key].Live? ==>
              && replies == old(replies) + [UnsubscribedReply(key)]
              && closed == old(closed) + [old(feeds)[key].cursor]
              && feeds == old(feeds) - {key})
        && (!(key in old(feeds) && old(feeds)[key].Live?) ==>
              replies == old(replies) + [CannotUnsubscribe(q)] && closed == old(closed) && feeds == old(feeds))
    {
      var key := UnsubKey(q);
      if key in feeds && feeds[key].Live? {
        replies := replies + [UnsubscribedReply(key)];
        closed := closed + [feeds[key].cursor];
        feeds := feeds - {key};
      } else {
        replies := replies + [CannotUnsubscribe(q)];
      }
    }

    /** `disconnect`: close the feeds in the order `order` lists them, stopping
        with a throw at an `undefined` slot; a valid session that got through
        is marked inactive. The feed map itself is left as it is. */
    method Disconnect(order: seq<string>) returns (threw: bool)
      requires Enumerates(feeds, order)
      modifies this`closed, this`markedInactive
      ensures threw == ClosePass(feeds, order).1
      ensures closed == old(closed) + ClosePass(feeds, order).0
      ensures markedInactive == (old(markedInactive) || (!threw && session.valid))
    {
      threw := false;
      var i := 0;
      assert order[..0] == [];
      while i < |order| && !threw
        invariant 0 <= i <= |order|
        invariant closed == old(closed) + ClosePass(feeds, order[..i]).0
        invariant threw == ClosePass(feeds, order[..i]).1
        invariant threw ==> ClosePass(feeds, order) == ClosePass(feeds, order[..i])
        invariant markedInactive == old(markedInactive)
        decreases |order| - i
      {
        assert order[..i + 1][..i] == order[..i];
        assert order[..i + 1][i] == order[i];
        var slot := feeds[order[i]];
        if slot.Undefined? {
          threw := true;
        } else {
          closed := closed + [slot.cursor];
        }
        i := i + 1;
        StopsAfterThrow(feeds, order, i);
      }
      if !threw {
        assert order[..i] == order;
        if session.valid {
          markedInactive := true;
        }
      }
    }
  }

  /** Once the pass has thrown, the entries after that point change nothing. */
  lemma {:induction false} StopsAfterThrow(feeds: map<string, Slot>, order: seq<string>, i: int)
    requires forall k :: 0 <= k < |order| ==> order[k] in feeds
    requires 0 <= i <= |order|
    ensures ClosePass(feeds, order[..i]).1 ==> ClosePass(feeds, order) == ClosePass(feeds, order[..i])
    decreases |order| - i
  {
    if i < |order| {
      StopsAfterThrow(feeds, order, i + 1);
      assert order[..i + 1][..i] == order[..i];
    } else {
      assert order[..i] == order;
    }
  }
}
