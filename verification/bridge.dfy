/** The server side of a connection (`handleConnection` in bridge/lib/Socket.js):
    each connection keeps a session record and a map from the client's queryIds
    to open change feeds, and answers `handshake`, `subscribe`/`once` and
    `unsubscribe` messages. Running a query is one abstract step that yields a
    cursor or an error. */
module Bridge {
  import opened Changes

  type Params = map<string, string>

  /** The session record: the decoded token's claims and the `valid` flag. */
  datatype Session = Session(valid: bool, claims: map<string, string>)

  /** The outcome of building and running a query: a cursor, an exception while
      building it, or a rejected run. */
  datatype Construction = Opened(cursor: nat) | ThrewSync(message: string) | RejectedAsync(message: string)

  /** An open feed: its cursor, and the `type` the client gave when subscribing. */
  datatype Feed = Feed(cursor: nat, kind: string)

  /** The `data` of a client message. */
  datatype Request = Request(queryId: Option<int>, kind: string, query: string, params: Option<Params>)

  /** A client message `{rid, event, data}`. */
  datatype Message = Message(rid: Option<int>, event: string, data: Request)

  /** What the server writes to the client. */
  datatype Output =
    | HandshakeReply(rid: Option<int>)
    | MissingOrDuplicateQueryId(given: Option<int>)
    | UnknownQuery(query: string)
    | InvalidQuery(message: string)
    | Unsubscribed(queryId: int)
    | UnknownQueryId(given: Option<int>)
    | QueryResponse(kind: string, queryId: int, change: ChangeEvent)

  /** A message handed to an API operation handler. */
  datatype Call = Call(event: string, rid: Option<int>, data: Request)

  /** What handling one message does: the feeds afterwards, what is written,
      which cursors are closed and which operations are called, in order. */
  datatype Effect = Effect(feeds: map<int, Feed>, written: seq<Output>, closed: seq<nat>, calls: seq<Call>)

  /** A queryId passes `!queryId` only when present and non-zero. */
  predicate Truthy(q: Option<int>) {
    q.Some? && q.value != 0
  }

  /** The session of a new connection: the decoded token's claims, spread into
      a fresh object whose `valid` is then set to true (overriding any claim of
      that name). An object is always truthy, so the `{ valid: false }`
      fallback of the `||` is never taken, with or without a token. */
  function SessionFor(decoded: Option<map<string, string>>): (s: Session)
    ensures s.valid
    ensures decoded.Some? ==> s.claims == decoded.value - {"valid"}
    ensures decoded.None? ==> s.claims == map[]
  {
    var claims := if decoded.Some? then decoded.value - {"valid"} else map[];
    Session(true, claims)
  }

  /** `subscribe` and `once`: the queryId must be truthy and not already open;
      the query must be known to the handler table of its kind (`collection`
      selects the collection queries, anything else the value queries); then
      the query runs, and only a cursor is recorded. */
  function Subscription(feeds: map<int, Feed>, collections: set<string>, values: set<string>,
                        d: Request, c: Construction): Effect
  {
    if !Truthy(d.queryId) || d.queryId.value in feeds then
      Effect(feeds, [MissingOrDuplicateQueryId(d.queryId)], [], [])
    else if d.query !in (if d.kind == "collection" then collections else values) then
      Effect(feeds, [UnknownQuery(d.query)], [], [])
    else match c
      case Opened(cursor) => Effect(feeds[d.queryId.value := Feed(cursor, d.kind)], [], [], [])
      case ThrewSync(m) => Effect(feeds, [InvalidQuery(m)], [], [])
      case RejectedAsync(m) => Effect(feeds, [InvalidQuery(m)], [], [])
  }

  /** `unsubscribe`: a known queryId is reported, its cursor closed and its
      entry deleted; anything else is reported as unknown. */
  function Unsubscription(feeds: map<int, Feed>, q: Option<int>): Effect {
    if q.Some? && q.value in feeds then
      Effect(feeds - {q.value}, [Unsubscribed(q.value)], [feeds[q.value].cursor], [])
    else
      Effect(feeds, [UnknownQueryId(q)], [], [])
  }

  /** The `data` handler: an event with an operation handler goes there and
      nothing else runs; otherwise the `switch` on the event. */
  function Handle(operations: set<string>, collections: set<string>, values: set<string>,
                  feeds: map<int, Feed>, msg: Message, c: Construction): Effect
  {
    if msg.event in operations then Effect(feeds, [], [], [Call(msg.event, msg.rid, msg.data)])
    else if msg.event == "handshake" then Effect(feeds, [HandshakeReply(msg.rid)], [], [])
    else if msg.event == "once" || msg.event == "subscribe" then Subscription(feeds, collections, values, msg.data, c)
    else if msg.event == "unsubscribe" then Unsubscription(feeds, msg.data.queryId)
    else Effect(feeds, [], [], [])
  }

  /** A subscription opens a feed exactly when the queryId is truthy and new,
      the query is known and the run yields a cursor; every other case writes
      the error of the first check that failed and leaves the feeds as they
      were. */
  lemma SubscriptionOutcome(feeds: map<int, Feed>, collections: set<string>, values: set<string>,
                            d: Request, c: Construction)
    ensures var r := Subscription(feeds, collections, values, d, c);
      && (r.feeds != feeds <==>
            Truthy(d.queryId) && d.queryId.value !in feeds
            && d.query in (if d.kind == "collection" then collections else values) && c.Opened?)
      && (r.feeds != feeds ==> r.feeds == feeds[d.queryId.value := Feed(c.cursor, d.kind)] && r.written == [])
      && (r.feeds == feeds ==> |r.written| == 1 && !r.written[0].HandshakeReply?)
      && (!Truthy(d.queryId) || d.queryId.value in feeds ==>
            r.feeds == feeds && r.written == [MissingOrDuplicateQueryId(d.queryId)])
      && (Truthy(d.queryId) && d.queryId.value !in feeds
          && d.query !in (if d.kind == "collection" then collections else values) ==>
            r.feeds == feeds && r.written == [UnknownQuery(d.query)])
      && (Truthy(d.queryId) && d.queryId.value !in feeds
          && d.query in (if d.kind == "collection" then collections else values) && !c.Opened? ==>
            r.feeds == feeds && r.written == [InvalidQuery(c.message)])
      && r.closed == [] && r.calls == []
  {
    var r := Subscription(feeds, collections, values, d, c);
    if Truthy(d.queryId) && d.queryId.value !in feeds
       && d.query in (if d.kind == "collection" then collections else values) && c.Opened? {
      assert d.queryId.value in r.feeds;
    }
  }

  /** Unsubscribing the same queryId twice: the second one is reported unknown
      and changes nothing. */
  lemma UnsubscribeTwice(feeds: map<int, Feed>, q: Option<int>)
    ensures var once := Unsubscription(feeds, q);
      var twice := Unsubscription(once.feeds, q);
      twice.feeds == once.feeds && twice.written == [UnknownQueryId(q)] && twice.closed == []
  {
  }

  /** A feed opened and then unsubscribed leaves the feeds as they were and
      closes exactly its cursor. */
  lemma SubscribeThenUnsubscribe(feeds: map<int, Feed>, collections: set<string>, values: set<string>,
                                 d: Request, cursor: nat)
    requires Truthy(d.queryId) && d.queryId.value !in feeds
    requires d.query in (if d.kind == "collection" then collections else values)
    ensures var sub := Subscription(feeds, collections, values, d, Opened(cursor));
      var r := Unsubscription(sub.feeds, d.queryId);
      r.feeds == feeds && r.closed == [cursor] && r.written == [Unsubscribed(d.queryId.value)]
  {
    var sub := Subscription(feeds, collections, values, d, Opened(cursor));
    assert sub.feeds - {d.queryId.value} == feeds;
  }

  /** No feed is ever stored under a falsy queryId, and only `unsubscribe`
      closes cursors; an operation event touches nothing but its call. */
  lemma HandleKeepsKeysTruthy(operations: set<string>, collections: set<string>, values: set<string>,
                              feeds: map<int, Feed>, msg: Message, c: Construction)
    requires 0 !in feeds
    ensures var r := Handle(operations, collections, values, feeds, msg, c);
      && 0 !in r.feeds
      && (r.closed != [] ==> msg.event == "unsubscribe" && msg.event !in operations)
      && (msg.event in operations ==> r.feeds == feeds && r.written == [] && r.calls == [Call(msg.event, msg.rid, msg.data)])
      && (msg.event == "handshake" && msg.event !in operations ==> r.written == [HandshakeReply(msg.rid)])
  {
  }

  /** One client connection. */
  class Spark {
    const operations: set<string>
    const collections: set<string>
    const values: set<string>
    var session: Session
    var feeds: map<int, Feed>
    var written: seq<Output>
    var closed: seq<nat>
    var calls: seq<Call>

    /** No feed sits under a falsy queryId. */
    ghost predicate Valid()
      reads this
    {
      0 !in feeds
    }

    /** A new connection: the session from the decoded token, no feeds yet. */
    constructor (decoded: Option<map<string, string>>, operations: set<string>,
                 collections: set<string>, values: set<string>)
      ensures Valid()
      ensures session == SessionFor(decoded) && session.valid
      ensures feeds == map[] && written == [] && closed == [] && calls == []
      ensures this.operations == operations && this.collections == collections && this.values == values
    {
      this.operations, this.collections, this.values := operations, collections, values;
      session := SessionFor(decoded);
      feeds := map[];
      written, closed, calls := [], [], [];
    }

    /** `subscribe` or `once`. */
    method Subscribe(d: Request, c: Construction)
      requires Valid()
      modifies this`feeds, this`written
      ensures Valid()
      ensures var r := Subscription(old(feeds), collections, values, d, c);
        feeds == r.feeds && written == old(written) + r.written
    {
      if !(d.queryId.Some? && d.queryId.value != 0) || d.queryId.value in feeds {
        written := written + [MissingOrDuplicateQueryId(d.queryId)];
        return;
      }
      var handlers := if d.kind == "collection" then collections else values;
      if d.query !in handlers {
        written := written + [UnknownQuery(d.query)];
        return;
      }
      match c {
        case Opened(cursor) =>
          feeds := feeds[d.queryId.value := Feed(cursor, d.kind)];
        case ThrewSync(m) =>
          written := written + [InvalidQuery(m)];
        case RejectedAsync(m) =>
          written := written + [InvalidQuery(m)];
      }
    }

    /** `unsubscribe`. */
    method Unsubscribe(q: Option<int>)
      requires Valid()
      modifies this`feeds, this`written, this`closed
      ensures Valid()
      ensures var r := Unsubscription(old(feeds), q);
        feeds == r.feeds && written == old(written) + r.written && closed == old(closed) + r.closed
    {
      if q.Some? && q.value in feeds {
        var feed := feeds[q.value];
        written := written + [Unsubscribed(q.value)];
        closed := closed + [feed.cursor];
        feeds := feeds - {q.value};
      } else {
        written := written + [UnknownQueryId(q)];
      }
    }

    /** The `data` handler; `c` is what running the message's query yields. */
    method OnData(msg: Message, c: Construction)
      requires Valid()
      modifies this`feeds, this`written, this`closed, this`calls
      ensures Valid()
      ensures var r := Handle(operations, collections, values, old(feeds), msg, c);
        && feeds == r.feeds && written == old(written) + r.written
        && closed == old(closed) + r.closed && calls == old(calls) + r.calls
    {
      if msg.event in operations {
        calls := calls + [Call(msg.event, msg.rid, msg.data)];
        return;
      }
      if msg.event == "handshake" {
        written := written + [HandshakeReply(msg.rid)];
      } else if msg.event == "once" || msg.event == "subscribe" {
        Subscribe(msg.data, c);
      } else if msg.event == "unsubscribe" {
        Unsubscribe(msg.data.queryId);
      }
    }

    /** A change arriving on the feed of `queryId` is written to the client as a
        `queryResponse` carrying the subscription's type; a closed feed sends
        nothing. */
    method Deliver(queryId: int, change: ChangeEvent)
      modifies this`written
      ensures queryId in feeds ==> written == old(written) + [QueryResponse(feeds[queryId].kind, queryId, change)]
      ensures queryId !in feeds ==> written == old(written)
    {
      if queryId in feeds {
        written := written + [QueryResponse(feeds[queryId].kind, queryId, change)];
      }
    }
  }
}
