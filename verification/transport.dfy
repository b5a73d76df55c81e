/** The reconnecting socket the client talks through (`ReconnectingWebsocket` in
    dist/vue-rethinkdb.js): the registry of listeners it re-attaches after every
    reconnection, and the retry counter and `shouldRetry` gate that decide
    whether a closed connection is reopened, and a count of the sockets it has
    created. Timers, delays and the underlying socket object are not
    modelled. */
module Transport {
  import opened Changes

  /** A registered listener: the function (by identity) and its options. */
  datatype Listener = Listener(fn: nat, options: string)

  /** What `handleClose` does: report too many attempts, schedule a reconnection,
      or do nothing more. */
  datatype CloseOutcome = GaveUp | Reconnect | StayClosed

  /** `listeners[type].some(l => l === listener)`. */
  predicate Registered(ls: seq<Listener>, fn: nat) {
    exists i :: 0 <= i < |ls| && ls[i].fn == fn
  }

  /** No function is registered twice for one event type. */
  predicate DistinctFns(ls: seq<Listener>) {
    forall i, j :: 0 <= i < j < |ls| ==> ls[i].fn != ls[j].fn
  }

  /** `listeners[type].filter(l => l !== listener)`. */
  function Without(ls: seq<Listener>, fn: nat): (r: seq<Listener>)
    ensures |r| <= |ls|
    ensures forall i :: 0 <= i < |r| ==> r[i].fn != fn && r[i] in ls
    ensures forall i :: 0 <= i < |ls| && ls[i].fn != fn ==> ls[i] in r
    decreases |ls|
  {
    if ls == [] then []
    else
      var rest := Without(ls[..|ls| - 1], fn);
      var last := ls[|ls| - 1];
      assert forall i :: 0 <= i < |ls| - 1 ==> ls[i] == ls[..|ls| - 1][i];
      if last.fn == fn then rest else rest + [last]
  }

  /** Whether the count of consecutive failed attempts is past the limit
      (`None` is the default limit, `Infinity`). */
  predicate Exceeds(count: nat, maxRetries: Option<nat>) {
    maxRetries.Some? && count > maxRetries.value
  }

  /** The outcome of `handleClose` once the counter has become `count`. */
  function CloseStep(count: nat, shouldRetry: bool, maxRetries: Option<nat>): CloseOutcome {
    if Exceeds(count, maxRetries) then GaveUp
    else if shouldRetry then Reconnect
    else StayClosed
  }

  /** The value `close` gives `shouldRetry`: retrying stays allowed only when the
      caller did not ask to keep the socket closed and the counter `count` is
      not yet past the limit. */
  predicate RetryGate(keepClosed: bool, count: nat, maxRetries: Option<nat>) {
    !keepClosed && !Exceeds(count, maxRetries)
  }

  /** The outcomes of `k` further closes, with no successful open between them,
      starting from the counter value `count`. */
  function CloseRun(count: nat, shouldRetry: bool, maxRetries: Option<nat>, k: nat): (r: seq<CloseOutcome>)
    ensures |r| == k
    ensures forall i :: 0 <= i < k ==> r[i] == CloseStep(count + i + 1, shouldRetry, maxRetries)
    decreases k
  {
    if k == 0 then []
    else CloseRun(count, shouldRetry, maxRetries, k - 1) + [CloseStep(count + k, shouldRetry, maxRetries)]
  }

  /** Filtering out a function that was never registered changes nothing. */
  lemma {:induction false} WithoutUnregistered(ls: seq<Listener>, fn: nat)
    requires !Registered(ls, fn)
    ensures Without(ls, fn) == ls
    decreases |ls|
  {
    if ls != [] {
      var front := ls[..|ls| - 1];
      WithoutUnregistered(front, fn);
      assert ls[|ls| - 1].fn != fn;
      assert ls == front + [ls[|ls| - 1]];
    }
  }

  /** Adding a new listener and removing it again restores the list. */
  lemma AddThenRemove(ls: seq<Listener>, l: Listener)
    requires !Registered(ls, l.fn)
    ensures Without(ls + [l], l.fn) == ls
  {
    assert (ls + [l])[..|ls + [l]| - 1] == ls;
    WithoutUnregistered(ls, l.fn);
  }

  /** Removal keeps the registry free of duplicates. */
  lemma {:induction false} WithoutKeepsDistinct(ls: seq<Listener>, fn: nat)
    requires DistinctFns(ls)
    ensures DistinctFns(Without(ls, fn))
    decreases |ls|
  {
    if ls != [] {
      var front := ls[..|ls| - 1];
      var last := ls[|ls| - 1];
      WithoutKeepsDistinct(front, fn);
      var rest := Without(front, fn);
      if last.fn != fn {
        forall i | 0 <= i < |rest|
          ensures rest[i].fn != last.fn
        {
          var j :| 0 <= j < |front| && front[j] == rest[i];
          assert ls[j] == front[j];
        }
      }
    }
  }

  /** Once the client has given up, every further close gives up as well; with
      the default limit it never gives up. */
  lemma GiveUpIsFinal(count: nat, shouldRetry: bool, maxRetries: Option<nat>, k: nat, i: nat, j: nat)
    requires i <= j < k
    ensures var r := CloseRun(count, shouldRetry, maxRetries, k);
      (r[i] == GaveUp ==> r[j] == GaveUp)
      && (maxRetries.None? ==> r[j] != GaveUp)
      && (r[j] == GaveUp <==> maxRetries.Some? && count + j + 1 > maxRetries.value)
  {
  }

  /** Once a close has asked to keep the socket closed, no later close, however
      many, schedules a reconnection. */
  lemma KeptClosedNeverReconnects(closedAt: nat, count: nat, maxRetries: Option<nat>, k: nat)
    ensures !RetryGate(true, closedAt, maxRetries)
    ensures forall i :: 0 <= i < k ==> CloseRun(count, RetryGate(true, closedAt, maxRetries), maxRetries, k)[i] != Reconnect
  {
  }

  class ReconnectingSocket {
    /** The listeners registered through the wrapper, by event type. */
    var listeners: map<string, seq<Listener>>
    var retriesCount: nat
    var shouldRetry: bool
    /** How many sockets `connect` has created so far. */
    var sockets: nat
    const maxRetries: Option<nat>

    /** Each event type lists each function once. */
    ghost predicate Valid()
      reads this
    {
      forall t :: t in listeners ==> DistinctFns(listeners[t])
    }

    /** A fresh wrapper: no listeners, no retries, retrying allowed; the
        initial `connect()` creates the first socket. */
    constructor (maxRetries: Option<nat>)
      ensures Valid()
      ensures listeners == map[] && retriesCount == 0 && shouldRetry && this.maxRetries == maxRetries
      ensures sockets == 1
    {
      listeners := map[];
      retriesCount := 0;
      shouldRetry := true;
      sockets := 0;
      this.maxRetries := maxRetries;
      new;
      var created := Connect();
    }

    /** `addEventListener`: append the listener unless that function is already
        registered for the type; start a list for a new type. */
    method AddEventListener(t: string, l: Listener)
      requires Valid()
      modifies this`listeners
      ensures Valid()
      ensures t !in old(listeners) ==> listeners == old(listeners)[t := [l]]
      ensures t in old(listeners) && Registered(old(listeners)[t], l.fn) ==> listeners == old(listeners)
      ensures t in old(listeners) && !Registered(old(listeners)[t], l.fn) ==>
        listeners == old(listeners)[t := old(listeners)[t] + [l]]
    {
      if t in listeners {
        var ls := listeners[t];
        var found := false;
        for i := 0 to |ls|
          invariant found <==> Registered(ls[..i], l.fn)
        {
          assert ls[..i + 1] == ls[..i] + [ls[i]];
          if ls[i].fn == l.fn {
            found := true;
          }
        }
        assert ls[..|ls|] == ls;
        if !found {
          listeners := listeners[t := ls + [l]];
        }
      } else {
        listeners := listeners[t := [l]];
      }
    }

    /** `removeEventListener`: drop every entry of that function for the type. */
    method RemoveEventListener(t: string, fn: nat)
      requires Valid()
      modifies this`listeners
      ensures Valid()
      ensures t in old(listeners) ==> listeners == old(listeners)[t := Without(old(listeners)[t], fn)]
      ensures t !in old(listeners) ==> listeners == old(listeners)
    {
      if t in listeners {
        WithoutKeepsDistinct(listeners[t], fn);
        listeners := listeners[t := Without(listeners[t], fn)];
      }
    }

    /** The `open` listener: a successful connection resets the counter. */
    method OnOpen()
      modifies this`retriesCount
      ensures retriesCount == 0
    {
      retriesCount := 0;
    }

    /** `connect`: a new socket is created exactly when retrying is allowed;
        otherwise nothing happens. */
    method Connect() returns (created: bool)
      modifies this`sockets
      ensures created == shouldRetry
      ensures sockets == old(sockets) + (if shouldRetry then 1 else 0)
    {
      created := false;
      if !shouldRetry {
        return;
      }
      sockets := sockets + 1;
      created := true;
    }

    /** `handleClose`: count one more attempt; past the limit, report too many
        attempts; otherwise schedule a reconnection when retrying is allowed. */
    method HandleClose() returns (o: CloseOutcome)
      modifies this`retriesCount
      ensures retriesCount == old(retriesCount) + 1
      ensures o == CloseStep(retriesCount, shouldRetry, maxRetries)
      ensures o == GaveUp <==> Exceeds(retriesCount, maxRetries)
      ensures o == Reconnect <==> !Exceeds(retriesCount, maxRetries) && shouldRetry
    {
      retriesCount := retriesCount + 1;
      if maxRetries.Some? && retriesCount > maxRetries.value {
        o := GaveUp;
        return;
      }
      o := if shouldRetry then Reconnect else StayClosed;
    }

    /** `close`: retrying stays allowed only when the caller did not ask to
        keep the socket closed and the limit is not yet passed; a fast close
        runs `handleClose` at once. Both options are explicit here; the source
        defaults `keepClosed` to false and `fastClose` to true. */
    method Close(keepClosed: bool, fastClose: bool) returns (o: Option<CloseOutcome>)
      modifies this`shouldRetry, this`retriesCount
      ensures shouldRetry == RetryGate(keepClosed, old(retriesCount), maxRetries)
      ensures !fastClose ==> o.None? && retriesCount == old(retriesCount)
      ensures fastClose ==>
        && retriesCount == old(retriesCount) + 1
        && o == Some(CloseStep(retriesCount, shouldRetry, maxRetries))
      ensures keepClosed ==> o != Some(Reconnect)
    {
      shouldRetry := !keepClosed && !(maxRetries.Some? && retriesCount > maxRetries.value);
      o := None;
      if fastClose {
        var step := HandleClose();
        o := Some(step);
      }
    }

    /** `close({keepClosed: true})` followed by the close handler (run at once
        by a fast close, or by the socket's own `close` event otherwise) and by
        any `connect` still pending: no reconnection is scheduled and no socket
        is created. */
    method CloseForGood(fastClose: bool) returns (o: CloseOutcome, created: bool)
      modifies this`shouldRetry, this`retriesCount, this`sockets
      ensures !shouldRetry
      ensures retriesCount == old(retriesCount) + 1
      ensures o == CloseStep(retriesCount, false, maxRetries) && o != Reconnect
      ensures !created && sockets == old(sockets)
    {
      var step := Close(true, fastClose);
      if step.Some? {
        o := step.value;
      } else {
        o := HandleClose();
      }
      created := Connect();
    }
  }
}
