/** The expiry rule of the client's pending acknowledged requests: a sweep runs
    every second and rejects every request sent more than three seconds before. */
module Correlator {

  /** How long a request may wait for its reply, in milliseconds. */
  const Timeout: int := 3000

  /** How often the sweep runs, in milliseconds. */
  const SweepInterval: int := 1000

  /** What the caller of `emitAck` does once the reply arrives: the `open`
      handler continues a handshake with authentication and re-subscription;
      an authentication reply is only logged; any other call goes to its caller. */
  datatype Purpose = Handshake | Authentication | Call

  /** A pending request: when it was sent, and who waits for it. */
  datatype Request = Request(timestamp: int, purpose: Purpose)

  /** The sweep's test: `now > timestamp + 3000`. */
  predicate Expired(r: Request, now: int) {
    now > r.timestamp + Timeout
  }

  /** The pending requests a sweep at `now` keeps. */
  function Survivors(reqs: map<int, Request>, now: int): map<int, Request>
  {
    map cid | cid in reqs && !Expired(reqs[cid], now) :: reqs[cid]
  }

  /** The requests a sweep at `now` rejects. */
  function ExpiredIds(reqs: map<int, Request>, now: int): set<int>
  {
    set cid | cid in reqs && Expired(reqs[cid], now)
  }

  /** A sweep splits the pending requests in two: the ones it rejects and the
      ones it keeps unchanged. */
  lemma SweepSplits(reqs: map<int, Request>, now: int)
    ensures Survivors(reqs, now).Keys !! ExpiredIds(reqs, now)
    ensures Survivors(reqs, now).Keys + ExpiredIds(reqs, now) == reqs.Keys
    ensures |Survivors(reqs, now)| + |ExpiredIds(reqs, now)| == |reqs|
    ensures forall cid :: cid in Survivors(reqs, now) ==> Survivors(reqs, now)[cid] == reqs[cid]
  {
    var kept := Survivors(reqs, now).Keys;
    var gone := ExpiredIds(reqs, now);
    assert kept + gone == reqs.Keys;
    assert |kept + gone| == |kept| + |gone|;
  }

  /** A request is rejected at most once: nothing a sweep rejects is still there
      for a later sweep, and a later sweep only rejects more. */
  lemma RejectedOnce(reqs: map<int, Request>, now: int, later: int)
    requires now <= later
    ensures ExpiredIds(reqs, now) !! Survivors(reqs, now).Keys
    ensures ExpiredIds(Survivors(reqs, now), later) == ExpiredIds(reqs, later) - ExpiredIds(reqs, now)
  {
  }

  /** The time of the sweep, on a schedule `t, t + 1000, t + 2000, ...`, that
      rejects a request sent at `sent`. */
  function RejectingSweep(sent: int, t: int): (r: int)
    ensures r > sent + Timeout
    ensures t <= sent + Timeout ==> r <= sent + Timeout + SweepInterval
    ensures t > sent + Timeout ==> r == t
    ensures (r - t) % SweepInterval == 0
    decreases sent + Timeout - t + SweepInterval
  {
    if t > sent + Timeout then t else RejectingSweep(sent, t + SweepInterval)
  }
}
