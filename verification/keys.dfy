/** The order in which `Object.keys` lists the keys of the client's registries.
    Both `queries` and `requests` are keyed by positive integers handed out by a
    counter, and `Object.keys` lists integer-like keys in ascending order. */
module Keys {

  /** The keys of `m` that lie in `[1, n)`, in ascending order. */
  function Ascending<V>(m: map<int, V>, n: int): (ids: seq<int>)
    ensures forall i :: 0 <= i < |ids| ==> ids[i] in m && 1 <= ids[i] < n
    ensures forall i, j :: 0 <= i < j < |ids| ==> ids[i] < ids[j]
    decreases n
  {
    if n <= 1 then []
    else Ascending(m, n - 1) + (if n - 1 in m then [n - 1] else [])
  }

  /** The listing misses no key in `[1, n)`. */
  lemma {:induction false} AscendingComplete<V>(m: map<int, V>, n: int, k: int)
    requires k in m && 1 <= k < n
    ensures k in Ascending(m, n)
    decreases n
  {
    if k < n - 1 {
      AscendingComplete(m, n - 1, k);
    }
  }

  /** A strictly increasing sequence has as many elements as its set of values. */
  lemma {:induction false} IncreasingCard(s: seq<int>)
    requires forall i, j :: 0 <= i < j < |s| ==> s[i] < s[j]
    ensures |set x | x in s| == |s|
    decreases |s|
  {
    if s != [] {
      var t := s[..|s| - 1];
      IncreasingCard(t);
      assert s == t + [s[|s| - 1]];
      assert (set x | x in s) == (set x | x in t) + {s[|s| - 1]};
      assert s[|s| - 1] !in (set x | x in t);
    }
  }

  /** When every key lies in `[1, n)`, the listing has one entry per key. */
  lemma AscendingCount<V>(m: map<int, V>, n: int)
    requires forall k :: k in m ==> 1 <= k < n
    ensures |Ascending(m, n)| == |m|
  {
    var ids := Ascending(m, n);
    IncreasingCard(ids);
    forall k | k in m
      ensures k in ids
    {
      AscendingComplete(m, n, k);
    }
    assert (set x | x in ids) == m.Keys;
  }
}
