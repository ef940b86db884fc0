/** Recent first-audio latencies in microseconds (apps/voice-gateway/internal/adapters/voice/server.go). */
module LatencyWindow {
  import opened Basics

  const MAX_SAMPLES: nat := 1024

  datatype Ring = Ring(values: seq<int>, next: nat)

  predicate Valid(r: Ring) {
    |r.values| <= MAX_SAMPLES && if |r.values| < MAX_SAMPLES then r.next == 0 else r.next < MAX_SAMPLES
  }

  function Adding(r: Ring, sample: int): (r': Ring)
    requires Valid(r)
    ensures Valid(r')
  {
    if |r.values| < MAX_SAMPLES then r.(values := r.values + [sample])
    else Ring(r.values[r.next := sample], (r.next + 1) % |r.values|)
  }

  function Added(samples: seq<int>): (r: Ring)
    ensures Valid(r)
  {
    if samples == [] then Ring([], 0) else Adding(Added(samples[..|samples| - 1]), samples[|samples| - 1])
  }

  function Last(samples: seq<int>, n: nat): seq<int> {
    if |samples| <= n then samples else samples[|samples| - n..]
  }

  /** The ring read from its oldest sample. */
  function Unrolled(r: Ring): seq<int>
    requires Valid(r)
  {
    r.values[r.next..] + r.values[..r.next]
  }

  lemma AddingUnrolled(r: Ring, sample: int)
    requires Valid(r)
    ensures Unrolled(Adding(r, sample)) == Last(Unrolled(r) + [sample], MAX_SAMPLES)
  {
    if |r.values| == MAX_SAMPLES {
      var n := |r.values|;
      TurnedUnrolled(r.values, r.next, sample);
      assert (r.next + 1) % n == if r.next + 1 < n then r.next + 1 else 0;
      assert Last(Unrolled(r) + [sample], n) == (Unrolled(r) + [sample])[1..];
    } else {
      assert Unrolled(r) == r.values && Unrolled(Adding(r, sample)) == r.values + [sample];
    }
  }

  /** Overwriting the oldest sample, at place n, drops it and appends the new one. */
  lemma TurnedUnrolled(v: seq<int>, n: nat, sample: int)
    requires n < |v|
    ensures var v', n' := v[n := sample], if n + 1 < |v| then n + 1 else 0;
            v'[n'..] + v'[..n'] == (v[n..] + v[..n] + [sample])[1..]
  {
    var v' := v[n := sample];
    assert (v[n..] + v[..n] + [sample])[1..] == v[n + 1..] + v[..n] + [sample];
    if n + 1 < |v| {
      assert v'[n + 1..] == v[n + 1..] && v'[..n + 1] == v[..n] + [sample];
    } else {
      assert v' == v[..n] + [sample] && v[n + 1..] == [];
    }
  }

  lemma LastOfLast(samples: seq<int>, sample: int, n: nat)
    requires n > 0
    ensures Last(Last(samples, n) + [sample], n) == Last(samples + [sample], n)
  {
  }

  /** After any number of samples the ring holds exactly the last 1024 of them, the oldest at next. */
  lemma {:induction false} RingHoldsLast(samples: seq<int>)
    ensures Unrolled(Added(samples)) == Last(samples, MAX_SAMPLES)
    ensures multiset(Added(samples).values) == multiset(Last(samples, MAX_SAMPLES))
  {
    if samples != [] {
      var before, sample := samples[..|samples| - 1], samples[|samples| - 1];
      RingHoldsLast(before);
      AddingUnrolled(Added(before), sample);
      LastOfLast(before, sample, MAX_SAMPLES);
      assert before + [sample] == samples;
    }
    var r := Added(samples);
    assert r.values == r.values[..r.next] + r.values[r.next..];
  }

  // ----- percentiles -----

  predicate Ascending(s: seq<int>) {
    forall i, j | 0 <= i < j < |s| :: s[i] <= s[j]
  }

  function Insert(s: seq<int>, x: int): seq<int> {
    if s == [] || x <= s[0] then [x] + s else [s[0]] + Insert(s[1..], x)
  }

  /** What the library's sort leaves in the slice. */
  function Sort(s: seq<int>): seq<int> {
    if s == [] then [] else Insert(Sort(s[1..]), s[0])
  }

  lemma {:induction false} InsertKeepsSamples(s: seq<int>, x: int)
    ensures multiset(Insert(s, x)) == multiset(s) + multiset{x}
  {
    if s != [] && x > s[0] {
      InsertKeepsSamples(s[1..], x);
      assert s == [s[0]] + s[1..];
    }
  }

  lemma {:induction false} InsertKeepsLow(s: seq<int>, x: int, low: int)
    requires low <= x && forall i | 0 <= i < |s| :: low <= s[i]
    ensures forall i | 0 <= i < |Insert(s, x)| :: low <= Insert(s, x)[i]
  {
    if s != [] && x > s[0] {
      InsertKeepsLow(s[1..], x, low);
    }
  }

  lemma {:induction false} InsertAscends(s: seq<int>, x: int)
    requires Ascending(s)
    ensures Ascending(Insert(s, x))
  {
    if s != [] && x > s[0] {
      InsertAscends(s[1..], x);
      InsertKeepsLow(s[1..], x, s[0]);
    }
  }

  lemma {:induction false} SortAscends(s: seq<int>)
    ensures Ascending(Sort(s)) && multiset(Sort(s)) == multiset(s) && |Sort(s)| == |s|
  {
    if s != [] {
      SortAscends(s[1..]);
      InsertAscends(Sort(s[1..]), s[0]);
      InsertKeepsSamples(Sort(s[1..]), s[0]);
      assert s == [s[0]] + s[1..];
    }
    assert |multiset(Sort(s))| == |Sort(s)| && |multiset(s)| == |s|;
  }

  function AtMost(s: seq<int>, v: int): nat {
    if s == [] then 0 else (if s[0] <= v then 1 else 0) + AtMost(s[1..], v)
  }

  lemma {:induction false} InsertCounts(s: seq<int>, x: int, v: int)
    ensures AtMost(Insert(s, x), v) == AtMost(s, v) + if x <= v then 1 else 0
  {
    if s != [] && x > s[0] {
      InsertCounts(s[1..], x, v);
    } else {
      assert ([x] + s)[1..] == s;
    }
  }

  lemma {:induction false} SortCounts(s: seq<int>, v: int)
    ensures AtMost(Sort(s), v) == AtMost(s, v)
  {
    if s != [] {
      SortCounts(s[1..], v);
      InsertCounts(Sort(s[1..]), s[0], v);
    }
  }

  /** In ascending order, the samples up to k are at most the k-th, and smaller values count fewer. */
  lemma {:induction false} RankCounts(s: seq<int>, k: nat, v: int)
    requires Ascending(s) && 0 < k <= |s|
    ensures s[k - 1] <= v ==> AtMost(s, v) >= k
    ensures v < s[k - 1] ==> AtMost(s, v) < k
  {
    if k == 1 {
      if v < s[0] {
        NoneAtMost(s, v);
      }
    } else {
      RankCounts(s[1..], k - 1, v);
    }
  }

  lemma {:induction false} NoneAtMost(s: seq<int>, v: int)
    requires forall i | 0 <= i < |s| :: v < s[i]
    ensures AtMost(s, v) == 0
  {
    if s != [] {
      NoneAtMost(s[1..], v);
    }
  }

  /** The position the reader takes in the sorted slice, counted from one. */
  function Rank(percent: nat, n: nat): nat {
    var index := (percent * n + 99) / 100;
    if index < 1 then 1 else index
  }

  function Percentile(values: seq<int>, percent: nat): int {
    var s, k := Sort(values), Rank(percent, |values|);
    if 0 < k <= |s| then s[k - 1] else 0
  }

  function Reported(values: seq<int>): (real, real) {
    if values == [] then (0.0, 0.0)
    else (Percentile(values, 50) as real / 1000.0, Percentile(values, 95) as real / 1000.0)
  }

  /**
   The reported value is the nearest rank: it is one of the samples, at least that percentage of the samples are not
   above it, and of every smaller value fewer are not above.
   */
  lemma PercentileIsNearestRank(values: seq<int>, percent: nat, v: int)
    requires values != [] && 0 < percent <= 100
    ensures Percentile(values, percent) in values
    ensures 100 * AtMost(values, Percentile(values, percent)) >= percent * |values|
    ensures v < Percentile(values, percent) ==> 100 * AtMost(values, v) < percent * |values|
  {
    PercentileOccurs(values, percent);
    PercentileCounts(values, percent, Percentile(values, percent));
    PercentileCounts(values, percent, v);
  }

  lemma PercentileOccurs(values: seq<int>, percent: nat)
    requires values != [] && 0 < percent <= 100
    ensures Percentile(values, percent) in values
  {
    SortAscends(values);
    RankBounds(percent, |values|);
    assert Percentile(values, percent) in multiset(Sort(values));
  }

  lemma PercentileCounts(values: seq<int>, percent: nat, v: int)
    requires values != [] && 0 < percent <= 100
    ensures v == Percentile(values, percent) ==> 100 * AtMost(values, v) >= percent * |values|
    ensures v < Percentile(values, percent) ==> 100 * AtMost(values, v) < percent * |values|
  {
    SortAscends(values);
    RankBounds(percent, |values|);
    RankCounts(Sort(values), Rank(percent, |values|), v);
    SortCounts(values, v);
  }

  lemma RankBounds(percent: nat, n: nat)
    requires n > 0 && 0 < percent <= 100
    ensures 0 < Rank(percent, n) <= n
    ensures forall m: nat | m >= Rank(percent, n) :: 100 * m >= percent * n
    ensures forall m: nat | m < Rank(percent, n) :: 100 * m < percent * n
  {
    var t := percent * n;
    assert 0 < t <= 100 * n by {
      Monotone(1, percent, n);
      Monotone(percent, 100, n);
    }
    var q := (t + 99) / 100;
    assert t <= 100 * q <= t + 99;
  }

  lemma Monotone(a: nat, b: nat, n: nat)
    requires a <= b
    ensures a * n <= b * n
  {
  }

  /** The median is never above the 95th percentile. */
  lemma PercentilesAscend(values: seq<int>)
    ensures Reported(values).0 <= Reported(values).1
  {
    if values != [] {
      SortAscends(values);
      RankBounds(50, |values|);
      RankBounds(95, |values|);
    }
  }

  class Window {
    var values: seq<int>
    var next: nat

    ghost function Value(): Ring reads this {
      Ring(values, next)
    }

    constructor ()
      ensures Value() == Added([])
    {
      values, next := [], 0;
    }

    method Add(micros: int)
      requires Valid(Value())
      modifies this
      ensures Value() == Adding(old(Value()), micros) && Valid(Value())
    {
      if |values| < MAX_SAMPLES {
        values := values + [micros];
        return;
      }
      values := values[next := micros];
      next := (next + 1) % |values|;
    }

    method Percentiles() returns (p50: real, p95: real)
      ensures (p50, p95) == Reported(values)
    {
      var copy := SortedCopy();
      if copy.Length == 0 {
        return 0.0, 0.0;
      }
      SortAscends(values);
      RankBounds(50, copy.Length);
      RankBounds(95, copy.Length);
      p50 := copy[Rank(50, copy.Length) - 1] as real / 1000.0;
      p95 := copy[Rank(95, copy.Length) - 1] as real / 1000.0;
    }

    /** Sorts a copy in place. */
    method SortedCopy() returns (copy: array<int>)
      ensures fresh(copy) && copy[..] == Sort(values)
    {
      copy := new int[|values|](i requires 0 <= i < |values| reads this => values[i]);
      assert copy[..] == values;
      var i := copy.Length;
      while i > 0
        invariant 0 <= i <= copy.Length == |values|
        invariant copy[..i] == values[..i] && copy[i..] == Sort(values[i..])
      {
        i := i - 1;
        assert values[i..][0] == values[i] && values[i..][1..] == values[i + 1..];
        ghost var tail := copy[i + 1..];
        assert copy[i..] == [values[i]] + tail && copy[i] == values[i];
        SinkFrom(copy, i);
      }
      assert copy[..] == copy[0..] && values[0..] == values;
    }
  }

  /** Moves the element at i up to its place in the sorted rest. */
  method SinkFrom(a: array<int>, i: nat)
    requires i < a.Length
    modifies a
    ensures a[i..] == Insert(old(a[i + 1..]), old(a[i])) && a[..i] == old(a[..i])
    decreases a.Length - i
  {
    if i + 1 == a.Length || a[i] <= a[i + 1] {
      assert a[i..] == [a[i]] + a[i + 1..];
      return;
    }
    ghost var x, y, rest := a[i], a[i + 1], a[i + 2..];
    assert a[i + 1..] == [y] + rest;
    a[i], a[i + 1] := a[i + 1], a[i];
    assert a[i + 2..] == rest;
    SinkFrom(a, i + 1);
    assert a[i] == a[..i + 1][i] == y && a[..i] == a[..i + 1][..i];
    assert a[i..] == [y] + a[i + 1..];
    assert ([y] + rest)[1..] == rest;
  }
}
