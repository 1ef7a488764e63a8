/** The process-wide pseudorandom source (`random` and `numpy.random`),
    replaced by an injected stream of uniform draws in [0, 1). Every
    random decision of the simulator consumes the next draw of the stream,
    so a property proved for every stream holds for every run. */
module Randomness {
  import opened Common
  import Config

  /** `u * n` stays in [0, n) for a draw `u` in [0, 1). */
  lemma ScaleBelow(u: real, n: real)
    requires 0.0 <= u < 1.0 && 0.0 < n
    ensures 0.0 <= u * n < n && u * n == n * u
  {
    assert (1.0 - u) * n > 0.0;
  }

  /** The floor of a real in [0, n) is an index below `n`. */
  lemma FloorBelow(x: real, n: nat)
    requires 0.0 <= x < n as real
    ensures 0 <= x.Floor < n
  {
    assert x.Floor as real <= x;
  }

  /** A uniform draw scaled by `n` and rounded down is an index below `n`. */
  lemma IndexBelow(u: real, n: nat)
    requires 0.0 <= u < 1.0 && 0 < n
    ensures 0 <= (u * n as real).Floor < n
  {
    ScaleBelow(u, n as real);
    FloorBelow(u * n as real, n);
  }

  /** A uniform draw scaled into [low, high) stays there. */
  lemma UniformBounds(low: real, high: real, u: real)
    requires low < high && 0.0 <= u < 1.0
    ensures low <= low + (high - low) * u < high
  {
    var width := high - low;
    ScaleBelow(u, width);
    calc {
      low + (high - low) * u;
    ==
      low + width * u;
    <
      low + width;
    ==
      high;
    }
  }

  /** Exchanges two positions of a sequence. */
  function Swap<T>(s: seq<T>, i: nat, j: nat): (r: seq<T>)
    requires i < |s| && j < |s|
    ensures |r| == |s| && r[i] == s[j] && r[j] == s[i]
    ensures forall k :: 0 <= k < |s| && k != i && k != j ==> r[k] == s[k]
    ensures multiset(r) == multiset(s)
  {
    s[i := s[j]][j := s[i]]
  }

  /** The index draws `random.shuffle` makes on a list of `n` elements. */
  function ShuffleDraws(n: nat): nat {
    if n <= 1 then 0 else n - 1
  }

  class Random {
    /** Draw number k of the stream. */
    const stream: nat -> real
    /** How many draws have been consumed so far. */
    var drawn: nat

    ghost predicate Valid() {
      forall k: nat :: 0.0 <= stream(k) < 1.0
    }

    constructor (stream: nat -> real)
      requires forall k: nat :: 0.0 <= stream(k) < 1.0
      ensures Valid() && this.stream == stream && drawn == 0
    {
      this.stream := stream;
      drawn := 0;
    }

    /** `random.random()`: the next draw. */
    method Next() returns (u: real)
      requires Valid()
      modifies this
      ensures drawn == old(drawn) + 1 && u == stream(old(drawn))
      ensures 0.0 <= u < 1.0
    {
      u := stream(drawn);
      drawn := drawn + 1;
    }

    /** An index drawn uniformly below `n` (the index draw behind `shuffle` and `sample`). */
    method RandBelow(n: nat) returns (j: nat)
      requires Valid() && 0 < n
      modifies this
      ensures drawn == old(drawn) + 1 && j < n
      ensures j == (stream(old(drawn)) * n as real).Floor
    {
      var u := Next();
      IndexBelow(u, n);
      j := (u * n as real).Floor;
    }

    /** `numpy.random.uniform(low, high)`. */
    method Uniform(range: Config.Range) returns (x: real)
      requires Valid()
      modifies this
      ensures drawn == old(drawn) + 1
      ensures x == range.low + (range.high - range.low) * stream(old(drawn))
      ensures range.low < range.high ==> range.low <= x < range.high
    {
      var u := Next();
      x := range.low + (range.high - range.low) * u;
      if range.low < range.high {
        UniformBounds(range.low, range.high, u);
      }
    }

    /** `random.randint(a, b)`: an integer in [a, b]. */
    method RandInt(a: int, b: int) returns (x: int)
      requires Valid() && a <= b
      modifies this
      ensures drawn == old(drawn) + 1 && a <= x <= b
    {
      var j := RandBelow(b - a + 1);
      x := a + j;
    }

    /** `random.shuffle`: a Fisher-Yates permutation of `s`, one index draw for
        each position from the last down to the second. */
    method Shuffle<T>(s: seq<T>) returns (t: seq<T>)
      requires Valid()
      modifies this
      ensures drawn == old(drawn) + ShuffleDraws(|s|)
      ensures |t| == |s| && multiset(t) == multiset(s)
    {
      t := s;
      var i := |t|;
      while i > 1
        invariant 0 <= i <= |t| && |t| == |s|
        invariant multiset(t) == multiset(s)
        invariant drawn == old(drawn) + (|s| - i) && (i == |s| || 1 <= i)
      {
        var j := RandBelow(i);
        t := Swap(t, i - 1, j);
        i := i - 1;
      }
    }

    /** `random.sample(population, k)`: `k` elements taken from distinct positions
        of the population, or the `ValueError` for a negative or oversized `k`. */
    method Sample<T>(population: seq<T>, k: int) returns (r: Result<seq<T>>)
      requires Valid()
      modifies this
      ensures drawn == old(drawn) + (if r.Ok? then k else 0)
      ensures r.Ok? <==> 0 <= k <= |population|
      ensures r.Ok? ==> |r.value| == k && multiset(r.value) <= multiset(population)
    {
      if k < 0 || k > |population| {
        return Err(SampleLargerThanPopulation);
      }
      var pool := population;
      var n := |pool|;
      var i := 0;
      while i < k
        invariant 0 <= i <= k && |pool| == n
        invariant multiset(pool) == multiset(population)
        invariant drawn == old(drawn) + i
      {
        var j := RandBelow(n - i);
        pool := Swap(pool, i, i + j);
        i := i + 1;
      }
      assert pool == pool[..k] + pool[k..];
      r := Ok(pool[..k]);
    }
  }
}
