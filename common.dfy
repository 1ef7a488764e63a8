/** Small shared vocabulary: optional values, failures, duplicate-free
    sequences and Python-style clamped slices. */
module Common {

  datatype Option<+T> = None | Some(value: T)

  /** Errors the modelled code can raise. */
  datatype Error =
    /** `random.sample` asked for a negative sample or one larger than the population. */
    | SampleLargerThanPopulation

  datatype Result<+T> = Ok(value: T) | Err(error: Error)

  /** No element occurs twice. */
  ghost predicate NoDup<T>(s: seq<T>) {
    forall i, j :: 0 <= i < j < |s| ==> s[i] != s[j]
  }

  /** `set(s)`: the elements of a sequence. */
  function Elements<T(!new)>(s: seq<T>): (r: set<T>)
    ensures forall x :: x in r <==> x in s
  {
    set x | x in s
  }

  /** Some element of a non-empty set. */
  ghost function Choose<T>(s: set<T>): (x: T)
    requires s != {}
    ensures x in s
  {
    var x :| x in s; x
  }

  /** Takes some element of a non-empty set. */
  method PickAny<T>(s: set<T>) returns (x: T)
    requires s != {}
    ensures x in s
  {
    x :| x in s;
  }

  /** The elements of a set, each once, in an unspecified order. */
  method SetToSeq<T>(s: set<T>) returns (xs: seq<T>)
    ensures NoDup(xs) && |xs| == |s|
    ensures forall x :: x in xs <==> x in s
  {
    xs := [];
    var rest := s;
    while rest != {}
      invariant rest <= s && NoDup(xs)
      invariant forall x :: x in xs <==> x in s && x !in rest
      invariant |xs| + |rest| == |s|
      decreases rest
    {
      var x := PickAny(rest);
      xs := xs + [x];
      rest := rest - {x};
    }
  }

  /** Python's `min` on two integers. */
  function Min(a: int, b: int): (m: int)
    ensures m <= a && m <= b && (m == a || m == b)
  {
    if a <= b then a else b
  }

  /** Python's `max` on two integers. */
  function Max(a: int, b: int): (m: int)
    ensures m >= a && m >= b && (m == a || m == b)
  {
    if a >= b then a else b
  }

  /** Python's `s[lo:hi]` for non-negative bounds: both ends are clamped to `|s|`. */
  function Slice<T>(s: seq<T>, lo: nat, hi: nat): (r: seq<T>)
    ensures |r| == if lo <= hi && lo <= |s| then Min(hi, |s|) - lo else 0
    ensures forall i :: 0 <= i < |r| ==> r[i] == s[lo + i]
  {
    var h := Min(hi, |s|);
    if lo <= h then s[lo..h] else []
  }

  /** A duplicate-free sequence has as many distinct elements as positions. */
  lemma {:induction false} NoDupCard<T>(s: seq<T>)
    requires NoDup(s)
    ensures |set x | x in s| == |s|
  {
    if s != [] {
      var t := s[..|s| - 1];
      assert NoDup(t);
      NoDupCard(t);
      var last := s[|s| - 1];
      assert (set x | x in s) == (set x | x in t) + {last};
      assert last !in (set x | x in t);
    }
  }

  /** In a duplicate-free sequence every element occurs at most once. */
  lemma {:induction false} NoDupCount<T>(s: seq<T>, x: T)
    requires NoDup(s)
    ensures multiset(s)[x] <= 1
  {
    if s != [] {
      var t := s[..|s| - 1];
      assert s == t + [s[|s| - 1]];
      assert NoDup(t);
      NoDupCount(t, x);
      if x == s[|s| - 1] {
        assert x !in t;
        assert multiset(t)[x] == 0;
      }
    }
  }

  /** An element found at two positions is counted at least twice. */
  lemma TwiceCounted<T>(s: seq<T>, i: nat, j: nat)
    requires i < j < |s| && s[i] == s[j]
    ensures multiset(s)[s[i]] >= 2
  {
    assert s == s[..j] + s[j..];
    assert s[i] in s[..j];
    assert s[j] in s[j..];
  }

  /** Drawing from a duplicate-free sequence (a sub-multiset of it) yields no duplicates. */
  lemma SubMultisetNoDup<T>(s: seq<T>, t: seq<T>)
    requires NoDup(s) && multiset(t) <= multiset(s)
    ensures NoDup(t)
  {
    forall i, j | 0 <= i < j < |t|
      ensures t[i] != t[j]
    {
      if t[i] == t[j] {
        TwiceCounted(t, i, j);
        NoDupCount(s, t[i]);
        assert false;
      }
    }
  }

  /** Two slices of a duplicate-free sequence over non-overlapping ranges share no element. */
  lemma SlicesDisjoint<T>(s: seq<T>, a: nat, b: nat, c: nat, d: nat)
    requires NoDup(s) && b <= c
    ensures forall x :: x in Slice(s, a, b) ==> x !in Slice(s, c, d)
  {
    forall x | x in Slice(s, a, b)
      ensures x !in Slice(s, c, d)
    {
      var i :| 0 <= i < |Slice(s, a, b)| && Slice(s, a, b)[i] == x;
    }
  }

  /** A slice of a duplicate-free sequence is duplicate-free. */
  lemma SliceNoDup<T>(s: seq<T>, lo: nat, hi: nat)
    requires NoDup(s)
    ensures NoDup(Slice(s, lo, hi))
  {
  }

  /** Sequences that are permutations of each other hold the same elements. */
  lemma SameElements<T>(s: seq<T>, t: seq<T>)
    requires multiset(s) == multiset(t)
    ensures forall x :: x in s <==> x in t
  {
    forall x
      ensures x in s <==> x in t
    {
      assert x in s <==> x in multiset(s);
      assert x in t <==> x in multiset(t);
    }
  }

  /** Adding a new element grows a set by one. */
  lemma CardAdd<T>(s: set<T>, x: T)
    requires x !in s
    ensures |s + {x}| == |s| + 1
  {
  }

  /** A subset has no more elements than its superset. */
  lemma {:induction false} SubsetCard<T>(a: set<T>, b: set<T>)
    requires a <= b
    ensures |a| <= |b|
    decreases b
  {
    if a != {} {
      var x :| x in a;
      SubsetCard(a - {x}, b - {x});
    }
  }
}
