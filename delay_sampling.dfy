/** Share delays. A delay table maps a delay in rounds to its probability; a
    delay is sampled by walking the table in increasing delay order,
    accumulating probability until the running total reaches a uniform draw,
    and falling back to the largest delay when it never does. */
module DelaySampling {
  import opened Common
  import opened Config
  import opened NewsItems
  import opened Randomness
  import opened Agents

  /** The smallest element of a non-empty set. */
  ghost function MinOf(s: set<int>): (m: int)
    requires s != {}
    ensures m in s && forall x :: x in s ==> m <= x
    decreases s
  {
    var x := Choose(s);
    if s == {x} then x
    else
      var rest := s - {x};
      var m := MinOf(rest);
      assert forall y :: y in s ==> y == x || y in rest;
      if x < m then x else m
  }

  /** Removing one key of a map leaves the other keys. */
  lemma RemoveKey(dist: map<int, real>, k: int)
    requires k in dist
    ensures (dist - {k}).Keys == dist.Keys - {k}
    ensures (dist - {k}) == map[] <==> dist.Keys == {k}
  {
    assert dist.Keys == (dist.Keys - {k}) + {k};
    assert (dist - {k}).Keys == {} ==> dist - {k} == map[];
  }

  /** The total probability of a table. */
  ghost function Mass(dist: map<int, real>): real
    decreases dist.Keys
  {
    if dist == map[] then 0.0
    else
      var k := MinOf(dist.Keys);
      RemoveKey(dist, k);
      dist[k] + Mass(dist - {k})
  }

  /** The probability of a delay no larger than `d`: the probabilities of the
      delays up to `d`, added in increasing delay order. */
  ghost function CumulativeAt(dist: map<int, real>, d: int): real
    decreases dist.Keys
  {
    if dist == map[] then 0.0
    else
      var k := MinOf(dist.Keys);
      RemoveKey(dist, k);
      if d < k then 0.0 else dist[k] + CumulativeAt(dist - {k}, d)
  }

  /** `d` is what the sampler returns for draw `r`: the smallest delay whose
      cumulative probability reaches `r`, or the largest delay when none does. */
  ghost predicate IsSampledDelay(dist: map<int, real>, r: real, d: int) {
    && d in dist
    && if exists j :: j in dist && r <= CumulativeAt(dist, j) then
         && r <= CumulativeAt(dist, d)
         && (forall j :: j in dist && j < d ==> r > CumulativeAt(dist, j))
       else
         forall j :: j in dist ==> j <= d
  }

  /** The loop of `sample_delay_from_distribution` as a recursion: take the
      smallest remaining delay and add its probability to the running total;
      return it when the draw is at most the total, or when it is the last
      delay left (which is then the largest one, the fallback). */
  ghost function WalkDelays(dist: map<int, real>, cumulative: real, r: real): (d: int)
    requires dist != map[]
    ensures d in dist
    decreases dist.Keys
  {
    var k := MinOf(dist.Keys);
    var total := cumulative + dist[k];
    RemoveKey(dist, k);
    if r <= total || dist.Keys == {k} then k
    else WalkDelays(dist - {k}, total, r)
  }

  /** The delay the sampler returns for draw `r`, walking from a zero total. */
  ghost function SampledDelay(dist: map<int, real>, r: real): int
    requires dist != map[]
  {
    WalkDelays(dist, 0.0, r)
  }

  /** Past the smallest delay `k`, the cumulative probability of the table is
      that of `k` plus the cumulative probability of the table without `k`;
      at `k` itself it is the probability of `k`. */
  lemma CumulativeSplit(dist: map<int, real>, k: int, j: int)
    requires k in dist && (forall x :: x in dist ==> k <= x) && k <= j
    ensures CumulativeAt(dist, j) == dist[k] + CumulativeAt(dist - {k}, j)
    ensures CumulativeAt(dist, k) == dist[k]
  {
    RemoveKey(dist, k);
    var rest := dist - {k};
    if rest != map[] {
      assert MinOf(rest.Keys) in dist;
    }
  }

  /** A draw within the smallest delay's probability samples that delay. */
  lemma SampledFirst(dist: map<int, real>, k: int, x: real)
    requires k in dist && (forall j :: j in dist ==> k <= j) && x <= dist[k]
    ensures IsSampledDelay(dist, x, k)
  {
    CumulativeSplit(dist, k, k);
  }

  /** A draw beyond the probability of a table's only delay falls back to it. */
  lemma SampledOnly(dist: map<int, real>, k: int, x: real)
    requires dist.Keys == {k}
    ensures IsSampledDelay(dist, x, k)
  {
    if exists j :: j in dist && x <= CumulativeAt(dist, j) {
      var j :| j in dist && x <= CumulativeAt(dist, j);
      assert j == k;
    }
  }

  /** A draw beyond the smallest delay's probability samples, from the whole
      table, the delay the rest of the table gives for the remaining draw. */
  lemma SampledRest(dist: map<int, real>, k: int, x: real, d: int)
    requires k in dist && (forall j :: j in dist ==> k <= j) && dist.Keys != {k}
    requires x > dist[k] && IsSampledDelay(dist - {k}, x - dist[k], d)
    ensures IsSampledDelay(dist, x, d)
  {
    var rest := dist - {k};
    RemoveKey(dist, k);
    CumulativeSplit(dist, k, k);
    forall j | j in rest
      ensures CumulativeAt(dist, j) == dist[k] + CumulativeAt(rest, j)
    {
      CumulativeSplit(dist, k, j);
    }
    if exists j :: j in rest && x - dist[k] <= CumulativeAt(rest, j) {
      var j :| j in rest && x - dist[k] <= CumulativeAt(rest, j);
      assert x <= CumulativeAt(dist, j);
      forall i | i in dist && i < d
        ensures x > CumulativeAt(dist, i)
      {
        if i != k {
          assert i in rest;
        }
      }
    } else {
      forall j | j in dist
        ensures x > CumulativeAt(dist, j) && j <= d
      {
        if j != k {
          assert j in rest;
        }
      }
    }
  }

  /** The walk meets the cumulative description: for a running total `c` it
      returns the delay sampled for the draw `r - c`. */
  lemma {:induction false} WalkIsSampled(dist: map<int, real>, c: real, r: real)
    requires dist != map[]
    ensures IsSampledDelay(dist, r - c, WalkDelays(dist, c, r))
    decreases dist.Keys
  {
    var k := MinOf(dist.Keys);
    var total := c + dist[k];
    RemoveKey(dist, k);
    if r <= total {
      SampledFirst(dist, k, r - c);
    } else if dist.Keys == {k} {
      SampledOnly(dist, k, r - c);
    } else {
      WalkIsSampled(dist - {k}, total, r);
      assert r - total == (r - c) - dist[k];
      SampledRest(dist, k, r - c, WalkDelays(dist - {k}, total, r));
    }
  }

  /** `SampledDelay` is the delay the cumulative description singles out. */
  lemma SampledDelayIsSampled(dist: map<int, real>, r: real)
    requires dist != map[]
    ensures IsSampledDelay(dist, r, SampledDelay(dist, r))
  {
    WalkIsSampled(dist, 0.0, r);
    assert r - 0.0 == r;
  }

  /** The smallest key of a non-empty set. */
  method MinKey(s: set<int>) returns (m: int)
    requires s != {}
    ensures m in s && forall x :: x in s ==> m <= x
  {
    m := PickAny(s);
    var rest := s - {m};
    while rest != {}
      invariant rest <= s && m in s
      invariant forall x :: x in s && x !in rest ==> m <= x
      decreases rest
    {
      var x := PickAny(rest);
      if x < m {
        m := x;
      }
      rest := rest - {x};
    }
  }

  /** The largest key of a non-empty set. */
  method MaxKey(s: set<int>) returns (m: int)
    requires s != {}
    ensures m in s && forall x :: x in s ==> x <= m
  {
    m := PickAny(s);
    var rest := s - {m};
    while rest != {}
      invariant rest <= s && m in s
      invariant forall x :: x in s && x !in rest ==> x <= m
      decreases rest
    {
      var x := PickAny(rest);
      if x > m {
        m := x;
      }
      rest := rest - {x};
    }
  }

  /** The state of the cumulative walk over `dist` for the draw `r`: `rest`
      holds the delays not yet visited, each with its probability, all larger
      than every visited one; while some remain, finishing the walk from the
      running total gives the sampled delay, and once none remain `last` is the
      largest delay and the sampled one. */
  ghost predicate Walking(dist: map<int, real>, rest: map<int, real>, cumulative: real, last: int, r: real)
    requires dist != map[]
  {
    && rest.Keys <= dist.Keys && (forall j :: j in rest ==> rest[j] == dist[j])
    && (forall v, w :: v in dist && v !in rest && w in rest ==> v < w)
    && (rest != map[] ==> WalkDelays(rest, cumulative, r) == SampledDelay(dist, r))
    && (rest == map[] ==> last == SampledDelay(dist, r) && last in dist && forall j :: j in dist ==> j <= last)
  }

  /** The walk stops at the smallest remaining delay once the total reaches the draw. */
  lemma WalkingStop(dist: map<int, real>, rest: map<int, real>, cumulative: real, last: int, r: real, k: int)
    requires dist != map[] && Walking(dist, rest, cumulative, last, r)
    requires rest != map[] && k == MinOf(rest.Keys) && r <= cumulative + rest[k]
    ensures k == SampledDelay(dist, r)
  {
  }

  /** Otherwise it moves past that delay, which is the last one when no other remains. */
  lemma WalkingAdvance(dist: map<int, real>, rest: map<int, real>, cumulative: real, last: int, r: real, k: int)
    requires dist != map[] && Walking(dist, rest, cumulative, last, r)
    requires rest != map[] && k == MinOf(rest.Keys) && !(r <= cumulative + rest[k])
    ensures (rest - {k}).Keys == rest.Keys - {k}
    ensures Walking(dist, rest - {k}, cumulative + rest[k], if rest.Keys == {k} then k else last, r)
  {
    RemoveKey(rest, k);
    var rest' := rest - {k};
    forall v, w | v in dist && v !in rest' && w in rest'
      ensures v < w
    {
      if v == k {
        assert w in rest;
      }
    }
    if rest.Keys == {k} {
      forall j | j in dist
        ensures j <= k
      {
        if j != k {
          assert j !in rest;
        }
      }
    }
  }

  /** The cumulative walk over `sorted(delay_dist.items())` for the draw `r`,
      with `max(delay_dist.keys())` as the fallback. */
  method PickDelay(dist: map<int, real>, r: real) returns (d: int)
    requires dist != map[]
    ensures d == SampledDelay(dist, r)
  {
    var remaining := dist.Keys;
    ghost var rest := dist;
    ghost var last := 0;
    var cumulative := 0.0;
    while remaining != {}
      invariant rest.Keys == remaining && Walking(dist, rest, cumulative, last, r)
      decreases remaining
    {
      var k := MinKey(remaining);
      assert k == MinOf(rest.Keys);
      cumulative := cumulative + dist[k];
      if r <= cumulative {
        WalkingStop(dist, rest, cumulative - dist[k], last, r, k);
        return k;
      }
      WalkingAdvance(dist, rest, cumulative - dist[k], last, r, k);
      if remaining == {k} {
        last := k;
      }
      rest := rest - {k};
      remaining := remaining - {k};
    }
    d := MaxKey(dist.Keys);
  }

  /** Variant B's table for influencers sharing fake news: one round with
      probability 0.95, two with 0.05. */
  const INFLUENCER_FAKE_DELAY_DISTRIBUTION: map<int, real> := map[1 := 0.95, 2 := 0.05]

  /** The table actually sampled: variant B replaces the given table by the
      influencer table when an influencer shares fake news. */
  function DelayTable(dist: map<int, real>, influencerDist: map<int, real>, newsType: NewsType,
                      isInfluencer: bool, flags: VariantFlags): map<int, real>
  {
    if newsType == Fake && flags.variantB && isInfluencer then influencerDist else dist
  }

  /** The delay tables a trial samples from: one per news type, and variant B's
      table for influencers sharing fake news. */
  datatype DelayTables = DelayTables(fakeNews: map<int, real>, realNews: map<int, real>, influencerFake: map<int, real>)
  {
    /** Every table has a delay, and every delay is at least one round. */
    ghost predicate Valid() {
      && fakeNews != map[] && realNews != map[] && influencerFake != map[]
      && (forall d :: d in fakeNews ==> 1 <= d)
      && (forall d :: d in realNews ==> 1 <= d)
      && (forall d :: d in influencerFake ==> 1 <= d)
    }

    /** `fake_delay_distribution if news_type == 'fake' else real_delay_distribution`. */
    function Base(newsType: NewsType): map<int, real> {
      if newsType == Fake then fakeNews else realNews
    }

    /** The table a share of `newsType` by this agent is sampled from. */
    function For(newsType: NewsType, isInfluencer: bool, flags: VariantFlags): map<int, real> {
      DelayTable(Base(newsType), influencerFake, newsType, isInfluencer, flags)
    }
  }

  /** Variant B overrides the table only for fake news shared by an influencer:
      every other share, every real-news share and every share under the
      default flags is sampled from the news type's own table. */
  lemma VariantBOverride(tables: DelayTables, newsType: NewsType, isInfluencer: bool, flags: VariantFlags)
    ensures newsType == Fake && flags.variantB && isInfluencer ==>
      tables.For(newsType, isInfluencer, flags) == tables.influencerFake
    ensures !(newsType == Fake && flags.variantB && isInfluencer) ==>
      tables.For(newsType, isInfluencer, flags) == tables.Base(newsType)
    ensures tables.For(Real, isInfluencer, flags) == tables.realNews
    ensures tables.For(newsType, isInfluencer, VARIANT_CONFIG) == tables.Base(newsType)
  {
  }

  /** The configured tables. */
  const CONFIGURED_DELAYS: DelayTables :=
    DelayTables(FAKE_DELAY_DISTRIBUTION, REAL_DELAY_DISTRIBUTION, INFLUENCER_FAKE_DELAY_DISTRIBUTION)

  /** The configured tables have delays, all of at least one round. */
  lemma ConfiguredDelaysValid()
    ensures CONFIGURED_DELAYS.Valid()
  {
    assert 1 in FAKE_DELAY_DISTRIBUTION && 6 in REAL_DELAY_DISTRIBUTION && 1 in INFLUENCER_FAKE_DELAY_DISTRIBUTION;
  }

  /** `sample_delay_from_distribution`: one draw of the stream, turned into a delay
      of the table that applies to this agent (`influencerDist` is the table
      variant B substitutes). */
  method SampleDelayFromDistribution(dist: map<int, real>, influencerDist: map<int, real>, agent: Agent,
                                     newsType: NewsType, flags: VariantFlags, rng: Random)
    returns (d: int)
    requires dist != map[] && influencerDist != map[] && rng.Valid()
    modifies rng
    ensures rng.drawn == old(rng.drawn) + 1
    ensures d == SampledDelay(DelayTable(dist, influencerDist, newsType, agent.isInfluencer, flags),
                              rng.stream(old(rng.drawn)))
  {
    var table := DelayTable(dist, influencerDist, newsType, agent.isInfluencer, flags);
    var u := rng.Next();
    d := PickDelay(table, u);
  }

  /** Every delay valid tables can produce, variant B's included, is at least
      one round, so a share is always scheduled in a later round. */
  lemma SampledDelayPositive(tables: DelayTables, newsType: NewsType, isInfluencer: bool, flags: VariantFlags, r: real)
    requires tables.Valid()
    ensures 1 <= SampledDelay(tables.For(newsType, isInfluencer, flags), r)
  {
  }

  /** The sampler is a function of the draw: two delays sampled from one draw agree. */
  lemma SampledDelayUnique(dist: map<int, real>, r: real, d1: int, d2: int)
    requires IsSampledDelay(dist, r, d1) && IsSampledDelay(dist, r, d2)
    ensures d1 == d2
  {
    if exists j :: j in dist && r <= CumulativeAt(dist, j) {
      assert r <= CumulativeAt(dist, d1) && r <= CumulativeAt(dist, d2);
    }
  }

  /** A delay meets the cumulative description exactly when it is the one the
      walk returns. */
  lemma SampledDelayExactly(dist: map<int, real>, r: real, d: int)
    requires dist != map[]
    ensures IsSampledDelay(dist, r, d) <==> d == SampledDelay(dist, r)
  {
    SampledDelayIsSampled(dist, r);
    if IsSampledDelay(dist, r, d) {
      SampledDelayUnique(dist, r, d, SampledDelay(dist, r));
    }
  }

  /** Cumulative probability through the largest delay is the whole table. */
  lemma {:induction false} CumulativeAtMax(dist: map<int, real>, d: int)
    requires forall j :: j in dist ==> j <= d
    ensures CumulativeAt(dist, d) == Mass(dist)
    decreases dist.Keys
  {
    if dist != map[] {
      var k := MinOf(dist.Keys);
      RemoveKey(dist, k);
      CumulativeAtMax(dist - {k}, d);
    }
  }

  /** For a table whose probabilities add up to at least one, a draw in [0, 1)
      is always reached by the running total: the fallback to the largest delay
      never decides the outcome. */
  lemma NoFallback(dist: map<int, real>, r: real)
    requires dist != map[] && r < 1.0 <= Mass(dist)
    ensures r <= CumulativeAt(dist, SampledDelay(dist, r))
  {
    var d := SampledDelay(dist, r);
    SampledDelayIsSampled(dist, r);
    if !exists j :: j in dist && r <= CumulativeAt(dist, j) {
      CumulativeAtMax(dist, d);
    }
  }

  /** The three configured tables are probability distributions. */
  lemma DelayTablesSumToOne()
    ensures Mass(FAKE_DELAY_DISTRIBUTION) == 1.0
    ensures Mass(REAL_DELAY_DISTRIBUTION) == 1.0
    ensures Mass(INFLUENCER_FAKE_DELAY_DISTRIBUTION) == 1.0
  {
    FakeCumulative();
    CumulativeAtMax(FAKE_DELAY_DISTRIBUTION, 3);
    RealCumulative();
    CumulativeAtMax(REAL_DELAY_DISTRIBUTION, 18);
    var inf := INFLUENCER_FAKE_DELAY_DISTRIBUTION;
    assert inf.Keys == {1, 2};
    CumulativeSplit(inf, 1, 2);
    var rest := inf - {1};
    assert rest.Keys == {2};
    CumulativeSplit(rest, 2, 2);
    CumulativeAtMax(inf, 2);
  }

  /** Cumulative probabilities of the fake-news table: 0.85, 0.95, 1.0. */
  lemma FakeCumulative()
    ensures CumulativeAt(FAKE_DELAY_DISTRIBUTION, 1) == 0.85
    ensures CumulativeAt(FAKE_DELAY_DISTRIBUTION, 2) == 0.95
    ensures CumulativeAt(FAKE_DELAY_DISTRIBUTION, 3) == 1.0
  {
    var dist := FAKE_DELAY_DISTRIBUTION;
    assert dist.Keys == {1, 2, 3};
    CumulativeSplit(dist, 1, 2);
    CumulativeSplit(dist, 1, 3);
    var rest := dist - {1};
    assert rest.Keys == {2, 3};
    CumulativeSplit(rest, 2, 3);
    var last := rest - {2};
    assert last.Keys == {3};
    CumulativeSplit(last, 3, 3);
  }

  /** Cumulative probabilities of the real-news table: 0.85, 0.95, 1.0. */
  lemma RealCumulative()
    ensures CumulativeAt(REAL_DELAY_DISTRIBUTION, 6) == 0.85
    ensures CumulativeAt(REAL_DELAY_DISTRIBUTION, 12) == 0.95
    ensures CumulativeAt(REAL_DELAY_DISTRIBUTION, 18) == 1.0
  {
    var dist := REAL_DELAY_DISTRIBUTION;
    assert dist.Keys == {6, 12, 18};
    CumulativeSplit(dist, 6, 12);
    CumulativeSplit(dist, 6, 18);
    var rest := dist - {6};
    assert rest.Keys == {12, 18};
    CumulativeSplit(rest, 12, 18);
    var last := rest - {12};
    assert last.Keys == {18};
    CumulativeSplit(last, 18, 18);
  }

  /** One step of the walk from the smallest delay `k`. */
  lemma WalkStep(dist: map<int, real>, c: real, r: real, k: int)
    requires k in dist && forall j :: j in dist ==> k <= j
    ensures (dist - {k}).Keys == dist.Keys - {k}
    ensures (dist - {k}) == map[] <==> dist.Keys == {k}
    ensures WalkDelays(dist, c, r) ==
      if r <= c + dist[k] || dist.Keys == {k} then k else WalkDelays(dist - {k}, c + dist[k], r)
  {
    RemoveKey(dist, k);
  }

  /** Fake news is shared after one round for draws up to 0.85, two rounds up to
      0.95, and three rounds above. */
  lemma FakeDelaySamples(r: real)
    ensures CONFIGURED_DELAYS.Valid()
    ensures SampledDelay(CONFIGURED_DELAYS.Base(Fake), r) == if r <= 0.85 then 1 else if r <= 0.95 then 2 else 3
  {
    ConfiguredDelaysValid();
    var dist := FAKE_DELAY_DISTRIBUTION;
    assert dist.Keys == {1, 2, 3};
    WalkStep(dist, 0.0, r, 1);
    var rest := dist - {1};
    assert rest.Keys == {2, 3};
    WalkStep(rest, 0.85, r, 2);
    var last := rest - {2};
    assert last.Keys == {3};
    WalkStep(last, 0.95, r, 3);
  }

  /** Real news is shared after six rounds for draws up to 0.85, twelve up to
      0.95, and eighteen above. */
  lemma RealDelaySamples(r: real)
    ensures CONFIGURED_DELAYS.Valid()
    ensures SampledDelay(CONFIGURED_DELAYS.Base(Real), r) == if r <= 0.85 then 6 else if r <= 0.95 then 12 else 18
  {
    ConfiguredDelaysValid();
    var dist := REAL_DELAY_DISTRIBUTION;
    assert dist.Keys == {6, 12, 18};
    WalkStep(dist, 0.0, r, 6);
    var rest := dist - {6};
    assert rest.Keys == {12, 18};
    WalkStep(rest, 0.85, r, 12);
    var last := rest - {12};
    assert last.Keys == {18};
    WalkStep(last, 0.95, r, 18);
  }

  /** Variant B's influencers share fake news after one round for draws up to
      0.95 and two rounds above. */
  lemma InfluencerDelaySamples(flags: VariantFlags, r: real)
    requires flags.variantB
    ensures CONFIGURED_DELAYS.Valid()
    ensures SampledDelay(CONFIGURED_DELAYS.For(Fake, true, flags), r) == if r <= 0.95 then 1 else 2
  {
    ConfiguredDelaysValid();
    var dist := INFLUENCER_FAKE_DELAY_DISTRIBUTION;
    assert dist.Keys == {1, 2};
    WalkStep(dist, 0.0, r, 1);
    var rest := dist - {1};
    assert rest.Keys == {2};
    WalkStep(rest, 0.95, r, 2);
  }
}
