/** `simulate_spread` from end to end: seeding both news types, the round loop
    with its early stop, and the end-of-trial statistics (reach curves, final
    beliefs, belief revisions and the influencer impact). */
module Spread {
  import opened Common
  import opened Config
  import opened NewsItems
  import opened Agents
  import opened DelaySampling
  import opened Schedules
  import opened Seeding
  import opened Simulation

  // ---------------------------------------------------------------------------
  // Seeding
  // ---------------------------------------------------------------------------

  /** Whether the seeds can be drawn: `SEED_COUNT` agents in all or, under
      variant A, enough non-influencers to complete the influencer seeds. */
  ghost predicate CanSeed(env: Env)
    reads env.agents.Values
  {
    if env.TracksSources() then
      SEED_COUNT - Min(MAX_INFLUENCER_SEEDS, |InfluencerIds(env.agents)|) <= |env.agents| - |InfluencerIds(env.agents)|
    else
      SEED_COUNT <= |env.agents|
  }

  /** The origin recorded for a seed: `'influencer'` or `'normal'`. */
  function SeedSource(isInfluencer: bool): Source {
    if isInfluencer then FromInfluencer else FromNormal
  }

  /** `for uid in seeds: source_map[uid] = 'influencer' if ... else 'normal'`. */
  method RecordSeedSources(agents: map<int, Agent>, seeds: seq<int>, sourceMap: map<int, Source>)
    returns (m: map<int, Source>)
    requires forall j :: 0 <= j < |seeds| ==> seeds[j] in agents
    ensures m.Keys == sourceMap.Keys + Elements(seeds)
    ensures forall u :: u in m ==>
      m[u] == if u in seeds then SeedSource(agents[u].isInfluencer) else sourceMap[u]
  {
    m := sourceMap;
    for i := 0 to |seeds|
      invariant m.Keys == sourceMap.Keys + Elements(seeds[..i])
      invariant forall u :: u in m ==>
        m[u] == if u in seeds[..i] then SeedSource(agents[u].isInfluencer) else sourceMap[u]
    {
      assert seeds[..i + 1] == seeds[..i] + [seeds[i]];
      m := m[seeds[i] := SeedSource(agents[seeds[i]].isInfluencer)];
    }
    assert seeds[..|seeds|] == seeds;
  }

  /** The round offset of the first shares: `real_news_delay` for real news in
      the competing-news experiment, otherwise none. */
  function SeedOffset(hypothesis: Hypothesis, t: NewsType, realNewsDelay: int): int {
    if t == Real && hypothesis == H3 then realNewsDelay else 0
  }

  /** Seeding changes beliefs only: share flags and traits are as before. */
  twostate lemma SeedingKeepsFlags(agents: map<int, Agent>)
    requires forall a :: a in agents.Values ==> a.GetTraits() == old(a.GetTraits()) && a.hasShared == old(a.hasShared)
    ensures SharedMap(agents) == old(SharedMap(agents)) && TraitMap(agents) == old(TraitMap(agents))
  {
    forall u | u in agents
      ensures agents[u].GetTraits() == old(agents[u].GetTraits()) && agents[u].hasShared == old(agents[u].hasShared)
    {
      assert agents[u] in agents.Values;
    }
  }

  /** The state after `t`'s seeds join `infected[t]` and their first shares are scheduled. */
  function Seeded(st: SpreadState, t: NewsType, seeds: seq<int>, schedule: Schedule, sources: map<int, Source>)
    : SpreadState
  {
    var ids := Elements(seeds);
    if t == Fake then st.(schedule := schedule, infectedFake := st.infectedFake + ids, sourceMap := sources)
    else st.(schedule := schedule, infectedReal := st.infectedReal + ids, sourceMap := sources)
  }

  /** The beliefs after the seeds of `seeds` come to believe `t`. */
  function SeedBeliefs(beliefs: map<int, Option<NewsType>>, seeds: seq<int>, t: NewsType): map<int, Option<NewsType>> {
    map u | u in beliefs :: if u in seeds then Some(t) else beliefs[u]
  }

  /** Beliefs that changed exactly at the seeds, to `t`, are `SeedBeliefs`. */
  lemma SeedBeliefsExt(before: map<int, Option<NewsType>>, after: map<int, Option<NewsType>>, seeds: seq<int>, t: NewsType)
    requires after.Keys == before.Keys
    requires forall u :: u in after ==> after[u] == if u in seeds then Some(t) else before[u]
    ensures after == SeedBeliefs(before, seeds, t)
  {
    var m := SeedBeliefs(before, seeds, t);
    assert after.Keys == m.Keys;
    forall u | u in after
      ensures after[u] == m[u]
    {
    }
  }

  /** The seed draw of `select_initial_seeds`, or of `select_initial_seeds_variant`
      under variant A: the seeds now believe `t`; nothing but beliefs changes. */
  method DrawSeeds(env: Env, t: NewsType) returns (r: Result<seq<int>>)
    requires env.Valid()
    modifies env.agents.Values, env.rng
    ensures env.rng.Valid() && InfluencerIds(env.agents) == old(InfluencerIds(env.agents))
    ensures SharedMap(env.agents) == old(SharedMap(env.agents)) && TraitMap(env.agents) == old(TraitMap(env.agents))
    ensures r.Ok? <==> old(CanSeed(env))
    ensures r.Ok? ==> |r.value| == SEED_COUNT && NoDup(r.value) && forall u :: u in r.value ==> u in env.agents
    ensures r.Ok? ==> env.rng.drawn == old(env.rng.drawn) + SEED_COUNT
    ensures forall u :: u in env.agents ==>
      env.agents[u].beliefState == if r.Ok? && u in r.value then Some(t) else old(env.agents[u].beliefState)
    ensures BeliefMap(env.agents) == SeedBeliefs(old(BeliefMap(env.agents)), if r.Ok? then r.value else [], t)
  {
    ghost var before := BeliefMap(env.agents);
    if env.TracksSources() {
      r := SelectInitialSeedsVariant(env.agents, t, env.rng);
    } else {
      r := SelectInitialSeeds(env.agents, t, env.rng);
    }
    SeedingKeepsFlags(env.agents);
    ghost var seeds := if r.Ok? then r.value else [];
    forall u | u in BeliefMap(env.agents)
      ensures BeliefMap(env.agents)[u] == if u in seeds then Some(t) else before[u]
    {
    }
    SeedBeliefsExt(before, BeliefMap(env.agents), seeds, t);
  }

  /** Agents that did not change keep their flags, traits, beliefs and roles. */
  twostate lemma AgentsUnchanged(agents: map<int, Agent>)
    requires unchanged(agents.Values)
    ensures SharedMap(agents) == old(SharedMap(agents)) && TraitMap(agents) == old(TraitMap(agents))
    ensures BeliefMap(agents) == old(BeliefMap(agents)) && InfluencerIds(agents) == old(InfluencerIds(agents))
  {
  }

  /** One seeding pass: the seeds in draw order, the delay sampled for each
      seed's first share and the draw position of the first delay sample. */
  datatype SeedPass = SeedPass(seeds: seq<int>, delays: seq<int>, at: nat)

  /** The delays of pass `p` for news type `t` were sampled in seed order, one
      draw each from position `p.at` on, each from the delay table of its
      seed's role (influencer or not, by `traits`) under the trial's flags. */
  ghost predicate DelaysSampled(env: Env, traits: map<int, Traits>, t: NewsType, p: SeedPass) {
    && env.delays.Valid() && |p.delays| == |p.seeds|
    && (forall u :: u in p.seeds ==> u in traits)
    && forall j :: 0 <= j < |p.seeds| ==>
         p.delays[j] == SampledDelay(env.delays.For(t, traits[p.seeds[j]].roles.isInfluencer, env.flags),
                                     env.rng.stream(p.at + j))
  }

  /** Delays sampled from the tables of the seeds' agents are sampled from the
      tables of their traits. */
  lemma SampledWithTraits(env: Env, t: NewsType, p: SeedPass)
    requires env.delays.Valid() && |p.delays| == |p.seeds|
    requires forall j :: 0 <= j < |p.seeds| ==> p.seeds[j] in env.agents
    requires forall j :: 0 <= j < |p.seeds| ==>
      p.delays[j] == SampledDelay(env.delays.For(t, env.agents[p.seeds[j]].isInfluencer, env.flags),
                                  env.rng.stream(p.at + j))
    ensures DelaysSampled(env, TraitMap(env.agents), t, p)
  {
    var traits := TraitMap(env.agents);
    forall j | 0 <= j < |p.seeds|
      ensures p.seeds[j] in traits && traits[p.seeds[j]].roles.isInfluencer == env.agents[p.seeds[j]].isInfluencer
    {
      assert traits[p.seeds[j]] == env.agents[p.seeds[j]].GetTraits();
    }
    forall u | u in p.seeds
      ensures u in traits
    {
      var j :| 0 <= j < |p.seeds| && p.seeds[j] == u;
    }
  }

  /** `schedule_initial_shares` seen from the trial: one draw per seed, seed
      `j`'s share appended at the delay its table yields for the `j`-th draw plus
      the offset, and every agent left as it was. */
  method ScheduleDelays(env: Env, seeds: seq<int>, t: NewsType, schedule: Schedule, offset: int)
    returns (s: Schedule, ghost delays: seq<int>)
    requires env.rng.Valid() && env.delays.Valid() && forall j :: 0 <= j < |seeds| ==> seeds[j] in env.agents
    modifies env.rng
    ensures env.rng.Valid() && env.rng.drawn == old(env.rng.drawn) + |seeds|
    ensures |delays| == |seeds| && s == PushAll(schedule, seeds, delays, offset, t)
    ensures DelaysSampled(env, TraitMap(env.agents), t, SeedPass(seeds, delays, old(env.rng.drawn)))
    ensures InfluencerIds(env.agents) == old(InfluencerIds(env.agents))
    ensures SharedMap(env.agents) == old(SharedMap(env.agents)) && TraitMap(env.agents) == old(TraitMap(env.agents))
    ensures BeliefMap(env.agents) == old(BeliefMap(env.agents))
  {
    ghost var infl := InfluenceFlags(env.agents, seeds);
    ghost var draws;
    s, delays, draws := ScheduleInitialShares(seeds, env.agents, t, schedule, offset, env.delays, env.flags, env.rng);
    forall j | 0 <= j < |seeds|
      ensures delays[j] == SampledDelay(env.delays.For(t, env.agents[seeds[j]].isInfluencer, env.flags),
                                        env.rng.stream(old(env.rng.drawn) + j))
    {
      assert SeedDelaySampled(env.delays, t, infl[j], env.flags, draws[j], delays[j]);
    }
    SampledWithTraits(env, t, SeedPass(seeds, delays, old(env.rng.drawn)));
    AgentsUnchanged(env.agents);
  }

  /** The source map after a seeding pass under variant A: each seed's origin
      by its role, every other entry as it was. */
  function SeedSources(traits: map<int, Traits>, seeds: seq<int>, sourceMap: map<int, Source>): map<int, Source>
    requires forall u :: u in seeds ==> u in traits
  {
    map u | u in sourceMap.Keys + Elements(seeds) ::
      if u in seeds then SeedSource(traits[u].roles.isInfluencer) else sourceMap[u]
  }

  /** The origins `RecordSeedSources` records are those of `SeedSources`. */
  lemma RecordedSources(agents: map<int, Agent>, seeds: seq<int>, sourceMap: map<int, Source>, m: map<int, Source>)
    requires forall u :: u in seeds ==> u in agents
    requires m.Keys == sourceMap.Keys + Elements(seeds)
    requires forall u :: u in m ==> m[u] == if u in seeds then SeedSource(agents[u].isInfluencer) else sourceMap[u]
    ensures m == SeedSources(TraitMap(agents), seeds, sourceMap)
  {
    var traits := TraitMap(agents);
    var m' := SeedSources(traits, seeds, sourceMap);
    assert m.Keys == m'.Keys;
    forall u | u in m
      ensures m[u] == m'[u]
    {
      if u in seeds {
        assert traits[u] == agents[u].GetTraits();
      }
    }
  }

  /** A seeding pass for `t` took the state from `st` to `st'`: the seeds of
      `p` joined `infected[t]`, each seed's first share was appended to the
      schedule at its sampled delay (`DelaysSampled`) plus the offset of
      `SeedOffset`, under variant A each seed's origin was recorded, and
      nothing else changed; every infected agent has traits and every
      scheduled share is by an infected agent. */
  ghost predicate SeedPassed(env: Env, traits: map<int, Traits>, realNewsDelay: int, t: NewsType, p: SeedPass,
                             st: SpreadState, st': SpreadState)
  {
    && DelaysSampled(env, traits, t, p)
    && st' == Seeded(st, t, p.seeds,
                     PushAll(st.schedule, p.seeds, p.delays, SeedOffset(env.hypothesis, t, realNewsDelay), t),
                     if env.TracksSources() then SeedSources(traits, p.seeds, st.sourceMap) else st.sourceMap)
    && st'.infectedFake <= traits.Keys && st'.infectedReal <= traits.Keys
    && EventsWithin(st'.schedule, st'.infectedFake, st'.infectedReal)
  }

  /** The rest of the seeding pass for `t`: under variant A each seed's origin
      is recorded, each seed's first share is scheduled at its sampled delay plus
      the offset (`real_news_delay` for real news in the competing-news
      experiment), and the seeds join `infected[t]`. */
  method ScheduleSeeds(env: Env, st: SpreadState, t: NewsType, seeds: seq<int>, realNewsDelay: int)
    returns (st': SpreadState, ghost p: SeedPass)
    requires env.rng.Valid() && env.delays.Valid() && forall j :: 0 <= j < |seeds| ==> seeds[j] in env.agents
    requires st.infectedFake <= env.agents.Keys && st.infectedReal <= env.agents.Keys
    requires EventsWithin(st.schedule, st.infectedFake, st.infectedReal)
    requires !env.TracksSources() ==> st.sourceMap == map[]
    modifies env.rng
    ensures env.rng.Valid() && InfluencerIds(env.agents) == old(InfluencerIds(env.agents))
    ensures SharedMap(env.agents) == old(SharedMap(env.agents)) && TraitMap(env.agents) == old(TraitMap(env.agents))
    ensures BeliefMap(env.agents) == old(BeliefMap(env.agents))
    ensures p.seeds == seeds && p.at == old(env.rng.drawn) && env.rng.drawn == p.at + |seeds|
    ensures SeedPassed(env, TraitMap(env.agents), realNewsDelay, t, p, st, st')
  {
    var offset := SeedOffset(env.hypothesis, t, realNewsDelay);
    ghost var at := env.rng.drawn;
    var schedule, delays := ScheduleDelays(env, seeds, t, st.schedule, offset);
    p := SeedPass(seeds, delays, at);
    var sources := st.sourceMap;
    if env.TracksSources() {
      sources := RecordSeedSources(env.agents, seeds, st.sourceMap);
      RecordedSources(env.agents, seeds, st.sourceMap, sources);
    }
    st' := Seeded(st, t, seeds, schedule, sources);
    assert st'.sourceMap == sources;
    WithinGrow(st.schedule, st.infectedFake, st.infectedReal, st'.infectedFake, st'.infectedReal);
    PushAllWithin(st.schedule, seeds, delays, offset, t, st'.infectedFake, st'.infectedReal);
  }

  /** After a seeding pass seed `j`'s first share is among the events of round
      `delays[j]` plus the offset. */
  lemma SeedPassScheduled(env: Env, traits: map<int, Traits>, realNewsDelay: int, t: NewsType, p: SeedPass,
                          st: SpreadState, st': SpreadState)
    requires SeedPassed(env, traits, realNewsDelay, t, p, st, st')
    ensures forall j :: 0 <= j < |p.seeds| ==>
      Event(p.seeds[j], t) in EventsAt(st'.schedule, p.delays[j] + SeedOffset(env.hypothesis, t, realNewsDelay))
  {
    PushAllScheduledAll(st.schedule, p.seeds, p.delays, SeedOffset(env.hypothesis, t, realNewsDelay), t);
  }

  /** After a seeding pass the seeds, and nothing else, have joined
      `infected[t]`; the reach lists and the revision counter are as before;
      and under variant A each seed's origin is its role, with no origin
      recorded otherwise. */
  lemma SeedPassJoined(env: Env, traits: map<int, Traits>, realNewsDelay: int, t: NewsType, p: SeedPass,
                       st: SpreadState, st': SpreadState)
    requires SeedPassed(env, traits, realNewsDelay, t, p, st, st')
    ensures st'.Infected(t) == st.Infected(t) + Elements(p.seeds)
    ensures st'.Infected(t.Other()) == st.Infected(t.Other())
    ensures st'.fakeReach == st.fakeReach && st'.realReach == st.realReach
    ensures st'.beliefRevisedCount == st.beliefRevisedCount
    ensures !env.TracksSources() ==> st'.sourceMap == st.sourceMap
    ensures env.TracksSources() ==> forall u :: u in p.seeds ==>
      u in st'.sourceMap && st'.sourceMap[u] == SeedSource(traits[u].roles.isInfluencer)
  {
  }

  /** One pass of the seeding loop for news type `t`: the seeds are drawn, then
      each seed's first share is scheduled as `ScheduleSeeds` describes. A draw
      that cannot be made fails before anything is scheduled. */
  method SeedNews(env: Env, st: SpreadState, t: NewsType, realNewsDelay: int)
    returns (r: Result<SpreadState>, ghost p: SeedPass)
    requires env.Valid()
    requires st.infectedFake <= env.agents.Keys && st.infectedReal <= env.agents.Keys
    requires EventsWithin(st.schedule, st.infectedFake, st.infectedReal)
    requires !env.TracksSources() ==> st.sourceMap == map[]
    modifies env.agents.Values, env.rng
    ensures env.rng.Valid() && InfluencerIds(env.agents) == old(InfluencerIds(env.agents))
    ensures SharedMap(env.agents) == old(SharedMap(env.agents)) && TraitMap(env.agents) == old(TraitMap(env.agents))
    ensures r.Ok? <==> old(CanSeed(env))
    ensures BeliefMap(env.agents) == SeedBeliefs(old(BeliefMap(env.agents)), if r.Ok? then p.seeds else [], t)
    ensures r.Ok? ==>
      && |p.seeds| == SEED_COUNT && NoDup(p.seeds) && (forall u :: u in p.seeds ==> u in env.agents)
      && p.at == old(env.rng.drawn) + SEED_COUNT && env.rng.drawn == p.at + |p.seeds|
      && SeedPassed(env, TraitMap(env.agents), realNewsDelay, t, p, st, r.value)
  {
    var drawn := DrawSeeds(env, t);
    if drawn.Err? {
      return Err(drawn.error), SeedPass([], [], 0);
    }
    var seeds := drawn.value;
    forall j | 0 <= j < |seeds|
      ensures seeds[j] in env.agents
    {
      assert seeds[j] in seeds;
    }
    var st';
    st', p := ScheduleSeeds(env, st, t, seeds, realNewsDelay);
    r := Ok(st');
  }

  /** Before the first round nothing has happened since the trial's snapshot:
      the invariant holds against that same snapshot. */
  lemma ConsistentAtStart(env: Env, now: Snapshot, st: SpreadState)
    requires now.shared.Keys == env.agents.Keys && now.beliefs.Keys == env.agents.Keys
    requires st.infectedFake <= env.agents.Keys && st.infectedReal <= env.agents.Keys
    requires EventsWithin(st.schedule, st.infectedFake, st.infectedReal)
    requires st.beliefRevisedCount == 0
    requires !env.TracksSources() ==> st.sourceMap == map[]
    ensures Consistent(env, now, st, now)
  {
    assert NewShares(now.shared, now.shared, Fake) == {};
    assert NewShares(now.shared, now.shared, Real) == {};
  }

  /** `st` is the state the two seeding passes leave: `SEED_COUNT` distinct
      seeds per type, infected with it; the schedule holds exactly the fake
      seeds' first shares and then the real seeds', each at its sampled delay
      (the real ones shifted by the offset of `SeedOffset`); under variant A
      the origins of the fake seeds and then of the real seeds are recorded,
      otherwise none; no reach entry and no revision yet. */
  ghost predicate SeededBy(env: Env, traits: map<int, Traits>, realNewsDelay: int, fakePass: SeedPass, realPass: SeedPass,
                           st: SpreadState)
  {
    && |fakePass.seeds| == SEED_COUNT && NoDup(fakePass.seeds) && |realPass.seeds| == SEED_COUNT && NoDup(realPass.seeds)
    && DelaysSampled(env, traits, Fake, fakePass) && DelaysSampled(env, traits, Real, realPass)
    && st.schedule == PushAll(PushAll(map[], fakePass.seeds, fakePass.delays, 0, Fake),
                              realPass.seeds, realPass.delays, SeedOffset(env.hypothesis, Real, realNewsDelay), Real)
    && st.infectedFake == Elements(fakePass.seeds) && st.infectedReal == Elements(realPass.seeds)
    && |st.infectedFake| == SEED_COUNT && |st.infectedReal| == SEED_COUNT
    && st.sourceMap == (if env.TracksSources()
                        then SeedSources(traits, realPass.seeds, SeedSources(traits, fakePass.seeds, map[]))
                        else map[])
    && st.fakeReach == [] && st.realReach == [] && st.beliefRevisedCount == 0
  }

  /** The fake pass from the empty state followed by the real pass leaves the
      state `SeededBy` describes. */
  lemma SeededByPasses(env: Env, traits: map<int, Traits>, realNewsDelay: int, fakePass: SeedPass, realPass: SeedPass,
                       mid: SpreadState, st: SpreadState)
    requires |fakePass.seeds| == SEED_COUNT && NoDup(fakePass.seeds) && |realPass.seeds| == SEED_COUNT && NoDup(realPass.seeds)
    requires SeedPassed(env, traits, realNewsDelay, Fake, fakePass, EMPTY_STATE, mid)
    requires SeedPassed(env, traits, realNewsDelay, Real, realPass, mid, st)
    ensures SeededBy(env, traits, realNewsDelay, fakePass, realPass, st)
  {
    NoDupCard(fakePass.seeds);
    NoDupCard(realPass.seeds);
  }

  /** The seeding loop over `['fake', 'real']`, written out as its two passes
      from the empty state. Afterwards each type has `SEED_COUNT` infected
      seeds, the schedule holds exactly the first shares of the fake seeds and
      then of the real seeds, at their sampled delays (the real ones shifted by
      `real_news_delay` in the competing-news experiment), the seeds believe
      their type (a real seed that was also a fake seed believes real), no share
      flag or trait has changed, and the invariant holds against the snapshot
      taken now. */
  method SeedBoth(env: Env, realNewsDelay: int) returns (r: Result<SpreadState>, ghost fakePass: SeedPass, ghost realPass: SeedPass)
    requires env.Valid()
    modifies env.agents.Values, env.rng
    ensures env.rng.Valid()
    ensures TakeSnapshot(env) == old(TakeSnapshot(env)).(beliefs := BeliefMap(env.agents))
    ensures r.Ok? <==> old(CanSeed(env))
    ensures r.Ok? ==>
      && Inv(env, r.value, TakeSnapshot(env))
      && SeededBy(env, TraitMap(env.agents), realNewsDelay, fakePass, realPass, r.value)
      && fakePass.at == old(env.rng.drawn) + SEED_COUNT && realPass.at == fakePass.at + 2 * SEED_COUNT
      && env.rng.drawn == realPass.at + SEED_COUNT
      && BeliefMap(env.agents) == SeedBeliefs(SeedBeliefs(old(BeliefMap(env.agents)), fakePass.seeds, Fake), realPass.seeds, Real)
  {
    var seededFake, seededBoth;
    seededFake, fakePass := SeedNews(env, EMPTY_STATE, Fake, realNewsDelay);
    if seededFake.Err? {
      return Err(seededFake.error), fakePass, SeedPass([], [], 0);
    }
    seededBoth, realPass := SeedNews(env, seededFake.value, Real, realNewsDelay);
    // The influencer set and the population are as before, so the second draw
    // cannot fail once the first has succeeded.
    assert seededBoth.Ok?;
    SeededByPasses(env, TraitMap(env.agents), realNewsDelay, fakePass, realPass, seededFake.value, seededBoth.value);
    ConsistentAtStart(env, TakeSnapshot(env), seededBoth.value);
    r := seededBoth;
  }

  // ---------------------------------------------------------------------------
  // The round loop
  // ---------------------------------------------------------------------------

  /** A reach curve: never decreasing, every entry between `lo` and `hi`. */
  ghost predicate Curve(reach: seq<nat>, lo: int, hi: int) {
    && (forall i, j :: 0 <= i <= j < |reach| ==> reach[i] <= reach[j])
    && (forall i :: 0 <= i < |reach| ==> lo <= reach[i] <= hi)
  }

  /** Appending a count no smaller than every earlier one keeps a reach curve. */
  lemma CurveExtend(reach: seq<nat>, lo: int, hi: int, n: nat)
    requires Curve(reach, lo, hi) && lo <= n && hi <= n
    ensures Curve(reach + [n], lo, n)
  {
  }

  /** The state `cur` after `n` rounds from `st`: one reach entry per round,
      both curves running from the counts in `st` up to the current ones and
      ending there, the infected sets and the revision counter grown, and every
      round that ran gone from the schedule. */
  ghost predicate Ran(st: SpreadState, cur: SpreadState, n: nat) {
    && |cur.fakeReach| == n && |cur.realReach| == n
    && st.infectedFake <= cur.infectedFake && st.infectedReal <= cur.infectedReal
    && st.beliefRevisedCount <= cur.beliefRevisedCount
    && Curve(cur.fakeReach, |st.infectedFake|, |cur.infectedFake|)
    && Curve(cur.realReach, |st.infectedReal|, |cur.infectedReal|)
    && (0 < n ==> cur.fakeReach[n - 1] == |cur.infectedFake| && cur.realReach[n - 1] == |cur.infectedReal|)
    && (forall k :: 0 <= k < n ==> k !in cur.schedule)
  }

  /** One more round, as `ProcessRound` describes it, extends `Ran` by one. */
  lemma RanStep(st: SpreadState, before: SpreadState, after: SpreadState, n: nat)
    requires Ran(st, before, n)
    requires before.infectedFake <= after.infectedFake && before.infectedReal <= after.infectedReal
    requires before.beliefRevisedCount <= after.beliefRevisedCount
    requires after.fakeReach == before.fakeReach + [|after.infectedFake|]
    requires after.realReach == before.realReach + [|after.infectedReal|]
    requires n !in after.schedule
    requires forall k :: k < n ==> (k in after.schedule <==> k in before.schedule)
    ensures Ran(st, after, n + 1)
  {
    SubsetCard(before.infectedFake, after.infectedFake);
    SubsetCard(before.infectedReal, after.infectedReal);
    SubsetCard(st.infectedFake, after.infectedFake);
    SubsetCard(st.infectedReal, after.infectedReal);
    CurveExtend(before.fakeReach, |st.infectedFake|, |before.infectedFake|, |after.infectedFake|);
    CurveExtend(before.realReach, |st.infectedReal|, |before.infectedReal|, |after.infectedReal|);
  }

  /** What the rounds run so far did: before each round and after the last,
      the spread state, the snapshot of the agents and items, and the draw
      position, with each round's own record. */
  datatype Trace = Trace(states: seq<SpreadState>, snaps: seq<Snapshot>, marks: seq<nat>, rounds: seq<RoundTrail>)
  {
    /** The trace with one more round, which left these values. */
    function Then(st: SpreadState, snap: Snapshot, mark: nat, r: RoundTrail): Trace {
      Trace(states + [st], snaps + [snap], marks + [mark], rounds + [r])
    }
  }

  /** Rounds `0` to `n - 1` took the spread state from `st` to `cur`: round `k`
      went from position `k` of the trace to position `k + 1` as `RoundApplied`
      describes, the `k`-th reach entry of each type is the infected count
      round `k` left, and every round but the last left something scheduled. */
  ghost predicate Traced(env: Env, st: SpreadState, cur: SpreadState, tr: Trace, n: nat)
    reads env.g
  {
    && |tr.states| == n + 1 && |tr.snaps| == n + 1 && |tr.marks| == n + 1 && |tr.rounds| == n
    && tr.states[0] == st && tr.states[n] == cur
    && |cur.fakeReach| == n && |cur.realReach| == n
    && (forall k :: 0 <= k < n ==>
          RoundApplied(env, k, tr.states[k], tr.states[k + 1], tr.snaps[k], tr.snaps[k + 1],
                       tr.marks[k], tr.marks[k + 1], tr.rounds[k]))
    && (forall k :: 0 <= k < n ==>
          cur.fakeReach[k] == |tr.states[k + 1].infectedFake| && cur.realReach[k] == |tr.states[k + 1].infectedReal|)
    && (forall k :: 1 <= k < n ==> |tr.states[k].schedule| != 0)
  }

  /** The early stop: the loop ran `n` rounds, at least one and at most
      `MAX_ROUNDS`, as `Traced` describes, and one that stopped before
      `MAX_ROUNDS` did so because its last round left nothing scheduled
      (`if not schedule: break`). */
  ghost predicate StoppedAt(env: Env, st: SpreadState, cur: SpreadState, tr: Trace, n: nat)
    reads env.g
  {
    && 1 <= n <= MAX_ROUNDS && Traced(env, st, cur, tr, n)
    && (n < MAX_ROUNDS ==> |cur.schedule| == 0)
  }

  /** Before any round the trace holds the start alone. */
  lemma TraceStart(env: Env, st: SpreadState, snap: Snapshot, mark: nat)
    requires st.fakeReach == [] && st.realReach == []
    ensures Traced(env, st, st, Trace([st], [snap], [mark], []), 0)
  {
  }

  /** A round after one that left something scheduled, which appended the
      infected counts it left to the reach lists, extends the trace. */
  lemma TraceStep(env: Env, st: SpreadState, cur: SpreadState, next: SpreadState, tr: Trace, n: nat,
                  snap: Snapshot, mark: nat, r: RoundTrail)
    requires Traced(env, st, cur, tr, n) && (0 < n ==> |cur.schedule| != 0)
    requires RoundApplied(env, n, cur, next, tr.snaps[n], snap, tr.marks[n], mark, r)
    requires next.fakeReach == cur.fakeReach + [|next.infectedFake|]
    requires next.realReach == cur.realReach + [|next.infectedReal|]
    ensures Traced(env, st, next, tr.Then(next, snap, mark, r), n + 1)
  {
    var tr' := tr.Then(next, snap, mark, r);
    forall k | 0 <= k < n + 1
      ensures RoundApplied(env, k, tr'.states[k], tr'.states[k + 1], tr'.snaps[k], tr'.snaps[k + 1],
                           tr'.marks[k], tr'.marks[k + 1], tr'.rounds[k])
    {
    }
  }

  /** The round loop after `n` rounds from `st`, begun at snapshot `snap0` and
      draw position `mark0`: the invariant holds, the rounds ran as `Ran` and
      `Traced` describe, and the trace ends at the current snapshot and draw
      position. */
  ghost predicate Looping(env: Env, st: SpreadState, cur: SpreadState, base: Snapshot, tr: Trace, n: nat,
                          snap0: Snapshot, mark0: nat)
    reads env.agents.Values, env.fakeItem, env.realItem, env.rng, env.g
  {
    && env.rng.Valid() && Inv(env, cur, base)
    && Ran(st, cur, n) && Traced(env, st, cur, tr, n)
    && tr.snaps[0] == snap0 && tr.marks[0] == mark0
    && tr.snaps[n] == TakeSnapshot(env) && tr.marks[n] == env.rng.drawn
  }

  /** One iteration of the round loop, after `n` rounds that each left something
      scheduled: round `n` is processed as `RoundApplied` describes, extending
      both the loop's record of the run and its trace. */
  method RunRound(env: Env, ghost st: SpreadState, cur: SpreadState, ghost base: Snapshot, n: nat, ghost tr: Trace,
                  ghost snap0: Snapshot, ghost mark0: nat)
    returns (next: SpreadState, ghost tr': Trace, ghost r: RoundTrail)
    requires env.Valid() && Looping(env, st, cur, base, tr, n, snap0, mark0) && (0 < n ==> |cur.schedule| != 0)
    modifies env.agents.Values, env.fakeItem, env.realItem, env.rng
    ensures Looping(env, st, next, base, tr', n + 1, snap0, mark0)
    ensures tr' == tr.Then(next, TakeSnapshot(env), env.rng.drawn, r)
  {
    next, r := ProcessRound(env, cur, base, n);
    RanStep(st, cur, next, n);
    TraceStep(env, st, cur, next, tr, n, TakeSnapshot(env), env.rng.drawn, r);
    tr' := tr.Then(next, TakeSnapshot(env), env.rng.drawn, r);
  }

  /** `for round_num in range(max_rounds)`: rounds 0, 1, ... are processed until
      the schedule is empty after a round (the early stop) or `MAX_ROUNDS`
      rounds have run. Each round is applied to the state, agents, items and
      draw position the previous one left, as `RoundApplied` describes; each
      reach list gains one entry per round run, the infected count that round
      left; the lists never decrease, start no lower than the infected counts
      at seeding and end at the final ones; every round that ran is gone from
      the schedule; the loop stops right after the first round that empties the
      schedule. */
  method RunRounds(env: Env, st: SpreadState, ghost base: Snapshot)
    returns (st': SpreadState, ghost tr: Trace)
    requires env.Valid() && Inv(env, st, base) && st.fakeReach == [] && st.realReach == []
    modifies env.agents.Values, env.fakeItem, env.realItem, env.rng
    ensures env.rng.Valid() && Inv(env, st', base)
    ensures 1 <= |st'.fakeReach| <= MAX_ROUNDS && Ran(st, st', |st'.fakeReach|)
    ensures StoppedAt(env, st, st', tr, |st'.fakeReach|)
    ensures tr.snaps[0] == old(TakeSnapshot(env)) && tr.marks[0] == old(env.rng.drawn)
    ensures tr.snaps[|st'.fakeReach|] == TakeSnapshot(env) && tr.marks[|st'.fakeReach|] == env.rng.drawn
  {
    ghost var snap0, mark0 := TakeSnapshot(env), env.rng.drawn;
    st' := st;
    tr := Trace([st], [snap0], [mark0], []);
    TraceStart(env, st, snap0, mark0);
    var roundNum := 0;
    while roundNum < MAX_ROUNDS
      invariant 0 <= roundNum <= MAX_ROUNDS && env.Valid()
      invariant Looping(env, st, st', base, tr, roundNum, snap0, mark0)
      invariant 0 < roundNum ==> |st'.schedule| != 0
    {
      ghost var r;
      st', tr, r := RunRound(env, st, st', base, roundNum, tr, snap0, mark0);
      roundNum := roundNum + 1;
      if |st'.schedule| == 0 {
        break;
      }
    }
  }

  // ---------------------------------------------------------------------------
  // End-of-trial statistics
  // ---------------------------------------------------------------------------

  /** The agents of `ids` whose recorded origin is `src`. */
  ghost function WithSource(ids: set<int>, sourceMap: map<int, Source>, src: Source): set<int> {
    set u | u in ids && SourceOf(sourceMap, u) == src
  }

  /** `sum(1 for uid in ids if source_map.get(uid) == src)`. */
  method CountFrom(ids: set<int>, sourceMap: map<int, Source>, src: Source) returns (n: nat)
    ensures n == |WithSource(ids, sourceMap, src)|
  {
    n := 0;
    var rest := ids;
    while rest != {}
      invariant rest <= ids
      invariant n == |WithSource(ids - rest, sourceMap, src)|
      decreases rest
    {
      var u := PickAny(rest);
      var seen := WithSource(ids - rest, sourceMap, src);
      if SourceOf(sourceMap, u) == src {
        assert WithSource(ids - (rest - {u}), sourceMap, src) == seen + {u};
        n := n + 1;
      } else {
        assert WithSource(ids - (rest - {u}), sourceMap, src) == seen;
      }
      rest := rest - {u};
    }
    assert ids - rest == ids;
  }

  /** No agent is counted under both origins, so the two impact counts together
      are at most the number of agents counted; with no sources recorded both
      are zero. */
  lemma ImpactBound(ids: set<int>, sourceMap: map<int, Source>)
    ensures |WithSource(ids, sourceMap, FromInfluencer)| + |WithSource(ids, sourceMap, FromNormal)| <= |ids|
    ensures sourceMap == map[] ==>
      WithSource(ids, sourceMap, FromInfluencer) == {} && WithSource(ids, sourceMap, FromNormal) == {}
  {
    var a := WithSource(ids, sourceMap, FromInfluencer);
    var b := WithSource(ids, sourceMap, FromNormal);
    assert a * b == {};
    SubsetCard(a + b, ids);
  }

  /** The agents of `ids` who believe `t`. */
  ghost function Believers(agents: map<int, Agent>, ids: set<int>, t: NewsType): set<int>
    reads agents.Values
  {
    set u | u in ids && u in agents && agents[u].beliefState == Some(t)
  }

  /** `final_beliefs`: the number of agents believing fake and real news. */
  method TallyBeliefs(agents: map<int, Agent>) returns (fakeBelievers: nat, realBelievers: nat)
    ensures fakeBelievers == |Believers(agents, agents.Keys, Fake)| && realBelievers == |Believers(agents, agents.Keys, Real)|
  {
    fakeBelievers, realBelievers := 0, 0;
    var rest := agents.Keys;
    while rest != {}
      invariant rest <= agents.Keys
      invariant fakeBelievers == |Believers(agents, agents.Keys - rest, Fake)|
      invariant realBelievers == |Believers(agents, agents.Keys - rest, Real)|
      decreases rest
    {
      var u := PickAny(rest);
      var done := agents.Keys - rest;
      var done' := agents.Keys - (rest - {u});
      assert done' == done + {u};
      if agents[u].beliefState == Some(Fake) {
        assert Believers(agents, done', Fake) == Believers(agents, done, Fake) + {u};
        assert Believers(agents, done', Real) == Believers(agents, done, Real);
        fakeBelievers := fakeBelievers + 1;
      } else if agents[u].beliefState == Some(Real) {
        assert Believers(agents, done', Fake) == Believers(agents, done, Fake);
        assert Believers(agents, done', Real) == Believers(agents, done, Real) + {u};
        realBelievers := realBelievers + 1;
      } else {
        assert Believers(agents, done', Fake) == Believers(agents, done, Fake);
        assert Believers(agents, done', Real) == Believers(agents, done, Real);
      }
      rest := rest - {u};
    }
    assert agents.Keys - rest == agents.Keys;
  }

  /** No agent believes both types, so the final counts add up to at most the
      number of agents. */
  lemma BelieversBound(agents: map<int, Agent>)
    ensures |Believers(agents, agents.Keys, Fake)| + |Believers(agents, agents.Keys, Real)| <= |agents|
  {
    var a := Believers(agents, agents.Keys, Fake);
    var b := Believers(agents, agents.Keys, Real);
    assert a * b == {};
    SubsetCard(a + b, agents.Keys);
  }

  // ---------------------------------------------------------------------------
  // One trial
  // ---------------------------------------------------------------------------

  /** What `simulate_spread` returns: `stats` (the reach lists), `final_beliefs`,
      `belief_revised_count` and `influencer_impact`. */
  datatype Outcome = Outcome(
    fakeReach: seq<nat>,
    realReach: seq<nat>,
    finalFake: nat,
    finalReal: nat,
    beliefRevisedCount: nat,
    influencerImpact: nat,
    normalImpact: nat)

  /** A reach curve stays one under wider bounds. */
  lemma CurveWiden(reach: seq<nat>, lo: int, hi: int, lo': int, hi': int)
    requires Curve(reach, lo, hi) && lo' <= lo && hi <= hi'
    ensures Curve(reach, lo', hi')
  {
  }

  /** What a trial does to the agents and items, from snapshot `start` to
      snapshot `now`: each item's share counter grew by exactly the number of
      agents that raised that type's share flag, flagging is one-way, the real
      item is never flagged and traits never change. */
  ghost predicate Accounted(start: Snapshot, now: Snapshot) {
    && now.fakeCount == start.fakeCount + |NewShares(now.shared, start.shared, Fake)|
    && now.realCount == start.realCount + |NewShares(now.shared, start.shared, Real)|
    && (start.fakeFlagged ==> now.fakeFlagged)
    && now.realFlagged == start.realFlagged
    && now.traits == start.traits
  }

  /** The invariant accounts for everything since its base snapshot, and beliefs
      play no part in that account. */
  lemma ConsistentAccounted(env: Env, now: Snapshot, st: SpreadState, base: Snapshot, start: Snapshot)
    requires Consistent(env, now, st, base) && base == start.(beliefs := base.beliefs)
    ensures Accounted(start, now)
  {
  }

  /** A finished run: one reach entry per round run, at least one and at most
      `MAX_ROUNDS`, both curves between the seed count and the population, the
      last fake-news entry the final reach; no revisions outside the
      competing-news experiment and no sources outside variant A. */
  ghost predicate Finished(env: Env, st: SpreadState) {
    && 1 <= |st.fakeReach| <= MAX_ROUNDS && |st.realReach| == |st.fakeReach|
    && Curve(st.fakeReach, SEED_COUNT, |env.agents|) && Curve(st.realReach, SEED_COUNT, |env.agents|)
    && st.fakeReach[|st.fakeReach| - 1] == |st.infectedFake| && st.infectedFake <= env.agents.Keys
    && (env.hypothesis != H3 ==> st.beliefRevisedCount == 0)
    && (!env.TracksSources() ==> st.sourceMap == map[])
  }

  /** The round loop from freshly seeded news: the rounds ran as `StoppedAt`
      describes, from the snapshot and draw position at the start to the
      current ones, the reach curves are bounded by the seeds and the
      population, and the agents and items are accounted for against `start`,
      which differs from the snapshot taken at seeding in beliefs alone. */
  method RunSeeded(env: Env, seeded: SpreadState, ghost base: Snapshot, ghost start: Snapshot)
    returns (st: SpreadState, ghost tr: Trace)
    requires env.Valid() && Inv(env, seeded, base) && base == start.(beliefs := base.beliefs)
    requires |seeded.infectedFake| == SEED_COUNT && |seeded.infectedReal| == SEED_COUNT
    requires seeded.fakeReach == [] && seeded.realReach == [] && seeded.beliefRevisedCount == 0
    modifies env.agents.Values, env.fakeItem, env.realItem, env.rng
    ensures env.rng.Valid()
    ensures Finished(env, st) && StoppedAt(env, seeded, st, tr, |st.fakeReach|)
    ensures tr.snaps[0] == old(TakeSnapshot(env)) && tr.marks[0] == old(env.rng.drawn)
    ensures tr.snaps[|st.fakeReach|] == TakeSnapshot(env) && tr.marks[|st.fakeReach|] == env.rng.drawn
    ensures Accounted(start, TakeSnapshot(env))
  {
    st, tr := RunRounds(env, seeded, base);
    ConsistentAccounted(env, TakeSnapshot(env), st, base, start);
    SubsetCard(st.infectedFake, env.agents.Keys);
    SubsetCard(st.infectedReal, env.agents.Keys);
    CurveWiden(st.fakeReach, |seeded.infectedFake|, |st.infectedFake|, SEED_COUNT, |env.agents|);
    CurveWiden(st.realReach, |seeded.infectedReal|, |st.infectedReal|, SEED_COUNT, |env.agents|);
  }

  /** What a trial did: the two seeding passes, the state they left, the state
      the rounds left and the trace of the rounds. */
  datatype Run = Run(fakePass: SeedPass, realPass: SeedPass, seeded: SpreadState, final: SpreadState, rounds: Trace)

  /** The trial went as `run` records, from draw position `drawn0`: the fake
      seeds were drawn first (`SEED_COUNT` draws), then their delays, then the
      real seeds and their delays, the two passes leaving `run.seeded` as
      `SeededBy` describes, with the seeds' traits as `traits`; the rounds then
      ran from there to `run.final` as `StoppedAt` describes, starting right
      after the last seeding draw and from the snapshot `start` with the fake
      seeds believing fake and then the real seeds believing real, and ending
      at snapshot `now` and draw position `drawn`. */
  ghost predicate RanTrial(env: Env, realNewsDelay: int, traits: map<int, Traits>, start: Snapshot, now: Snapshot,
                           drawn0: nat, drawn: nat, run: Run)
    reads env.g
  {
    var n := |run.final.fakeReach|;
    && SeededBy(env, traits, realNewsDelay, run.fakePass, run.realPass, run.seeded)
    && run.fakePass.at == drawn0 + SEED_COUNT && run.realPass.at == run.fakePass.at + 2 * SEED_COUNT
    && StoppedAt(env, run.seeded, run.final, run.rounds, n)
    && run.rounds.snaps[0] == start.(beliefs := run.rounds.snaps[0].beliefs)
    && run.rounds.snaps[0].beliefs == SeedBeliefs(SeedBeliefs(start.beliefs, run.fakePass.seeds, Fake), run.realPass.seeds, Real)
    && run.rounds.marks[0] == run.realPass.at + SEED_COUNT
    && run.rounds.snaps[n] == now && run.rounds.marks[n] == drawn
  }

  /** Seeding followed by the round loop: the state the statistics are taken
      from, reached as `RanTrial` describes. */
  method SeededRun(env: Env, realNewsDelay: int) returns (r: Result<SpreadState>, ghost run: Run)
    requires env.Valid()
    modifies env.agents.Values, env.fakeItem, env.realItem, env.rng
    ensures env.rng.Valid()
    ensures r.Ok? <==> old(CanSeed(env))
    ensures r.Ok? ==>
      && r.value == run.final && Finished(env, r.value)
      && RanTrial(env, realNewsDelay, TraitMap(env.agents), old(TakeSnapshot(env)), TakeSnapshot(env), old(env.rng.drawn), env.rng.drawn, run)
    ensures r.Ok? ==> Accounted(old(TakeSnapshot(env)), TakeSnapshot(env))
  {
    ghost var start := TakeSnapshot(env);
    var seeded;
    ghost var fakePass, realPass;
    seeded, fakePass, realPass := SeedBoth(env, realNewsDelay);
    if seeded.Err? {
      return Err(seeded.error), Run(fakePass, realPass, EMPTY_STATE, EMPTY_STATE, Trace([], [], [], []));
    }
    ghost var base := TakeSnapshot(env);
    ghost var traits := TraitMap(env.agents);
    var st;
    ghost var tr;
    st, tr := RunSeeded(env, seeded.value, base, start);
    assert TraitMap(env.agents) == TakeSnapshot(env).traits == start.traits == traits;
    r := Ok(st);
    run := Run(fakePass, realPass, seeded.value, st, tr);
  }

  /** The statistics of a finished run: `influencer_impact` (under `'h2'` only)
      and `final_beliefs`, returned with the reach lists and the revision count. */
  method Statistics(env: Env, st: SpreadState) returns (o: Outcome)
    requires st.infectedFake <= env.agents.Keys
    requires |st.fakeReach| > 0 && st.fakeReach[|st.fakeReach| - 1] == |st.infectedFake|
    requires !env.TracksSources() ==> st.sourceMap == map[]
    ensures o.fakeReach == st.fakeReach && o.realReach == st.realReach
    ensures o.beliefRevisedCount == st.beliefRevisedCount
    ensures o.finalFake == |Believers(env.agents, env.agents.Keys, Fake)|
    ensures o.finalReal == |Believers(env.agents, env.agents.Keys, Real)|
    ensures o.finalFake + o.finalReal <= |env.agents|
    ensures env.hypothesis == H2 ==>
      && o.influencerImpact == |WithSource(st.infectedFake, st.sourceMap, FromInfluencer)|
      && o.normalImpact == |WithSource(st.infectedFake, st.sourceMap, FromNormal)|
    ensures env.hypothesis != H2 || !env.TracksSources() ==> o.influencerImpact == 0 && o.normalImpact == 0
    ensures o.influencerImpact + o.normalImpact <= o.fakeReach[|o.fakeReach| - 1]
    ensures TakeSnapshot(env) == old(TakeSnapshot(env))
  {
    var influencerImpact, normalImpact := 0, 0;
    if env.hypothesis == H2 {
      influencerImpact := CountFrom(st.infectedFake, st.sourceMap, FromInfluencer);
      normalImpact := CountFrom(st.infectedFake, st.sourceMap, FromNormal);
      ImpactBound(st.infectedFake, st.sourceMap);
    }
    var finalFake, finalReal := TallyBeliefs(env.agents);
    BelieversBound(env.agents);
    assert unchanged(env.agents.Values, env.fakeItem, env.realItem);
    o := Outcome(st.fakeReach, st.realReach, finalFake, finalReal, st.beliefRevisedCount,
                 influencerImpact, normalImpact);
  }

  /** `simulate_spread`: seed both news types, run the rounds, then tally. The
      trial fails only when the seeds cannot be drawn. A finished trial went
      as `RanTrial` describes and reports the reach lists, the revision count
      and (under `'h2'`) the impact counts of the state the rounds left: one
      reach entry per round run (at least one, at most `MAX_ROUNDS`), each
      list non-decreasing, starting at no fewer than the seeds and bounded by
      the population; final believers of the two types together are at most the
      population; revisions happen only in the competing-news experiment and
      the influencer impact is non-zero only under variant A, where it counts
      disjoint parts of the fake-news reach. The agents and items are left as
      `Accounted` describes. */
  method SimulateSpread(env: Env, realNewsDelay: int) returns (r: Result<Outcome>, ghost run: Run)
    requires env.Valid()
    modifies env.agents.Values, env.fakeItem, env.realItem, env.rng
    ensures env.rng.Valid()
    ensures r.Ok? <==> old(CanSeed(env))
    ensures r.Ok? ==>
      var o := r.value;
      && RanTrial(env, realNewsDelay, TraitMap(env.agents), old(TakeSnapshot(env)), TakeSnapshot(env), old(env.rng.drawn), env.rng.drawn, run)
      && o.fakeReach == run.final.fakeReach && o.realReach == run.final.realReach
      && o.beliefRevisedCount == run.final.beliefRevisedCount
      && (env.hypothesis == H2 ==>
            && o.influencerImpact == |WithSource(run.final.infectedFake, run.final.sourceMap, FromInfluencer)|
            && o.normalImpact == |WithSource(run.final.infectedFake, run.final.sourceMap, FromNormal)|)
      && 1 <= |o.fakeReach| <= MAX_ROUNDS && |o.realReach| == |o.fakeReach|
      && Curve(o.fakeReach, SEED_COUNT, |env.agents|) && Curve(o.realReach, SEED_COUNT, |env.agents|)
      && o.finalFake == |Believers(env.agents, env.agents.Keys, Fake)|
      && o.finalReal == |Believers(env.agents, env.agents.Keys, Real)|
      && o.finalFake + o.finalReal <= |env.agents|
      && (env.hypothesis != H3 ==> o.beliefRevisedCount == 0)
      && (!env.TracksSources() ==> o.influencerImpact == 0 && o.normalImpact == 0)
      && o.influencerImpact + o.normalImpact <= o.fakeReach[|o.fakeReach| - 1]
    ensures r.Ok? ==> Accounted(old(TakeSnapshot(env)), TakeSnapshot(env))
  {
    var st;
    st, run := SeededRun(env, realNewsDelay);
    if st.Err? {
      return Err(st.error), run;
    }
    var o := Statistics(env, st.value);
    r := Ok(o);
  }
}
