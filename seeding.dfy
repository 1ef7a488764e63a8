/** Preparing a trial: per-agent share probabilities drawn from the agent's role
    range, the seed agents of each news type (uniform, or influencer-first under
    variant A) and the seeds' first shares put on the schedule. */
module Seeding {
  import opened Common
  import opened Config
  import opened NewsItems
  import opened Randomness
  import opened Agents
  import opened DelaySampling
  import opened Schedules

  /** Variant A draws at most this many influencers as seeds. */
  const MAX_INFLUENCER_SEEDS: nat := 7

  /** The range an agent's fake-news share probability is drawn from: the
      fact-checker range first, then by susceptible sub-type, else the normal range. */
  function FakeShareRange(isFactChecker: bool, isSusceptible: bool, subtype: Option<SusceptibleType>)
    : (range: Range)
    ensures IsProbabilityRange(range) && range.low < range.high
    ensures isFactChecker ==> range == P_FAKE_FACT_CHECKER
    ensures !isFactChecker && !isSusceptible ==> range == P_FAKE_NORMAL
  {
    if isFactChecker then P_FAKE_FACT_CHECKER
    else if isSusceptible then
      if subtype == Some(SuperSpreader) then P_FAKE_SUPER_SPREADER
      else if subtype == Some(HighlySusceptible) then P_FAKE_HIGHLY_SUSCEPTIBLE
      else P_FAKE_SUSCEPTIBLE
    else P_FAKE_NORMAL
  }

  /** The more susceptible the role, the higher its fake-news share range:
      fact-checkers below normal users, normal users below susceptible ones, and
      so on up to super-spreaders. */
  lemma ShareRangesOrdered(subtype: Option<SusceptibleType>)
    ensures FakeShareRange(true, false, None).high <= FakeShareRange(false, false, subtype).low
    ensures FakeShareRange(false, false, subtype).high <= FakeShareRange(false, true, None).low
    ensures FakeShareRange(false, true, None).high <= FakeShareRange(false, true, Some(HighlySusceptible)).low
    ensures FakeShareRange(false, true, Some(HighlySusceptible)).high
      <= FakeShareRange(false, true, Some(SuperSpreader)).low
  {
  }

  /** Agent `a`'s share probabilities lie in the ranges of its role. */
  ghost predicate SharesDrawn(a: Agent)
    reads a
  {
    var range := FakeShareRange(a.isFactChecker, a.isSusceptible, a.susceptibleType);
    && range.low <= a.pShareFake < range.high
    && P_REAL_NORMAL.low <= a.pShareReal < P_REAL_NORMAL.high
  }

  /** Between the two states, only the share probabilities of `a` changed. */
  twostate predicate OnlySharesChanged(a: Agent)
    reads a
  {
    && a.GetRoles() == old(a.GetRoles())
    && a.beliefState == old(a.beliefState) && a.hasShared == old(a.hasShared)
  }

  /** The loop body of `initialize_p_shares` for one agent. */
  method DrawShares(agent: Agent, rng: Random)
    requires rng.Valid()
    modifies agent, rng
    ensures rng.drawn == old(rng.drawn) + 2
    ensures SharesDrawn(agent) && OnlySharesChanged(agent)
  {
    var range := FakeShareRange(agent.isFactChecker, agent.isSusceptible, agent.susceptibleType);
    var pFake := rng.Uniform(range);
    var pReal := rng.Uniform(P_REAL_NORMAL);
    agent.pShareFake := pFake;
    agent.pShareReal := pReal;
  }

  /** `initialize_p_shares`: every agent draws its fake-news share probability
      from its role's range and then its real-news share probability from the
      normal range, two draws per agent. Nothing else about an agent changes. */
  method InitializePShares(agents: map<int, Agent>, rng: Random)
    requires rng.Valid()
    modifies agents.Values, rng
    ensures rng.drawn == old(rng.drawn) + 2 * |agents.Values|
    ensures forall a :: a in agents.Values ==>
      && SharesDrawn(a)
      && 0.0 <= a.pShareFake <= 1.0 && 0.0 <= a.pShareReal <= 1.0
      && a.GetRoles() == old(a.GetRoles())
      && a.beliefState == old(a.beliefState) && a.hasShared == old(a.hasShared)
  {
    var values := SetToSeq(agents.Values);
    for i := 0 to |values|
      invariant rng.drawn == old(rng.drawn) + 2 * i
      invariant forall j :: 0 <= j < i ==> SharesDrawn(values[j])
      invariant forall a :: a in agents.Values ==> OnlySharesChanged(a)
    {
      DrawShares(values[i], rng);
    }
  }

  /** `list(agents.keys())`: every id once, in an unspecified order. */
  method KeysInOrder(agents: map<int, Agent>) returns (keys: seq<int>)
    ensures NoDup(keys) && |keys| == |agents|
    ensures forall u :: u in keys <==> u in agents
  {
    keys := SetToSeq(agents.Keys);
  }

  /** The ids of the influencers. */
  ghost function InfluencerIds(agents: map<int, Agent>): set<int>
    reads agents.Values
  {
    set u | u in agents && agents[u].isInfluencer
  }

  /** `for uid in seeds: agents[uid].belief_state = news_type`. */
  method SetBeliefs(agents: map<int, Agent>, seeds: seq<int>, newsType: NewsType)
    requires DistinctAgents(agents) && forall j :: 0 <= j < |seeds| ==> seeds[j] in agents
    modifies agents.Values
    ensures forall u :: u in agents ==>
      agents[u].beliefState == if u in seeds then Some(newsType) else old(agents[u].beliefState)
    ensures forall a :: a in agents.Values ==> a.GetTraits() == old(a.GetTraits()) && a.hasShared == old(a.hasShared)
    ensures InfluencerIds(agents) == old(InfluencerIds(agents))
  {
    for i := 0 to |seeds|
      invariant forall u :: u in agents ==>
        agents[u].beliefState == if u in seeds[..i] then Some(newsType) else old(agents[u].beliefState)
      invariant forall a :: a in agents.Values ==> a.GetTraits() == old(a.GetTraits()) && a.hasShared == old(a.hasShared)
    {
      var target := agents[seeds[i]];
      target.beliefState := Some(newsType);
      assert forall u :: u in agents && u != seeds[i] ==> agents[u] != target;
      assert seeds[..i + 1] == seeds[..i] + [seeds[i]];
    }
    assert seeds[..|seeds|] == seeds;
  }

  /** `select_initial_seeds`: `SEED_COUNT` distinct agents drawn without replacement
      now believe the news; the draw fails, before any belief changes, when there
      are fewer agents than that. */
  method SelectInitialSeeds(agents: map<int, Agent>, newsType: NewsType, rng: Random)
    returns (r: Result<seq<int>>)
    requires DistinctAgents(agents) && rng.Valid()
    modifies agents.Values, rng
    ensures rng.Valid()
    ensures r.Ok? <==> SEED_COUNT <= |agents|
    ensures rng.drawn == old(rng.drawn) + (if r.Ok? then SEED_COUNT else 0)
    ensures r.Ok? ==> |r.value| == SEED_COUNT && NoDup(r.value) && forall u :: u in r.value ==> u in agents
    ensures forall u :: u in agents ==>
      agents[u].beliefState == if r.Ok? && u in r.value then Some(newsType) else old(agents[u].beliefState)
    ensures forall a :: a in agents.Values ==> a.GetTraits() == old(a.GetTraits()) && a.hasShared == old(a.hasShared)
    ensures InfluencerIds(agents) == old(InfluencerIds(agents))
  {
    var keys := KeysInOrder(agents);
    var sample := rng.Sample(keys, SEED_COUNT);
    if sample.Err? {
      return Err(sample.error);
    }
    var seeds := sample.value;
    assert multiset(seeds) <= multiset(keys);
    SubMultisetNoDup(keys, seeds);
    SameMembers(seeds, keys);
    forall j | 0 <= j < |seeds|
      ensures seeds[j] in agents
    {
      assert seeds[j] in seeds;
      assert seeds[j] in multiset(seeds);
      assert seeds[j] in multiset(keys);
      assert seeds[j] in keys;
    }
    SetBeliefs(agents, seeds, newsType);
    r := Ok(seeds);
  }

  /** The two list comprehensions of `select_initial_seeds_variant`: the ids of
      influencers and of everyone else, each in key order. */
  method PartitionKeys(agents: map<int, Agent>, keys: seq<int>) returns (influencers: seq<int>, others: seq<int>)
    requires forall j :: 0 <= j < |keys| ==> keys[j] in agents
    ensures multiset(influencers) + multiset(others) == multiset(keys)
    ensures forall u :: u in influencers ==> u in agents && agents[u].isInfluencer
    ensures forall u :: u in others ==> u in agents && !agents[u].isInfluencer
  {
    influencers := [];
    others := [];
    for i := 0 to |keys|
      invariant multiset(influencers) + multiset(others) == multiset(keys[..i])
      invariant forall u :: u in influencers ==> u in agents && agents[u].isInfluencer
      invariant forall u :: u in others ==> u in agents && !agents[u].isInfluencer
    {
      var u := keys[i];
      if agents[u].isInfluencer {
        influencers := influencers + [u];
      } else {
        others := others + [u];
      }
      assert keys[..i + 1] == keys[..i] + [u];
    }
    assert keys[..|keys|] == keys;
  }

  /** The influencer / non-influencer split, with its sizes. */
  method SplitByInfluence(agents: map<int, Agent>) returns (influencers: seq<int>, others: seq<int>)
    ensures NoDup(influencers) && NoDup(others)
    ensures Elements(influencers) == InfluencerIds(agents)
    ensures Elements(others) == agents.Keys - InfluencerIds(agents)
    ensures |influencers| == |InfluencerIds(agents)| && |others| == |agents| - |influencers|
  {
    var keys := KeysInOrder(agents);
    assert forall j :: 0 <= j < |keys| ==> keys[j] in keys;
    influencers, others := PartitionKeys(agents, keys);
    SubMultisetNoDup(keys, influencers);
    SubMultisetNoDup(keys, others);
    forall u | u in agents
      ensures u in influencers || u in others
    {
      assert u in multiset(keys);
    }
    forall u
      ensures u in influencers <==> u in InfluencerIds(agents)
    {
      if u in agents && agents[u].isInfluencer {
        assert u in influencers || u in others;
      }
    }
    assert Elements(influencers) == InfluencerIds(agents);
    forall u
      ensures u in others <==> u in agents.Keys - InfluencerIds(agents)
    {
      if u in agents && u !in InfluencerIds(agents) {
        assert !agents[u].isInfluencer;
      }
    }
    assert Elements(others) == agents.Keys - InfluencerIds(agents);
    NoDupCard(influencers);
    assert |multiset(keys)| == |keys|;
  }

  /** `select_initial_seeds_variant` (variant A): up to seven influencers, then enough
      non-influencers to make `SEED_COUNT` seeds, all now believing the news. The
      draw fails, before any belief changes, when there are too few non-influencers. */
  method SelectInitialSeedsVariant(agents: map<int, Agent>, newsType: NewsType, rng: Random)
    returns (r: Result<seq<int>>)
    requires DistinctAgents(agents) && rng.Valid()
    modifies agents.Values, rng
    ensures rng.Valid()
    ensures var k := Min(MAX_INFLUENCER_SEEDS, |InfluencerIds(agents)|);
      r.Ok? <==> SEED_COUNT - k <= |agents| - |InfluencerIds(agents)|
    ensures rng.drawn == old(rng.drawn) + (if r.Ok? then SEED_COUNT else Min(MAX_INFLUENCER_SEEDS, |InfluencerIds(agents)|))
    ensures r.Ok? ==>
      && |r.value| == SEED_COUNT && NoDup(r.value) && (forall u :: u in r.value ==> u in agents)
      && var k := Min(MAX_INFLUENCER_SEEDS, |InfluencerIds(agents)|);
      && (forall i :: 0 <= i < k ==> r.value[i] in InfluencerIds(agents))
      && (forall i :: k <= i < SEED_COUNT ==> r.value[i] !in InfluencerIds(agents))
    ensures forall u :: u in agents ==>
      agents[u].beliefState == if r.Ok? && u in r.value then Some(newsType) else old(agents[u].beliefState)
    ensures forall a :: a in agents.Values ==> a.GetTraits() == old(a.GetTraits()) && a.hasShared == old(a.hasShared)
    ensures InfluencerIds(agents) == old(InfluencerIds(agents))
  {
    var influencers, others := SplitByInfluence(agents);
    var k := Min(MAX_INFLUENCER_SEEDS, |influencers|);
    var fromInfluencers := rng.Sample(influencers, k);
    assert fromInfluencers.Ok?;
    var seedInfluencers := fromInfluencers.value;
    var fromOthers := rng.Sample(others, SEED_COUNT - |seedInfluencers|);
    if fromOthers.Err? {
      return Err(fromOthers.error);
    }
    var seedOthers := fromOthers.value;
    SubMultisetNoDup(influencers, seedInfluencers);
    SubMultisetNoDup(others, seedOthers);
    SameMembers(seedInfluencers, influencers);
    SameMembers(seedOthers, others);
    var seeds := seedInfluencers + seedOthers;
    assert NoDup(seeds) by {
      forall i, j | 0 <= i < j < |seeds|
        ensures seeds[i] != seeds[j]
      {
        if j >= |seedInfluencers| && i < |seedInfluencers| {
          assert seeds[i] in seedInfluencers && seeds[j] in seedOthers;
        }
      }
    }
    assert forall i :: 0 <= i < k ==> seeds[i] in seedInfluencers;
    assert forall i :: k <= i < SEED_COUNT ==> seeds[i] == seedOthers[i - k];
    forall j | 0 <= j < |seeds|
      ensures seeds[j] in agents
    {
      if seeds[j] in seedInfluencers {
        assert seeds[j] in multiset(influencers);
        assert seeds[j] in Elements(influencers);
      } else {
        assert seeds[j] in seedOthers;
        assert seeds[j] in multiset(others);
        assert seeds[j] in Elements(others);
      }
    }
    ghost var ids := InfluencerIds(agents);
    forall i | 0 <= i < SEED_COUNT
      ensures i < k ==> seeds[i] in ids
      ensures k <= i ==> seeds[i] !in ids
    {
      if i < k {
        assert seeds[i] in multiset(seedInfluencers);
        assert seeds[i] in Elements(influencers);
      } else {
        assert seeds[i] in multiset(seedOthers);
        assert seeds[i] in Elements(others);
      }
    }
    SetBeliefs(agents, seeds, newsType);
    assert ids == InfluencerIds(agents);
    r := Ok(seeds);
  }

  /** Elements drawn from a population belong to it. */
  lemma SameMembers(drawn: seq<int>, population: seq<int>)
    requires multiset(drawn) <= multiset(population)
    ensures forall u :: u in drawn ==> u in population
  {
    forall u | u in drawn
      ensures u in population
    {
      assert u in multiset(drawn);
    }
  }

  /** `delay` is what the delay table of an agent with this influencer flag
      yields for the uniform draw `u`. */
  ghost predicate SeedDelaySampled(tables: DelayTables, newsType: NewsType, isInfluencer: bool, flags: VariantFlags,
                                   u: real, delay: int)
  {
    tables.Valid() && delay == SampledDelay(tables.For(newsType, isInfluencer, flags), u)
  }

  /** The influencer flag of every seed, in seed order. */
  ghost function InfluenceFlags(agents: map<int, Agent>, seeds: seq<int>): (flags: seq<bool>)
    reads agents.Values
    requires forall j :: 0 <= j < |seeds| ==> seeds[j] in agents
    ensures |flags| == |seeds| && forall j :: 0 <= j < |seeds| ==> flags[j] == agents[seeds[j]].isInfluencer
  {
    seq(|seeds|, j requires 0 <= j < |seeds| reads agents.Values => agents[seeds[j]].isInfluencer)
  }

  /** One iteration of `schedule_initial_shares`: sample the seed's delay from the
      next draw `u` and append its share at that delay plus the offset. */
  method ScheduleSeed(uid: int, agent: Agent, newsType: NewsType, schedule: Schedule, delayOffset: int,
                      tables: DelayTables, flags: VariantFlags, rng: Random)
    returns (s: Schedule, ghost delay: int, ghost u: real)
    requires rng.Valid() && tables.Valid()
    modifies rng
    ensures rng.drawn == old(rng.drawn) + 1 && u == rng.stream(old(rng.drawn)) && 0.0 <= u < 1.0
    ensures s == Push(schedule, delay + delayOffset, Event(uid, newsType))
    ensures SeedDelaySampled(tables, newsType, agent.isInfluencer, flags, u, delay)
  {
    u := rng.stream(rng.drawn);
    var d := SampleDelayFromDistribution(tables.Base(newsType), tables.influencerFake, agent, newsType, flags, rng);
    s := Push(schedule, d + delayOffset, Event(uid, newsType));
    delay := d;
  }

  /** What the first `i` iterations of `schedule_initial_shares` have done: seed
      `j < i`'s delay is the one its table yields for draw `j`, and its share is
      on the schedule. */
  ghost predicate ScheduledUpTo(seeds: seq<int>, infl: seq<bool>, newsType: NewsType, schedule: Schedule,
                                delayOffset: int, tables: DelayTables, flags: VariantFlags, s: Schedule, delays: seq<int>,
                                draws: seq<real>, i: nat)
  {
    && |infl| == |seeds| && i <= |seeds| && |delays| == i && |draws| == i
    && s == PushAll(schedule, seeds, delays, delayOffset, newsType)
    && forall j {:trigger infl[j]} :: 0 <= j < i ==> SeedDelaySampled(tables, newsType, infl[j], flags, draws[j], delays[j])
  }

  /** The loop body of `schedule_initial_shares` for seed `i`. */
  method ScheduleStep(seeds: seq<int>, agents: map<int, Agent>, ghost infl: seq<bool>, newsType: NewsType,
                      schedule: Schedule, delayOffset: int, tables: DelayTables, flags: VariantFlags, rng: Random,
                      s: Schedule, ghost delays: seq<int>, ghost draws: seq<real>, i: nat)
    returns (s': Schedule, ghost delays': seq<int>, ghost draws': seq<real>)
    requires rng.Valid() && tables.Valid() && i < |seeds| == |infl| && seeds[i] in agents
    requires infl[i] == agents[seeds[i]].isInfluencer
    requires ScheduledUpTo(seeds, infl, newsType, schedule, delayOffset, tables, flags, s, delays, draws, i)
    modifies rng
    ensures rng.drawn == old(rng.drawn) + 1
    ensures draws' == draws + [rng.stream(old(rng.drawn))]
    ensures ScheduledUpTo(seeds, infl, newsType, schedule, delayOffset, tables, flags, s', delays', draws', i + 1)
  {
    ghost var delay, u;
    s', delay, u := ScheduleSeed(seeds[i], agents[seeds[i]], newsType, s, delayOffset, tables, flags, rng);
    delays' := delays + [delay];
    draws' := draws + [u];
    forall j {:trigger infl[j]} | 0 <= j < i + 1
      ensures SeedDelaySampled(tables, newsType, infl[j], flags, draws'[j], delays'[j])
    {
      if j < i {
        assert draws'[j] == draws[j] && delays'[j] == delays[j];
      }
    }
    assert delays'[..i] == delays;
  }

  /** `schedule_initial_shares`: each seed's first share is appended, in seed order,
      at the delay sampled for it plus the offset; seed `j`'s delay is the one its
      table yields for the `j`-th draw of the call. */
  method ScheduleInitialShares(seeds: seq<int>, agents: map<int, Agent>, newsType: NewsType,
                               schedule: Schedule, delayOffset: int, tables: DelayTables, flags: VariantFlags,
                               rng: Random)
    returns (s: Schedule, ghost delays: seq<int>, ghost draws: seq<real>)
    requires rng.Valid() && tables.Valid() && forall j :: 0 <= j < |seeds| ==> seeds[j] in agents
    modifies rng
    ensures rng.drawn == old(rng.drawn) + |seeds|
    ensures forall j :: 0 <= j < |draws| ==> draws[j] == rng.stream(old(rng.drawn) + j)
    ensures ScheduledUpTo(seeds, old(InfluenceFlags(agents, seeds)), newsType, schedule, delayOffset, tables,
                          flags, s, delays, draws, |seeds|)
    ensures unchanged(agents.Values)
  {
    ghost var infl := InfluenceFlags(agents, seeds);
    s := schedule;
    delays := [];
    draws := [];
    for i := 0 to |seeds|
      invariant rng.drawn == old(rng.drawn) + i
      invariant forall j :: 0 <= j < |draws| ==> draws[j] == rng.stream(old(rng.drawn) + j)
      invariant ScheduledUpTo(seeds, infl, newsType, schedule, delayOffset, tables, flags, s, delays, draws, i)
    {
      s, delays, draws := ScheduleStep(seeds, agents, infl, newsType, schedule, delayOffset, tables, flags, rng,
                                       s, delays, draws, i);
    }
  }
}
