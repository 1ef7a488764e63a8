# Misinformation spread simulator, modelled in Dafny

This project models the core of an agent-based simulator of fake and real
news competing on a trust-weighted social network. The model covers four
parts of the simulator:

- **The agents.** `Agent` is a mutable record holding roles, a belief and
  per-type `has_shared` flags. `assign_roles` sets the roles and
  `assign_trust_levels` sets community-banded edge trust.
- **The news items.** `NewsItem` is a mutable record of a share counter
  and a fake flag.
- **The configuration constants.**
- **The propagation engine, `simulate_spread`, and its helpers.** The
  helpers are share-probability initialisation, uniform and
  influencer-biased seed selection, the cumulative delay sampler, seed
  scheduling and the variant-C trust multiplier.

One trial runs in three steps:

1. It seeds both news types.
2. It processes rounds from a schedule that maps a round to a list of
   `(agent, type)` share events. Each round pops its events, shuffles
   them and handles them in turn:
   - A duplicate share is skipped.
   - A first share raises the agent's flag, counts the share, and exposes
     each neighbour.
   - A neighbour without a belief adopts with probability share
     probability × effective trust. A fact-checker adopting fake news may
     flag the fake item.
   - Under `'h3'`, a neighbour holding the other belief may revise it.
   - Every adoption or revision schedules a later share.
3. After each round it records the cumulative reach. It stops when the
   schedule is empty or after `max_rounds`. It then reports the reach
   curves, the final belief counts, the revision count and, under
   `'h2'`, the influencer impact.

The code is imperative, so the model is imperative Dafny:

- `Agent`, `NewsItem`, the graph (`Network`) and the random source
  (`Random`) are classes. Their methods modify their fields.
- Every loop of the source is a `while` or `for` loop with its
  invariants.
- The trial's local variables are a `SpreadState` value: the schedule,
  `stats`, the infected sets, `belief_revised_count` and `source_map`.
- The pure parts are functions with lemmas: `modified_trust`, the delay
  sampler as a function of the draw, the configuration tables and the
  role ranges.

Randomness is an injected stream `stream: nat -> real` of draws in
[0, 1). Each call that the source makes to `random`/`numpy.random`
consumes the next draw, so each property holds for every run.

The engine's invariant (`Simulation.Consistent`) relates the agents and
items at any moment to a snapshot taken when seeding finishes:

- Share flags are only raised, and only by infected agents.
- Every new belief is in its infected set.
- Each item's `shared_count` has grown by exactly the number of raised
  flags.
- Flagging is one-way, and the real item is never flagged.
- Traits never change.

Files:

- `common.dfy`: option/result types and sequence and set helpers.
- `config.dfy`: `config.py`.
- `random.dfy`: the random source.
- `news_item.dfy`: `news_item.py`.
- `network.dfy`: the graph.
- `agent_initializer.dfy`: `agent_initializer.py`.
- `delay_sampling.dfy`: `sample_delay_from_distribution` and the delay
  tables.
- `schedules.dfy`: the schedule.
- `seeding.dfy`: the set-up helpers of `simulation.py`.
- `simulation.dfy`: the exposure and round machinery.
- `spread.dfy`: `simulate_spread` from end to end.

## Model

| member | source | states |
|---|---|---|
| Config.ConfigurationIsWellFormed | config.py:21-65 | Every share range and both rates are probabilities, `seed_count <= num_agents`, and all three variant flags default to false |
| NewsItems.NewsItem.constructor | news_item.py:27-31 | A new item keeps its title and classification, has `shared_count` 0 and is not flagged |
| NewsItems.NewsItem.CountShare | simulation.py:243 | `shared_count` grows by exactly one and the flag is unchanged |
| Randomness.Random.Next | simulation.py:127 | `random.random()` returns the next draw of the stream, in [0, 1), and consumes exactly one draw |
| Randomness.IndexBelow | simulation.py:234 | A draw in [0, 1) scaled by `n > 0` and rounded down is an index in [0, n) |
| Randomness.Random.RandBelow | simulation.py:234 | The index draw behind `shuffle` and `sample` consumes one draw and is the floor of that draw times `n`, below `n` |
| Randomness.Random.Uniform | simulation.py:52-62 | `np.random.uniform(low, high)` is `low + (high - low) * u` for the next draw `u`, and lies in [low, high) |
| Randomness.Random.RandInt | agent_initializer.py:97-100 | `random.randint(a, b)` lies in [a, b] and consumes one draw |
| Randomness.Random.Shuffle | simulation.py:234 | `random.shuffle` returns a permutation of its input (same length, same multiset) and consumes `n - 1` draws for `n >= 2` items, none otherwise |
| Randomness.Random.Sample | simulation.py:78 | `random.sample(pop, k)` succeeds exactly when `0 <= k <= len(pop)`, and then returns `k` elements drawn without replacement (a sub-multiset of the population), consuming `k` draws; a failed call consumes none |
| Agents.Agent.constructor | agent_initializer.py:42-52 | A new agent has the given id, no role, no susceptible type, zero friends, no belief, nothing shared and both share probabilities 0.0 |
| Agents.Agent.MarkShared | simulation.py:242 | Exactly the flag for `t` is raised; the belief and all traits are unchanged |
| Agents.Trunc | agent_initializer.py:76-79 | Python's `int()` truncates toward zero: for `x >= 0` the result is the floor, for negative `x` it lies in [x, 0] |
| Agents.ComputeRoleCounts | agent_initializer.py:76-79 | With 1500 agents there are 37 influencers, 854 skeptical users (the binary64 product `0.57 * 1500` truncated) and 150 susceptible users; the fact-checker count is `percent_fc * 854` truncated |
| Agents.SkepticalCountInBinary64 | agent_initializer.py:76 | The binary64 constant 0.57 lies just below 0.57, and its product with 1500 rounds to a value that truncates to 854, where exact arithmetic gives 855 |
| Agents.FactCheckerCounts | agent_initializer.py:77 | The configured 30% and the experiment's 70% and 90% give 256, 597 and 768 fact-checkers out of 854 skeptical users |
| Agents.InsertByDegree | agent_initializer.py:82-83 | Inserting a node into a descending-degree list yields a descending-degree list holding one more copy of the node |
| Agents.SortedByDegree | agent_initializer.py:82-83 | `sorted(G.degree(), key=degree, reverse=True)` is a permutation of the nodes with degrees never increasing (its stability is `SortedByDegreeStable`) |
| Agents.InsertKeepsTies | agent_initializer.py:82-83 | Inserting a node into a descending-degree list puts it in front of the nodes of its degree and keeps the order of every degree's nodes |
| Agents.TiesBehindHead | agent_initializer.py:82-83 | When the node goes behind a head of higher degree, the nodes of each degree keep their order |
| Agents.SortedByDegreeStable | agent_initializer.py:82-83 | The sort is stable: for every degree, its nodes appear in the sorted list in the order they had in the input |
| Agents.TopDegreesFirst | agent_initializer.py:82-86 | Every node in the first `k` of a descending-degree order has degree at least that of every node after them |
| Agents.NewAgent | agent_initializer.py:111-123 | A fresh agent whose friend count is the node's degree, whose three role flags are membership in the role groups, and whose `susceptible_type` is set iff it is susceptible (super-spreader, then highly susceptible, else normal) |
| Agents.BuildAgents | agent_initializer.py:110-126 | Exactly one fresh, distinct agent per graph node, keyed by its id, each with the roles of its groups |
| Agents.SplitSusceptible | agent_initializer.py:96-107 | The pool is reshuffled (a permutation), its first node is the one super-spreader and the next 7 to 15 nodes are highly susceptible |
| Agents.AssignRoles | agent_initializer.py:55-126 | Each of the following holds: one fresh agent per node; influencers are exactly the first `num_influencers` nodes by descending degree, and every influencer's degree is at least every non-influencer's; fact-checkers are the first slice of the shuffled list and susceptibles the next slice, so the two are disjoint; the sub-groups are slices of the reshuffled pool |
| Agents.CommunityLabels | agent_initializer.py:150-152 | Every node is labelled with its enumeration index mod `num_communities`, so every label lies in [0, `num_communities`) |
| Agents.TrustUpdateKeeps | agent_initializer.py:159 | Writing one edge's trust on both orientations keeps every other edge's banded trust |
| Agents.TrustStep | agent_initializer.py:154-159 | One iteration of the edge loop extends both loop invariants by one edge: trust is banded for every edge seen, and untouched off them |
| Agents.TrustEdges | agent_initializer.py:154-159 | After the edge loop, every edge has one trust under both orientations: in [0.8, 1.0) within a community and in [0.1, 0.5) across communities. Pairs that are not edges are untouched |
| Agents.AssignTrustLevels | agent_initializer.py:130-161 | Returns the round-robin community labels. Every edge, and every adjacency pair in either orientation, carries a trust in its community band. All other trust is unchanged |
| DelaySampling.MinKey | simulation.py:129 | The first key of `sorted(delay_dist.items())`: a key no larger than any other |
| DelaySampling.MaxKey | simulation.py:133 | `max(delay_dist.keys())`: a key no smaller than any other |
| DelaySampling.WalkIsSampled | simulation.py:128-133 | The recursive cumulative walk returns the smallest key whose cumulative mass is `>=` the draw, or the largest key when there is none |
| DelaySampling.SampledDelayIsSampled | simulation.py:128-133 | The sampled delay is a key of the table and meets the cumulative description: the smallest key with `r <= cumulative`, else the maximum key |
| DelaySampling.SampledDelayUnique | simulation.py:128-133 | At most one delay meets the cumulative description for a draw |
| DelaySampling.SampledDelayExactly | simulation.py:128-133 | A delay meets the cumulative description if and only if it is the sampled delay |
| DelaySampling.PickDelay | simulation.py:127-133 | The loop over the sorted items, accumulating `cumulative` and comparing with `<=`, returns exactly the sampled delay |
| DelaySampling.WalkingStop | simulation.py:130-132 | When the running total plus the smallest remaining delay's probability reaches the draw, that delay is the sampled one |
| DelaySampling.WalkingAdvance | simulation.py:128-133 | Otherwise the walk moves past that delay with the running total increased by its probability, and the loop invariant still holds; past the last delay, that delay is the maximum and the sampled one |
| DelaySampling.CumulativeAtMax | simulation.py:129-133 | The cumulative mass through the largest key is the table's total mass |
| DelaySampling.NoFallback | simulation.py:131-133 | For a table of total mass at least one and a draw below one, the walk stops on a key whose cumulative mass covers the draw; the `max` fallback is not reached |
| DelaySampling.VariantBOverride | simulation.py:125-126 | Variant B replaces the table by the influencer table exactly for fake news shared by an influencer. Real news, other sharers and the default flags use the news type's own table |
| DelaySampling.ConfiguredDelaysValid | config.py:49-58 | The configured tables and variant B's table are non-empty and every delay in them is at least one round |
| DelaySampling.SampleDelayFromDistribution | simulation.py:105-133 | One draw is consumed, and the delay is the sampled delay of the (possibly overridden) table for that draw |
| DelaySampling.SampledDelayPositive | simulation.py:125-133 | Every delay that valid tables can produce, variant B's included, is at least one, so a scheduled share lands in a later round |
| DelaySampling.DelayTablesSumToOne | config.py:49-58 | The fake table, the real table and variant B's table each sum to exactly 1 |
| DelaySampling.FakeCumulative | config.py:49-53 | The fake table's cumulative masses are 0.85, 0.95 and 1.0 at delays 1, 2 and 3 |
| DelaySampling.RealCumulative | config.py:54-58 | The real table's cumulative masses are 0.85, 0.95 and 1.0 at delays 6, 12 and 18 |
| DelaySampling.FakeDelaySamples | simulation.py:127-133 | Fake news is delayed 1 round for `r <= 0.85`, 2 for `r <= 0.95`, else 3 |
| DelaySampling.RealDelaySamples | simulation.py:127-133 | Real news is delayed 6 rounds for `r <= 0.85`, 12 for `r <= 0.95`, else 18 |
| DelaySampling.InfluencerDelaySamples | simulation.py:125-126 | Under variant B an influencer's fake-news delay is 1 for `r <= 0.95`, else 2 |
| Schedules.PushEventsAt | simulation.py:154 | `schedule[round].append(e)` adds the round as a key and puts `e` at the end of that round's list; other rounds are unchanged |
| Schedules.PushWithin | simulation.py:264 | Scheduling a share by an infected agent keeps every scheduled sharer infected with its type |
| Schedules.WithinGrow | simulation.py:229 | Growing the infected sets keeps every scheduled sharer infected |
| Schedules.PushAllKeeps | simulation.py:152-154 | Scheduling the seeds' shares keeps every event already scheduled, in order, as a prefix of its round |
| Schedules.PushKeepsEvent | simulation.py:154 | An append keeps every event already scheduled |
| Schedules.PushAllScheduled | simulation.py:152-154 | Every seed's share is in the schedule at its delay plus the offset |
| Schedules.PushAllScheduledAll | simulation.py:152-154 | Every seed `j` has its share among the events of round `delays[j]` plus the offset |
| Schedules.PushAllWithin | simulation.py:152-154 | Scheduling shares by infected seeds keeps every scheduled sharer infected |
| Seeding.FakeShareRange | simulation.py:51-61 | The fake-share range is a probability range with low < high; it is `p_fake_fact_checker` for fact-checkers and `p_fake_normal` for agents that are neither fact-checkers nor susceptible |
| Seeding.ShareRangesOrdered | config.py:34-38 | The ranges are ordered by susceptibility: fact-checker below normal, below susceptible, below highly susceptible, below super-spreader |
| Seeding.DrawShares | simulation.py:50-62 | Two draws are consumed, both share probabilities lie in the ranges of the agent's role, and nothing else changes |
| Seeding.InitializePShares | simulation.py:49-64 | Every agent's share probabilities lie in its role's ranges, and so in [0, 1]; roles, beliefs and flags are unchanged |
| Seeding.KeysInOrder | simulation.py:78 | `list(agents.keys())` lists every id exactly once |
| Seeding.SetBeliefs | simulation.py:79-80 | Exactly the seeds now believe the news type; every other belief, every trait and every flag is unchanged |
| Seeding.SelectInitialSeeds | simulation.py:67-81 | Succeeds iff there are at least `seed_count` agents, returning `seed_count` distinct agent ids that now believe the type and consuming `seed_count` draws (none on failure); no other agent changes |
| Seeding.PartitionKeys | simulation.py:95-96 | The two comprehensions split the keys into influencers and non-influencers |
| Seeding.SplitByInfluence | simulation.py:95-96 | The influencer list holds each influencer once and the other list each non-influencer once |
| Seeding.SelectInitialSeedsVariant | simulation.py:84-102 | Succeeds iff there are enough non-influencers to fill up after `min(7, #influencers)` influencers. The seeds are then that many distinct influencers followed by distinct non-influencers, `seed_count` in all, drawn with `seed_count` draws (only the first sample's on failure). Exactly the seeds now believe the type |
| Seeding.ScheduleSeed | simulation.py:153-154 | One draw is consumed and the seed's share is appended at its sampled delay plus the offset |
| Seeding.ScheduleStep | simulation.py:152-154 | One loop iteration extends the record of scheduled seeds, delays and draws by one seed |
| Seeding.ScheduleInitialShares | simulation.py:136-154 | One draw per seed; each seed's share is appended, in seed order, at the delay sampled from its draw plus the offset |
| Simulation.ModifiedTrustBoost | simulation.py:177 | Trust is multiplied by 1.2 exactly when variant C is on and the sharer is an influencer, and is unchanged otherwise. It is never decreased and not clamped (0.9 becomes more than 1). It matches the doctests 0.5 → 0.6 and 0.5 → 0.5 |
| Simulation.FlaggingDiscountsFakeOnly | simulation.py:270-271 | Once the fake item is flagged, fake-news trust is 0.3 times the unflagged trust, strictly less for positive trust; real-news trust is unaffected |
| Simulation.RevisionChance | simulation.py:255 | The revision chance is `p_belief_revision` exactly for fact-checkers and 0.25 otherwise; it is a probability |
| Simulation.Exposed | simulation.py:249-289 | After one exposure a neighbour holds either its old belief or `t`, and a neighbour that held a belief still holds one |
| Simulation.ConsistentAfterExposure | simulation.py:246-289 | An exposure that changes at most one belief (recorded in its infected set) and only sets the fake flag keeps the engine invariant |
| Simulation.NewSharesRaise | simulation.py:242-243 | Raising an agent's flag for `t` adds exactly that agent to the new sharers of `t`, and leaves those of the other type alone |
| Simulation.ConsistentAfterShare | simulation.py:241-243 | The first share by an infected agent, which raises its flag and the item's counter by one, keeps the invariant |
| Simulation.SnapshotAfterExposure | simulation.py:246-289 | If only one agent's belief and the fake flag changed, the snapshot differs in exactly those two places |
| Simulation.SnapshotAfterShare | simulation.py:242-243 | If only one agent's flag for `t` and `t`'s counter changed, the snapshot records that share and nothing else |
| Simulation.PushGrows | simulation.py:264 | Scheduling at `round_num + delay` with `delay >= 1` keeps every event and leaves the current and earlier rounds untouched |
| Simulation.GrowsTrans | simulation.py:264 | Schedule growth is transitive |
| Simulation.InfectPushed | simulation.py:258-264 | Infecting an agent and scheduling its share at least one round later grows the state and keeps every scheduled sharer infected |
| Simulation.AdoptionStep | simulation.py:267-289 | An adoption iff the draw is below the adoption chance, with 1 draw without adoption, 3 for a fact-checker adopting fake news and 2 otherwise, and the flag set only by the fact-check draw, is one `ExposureStep` |
| Simulation.RevisionStep | simulation.py:252-264 | Under `'h3'`, a switch to `t` iff the draw is below the revision chance, with 1 draw without a switch and 2 with one, is one `ExposureStep` that leaves the flag alone |
| Simulation.IdleStep | simulation.py:249-265 | A neighbour already holding `t`, or any belief outside `'h3'`, is left alone with no draw: one `ExposureStep` |
| Simulation.Believe | simulation.py:280-289 | The neighbour now believes `t`, joins `infected[t]`, and is scheduled at `round_num + delay` with the delay sampled from the next draw. The delay is at least one. Traits are unchanged |
| Simulation.Revise | simulation.py:252-264 | The neighbour revises iff the next draw is below its revision chance. It then switches to `t`, joins `infected[t]` and the revision counter grows by one, and it is scheduled after a delay sampled from the following draw with the default all-false flags. Otherwise only the draw is consumed. Either way the exposure follows `ExposureStep` |
| Simulation.AdoptionDraw | simulation.py:268-274 | Adoption is exactly: next draw < the adoption chance (share probability × effective trust), with the trust taken before any flagging by this exposure |
| Simulation.FactCheck | simulation.py:275-278 | The fake item becomes flagged iff the next draw is below `p_fact_check`; a flag already set stays set |
| Simulation.Accept | simulation.py:274-289 | A fact-checker adopting fake news first draws for the flag. The adopter then believes `t`, joins `infected[t]`, inherits the sharer's source under variant A, and is scheduled after a delay of at least one |
| Simulation.Adopt | simulation.py:267-289 | A neighbour without a belief adopts iff the next draw is below the adoption chance. The draws consumed (1, 2 or 3), the new flag and the new state are given exactly, and the exposure follows `ExposureStep`. Without adoption, nothing but one draw changes |
| Simulation.Expose | simulation.py:246-289 | The neighbour's new belief, the draws consumed, the new fake flag and the new spread state are exactly those of `ExposureStep` for this edge. The spread state follows `ExposedState`: an adopter or reviser joins `infected[t]` and is scheduled at `round_num` plus the delay sampled from the draw after its test; an adopter inherits the sharer's source under variant A; a reviser is counted. A neighbour already holding `t`, or any belief outside `'h3'`, is left unchanged with no draw consumed. The flag only moves to set, and only when a fact-checker without a belief adopts fake news |
| Simulation.ExposeSnapshot | simulation.py:246-289 | One exposure changes the snapshot in at most that neighbour's belief and the fake flag, and the belief, draws, flag and spread state follow `ExposureStep`; the graph is left alone |
| Simulation.ExposeNeighbour | simulation.py:246-289 | One exposure keeps the engine invariant and every share flag, and follows `ExposureStep` (belief, draws, flag and spread state) with the sharer's and neighbour's traits from the snapshot |
| Simulation.StateGrowsTrans | simulation.py:245-289 | State growth across exposures is transitive |
| Simulation.RaiseGrows | simulation.py:242 | Raising one flag only grows the flags |
| Simulation.MarkShare | simulation.py:242-243 | The flag and counter updates change the snapshot exactly by recording that share, and consume no draw |
| Simulation.RecordShare | simulation.py:241-243 | The first share raises exactly that agent's flag for `t`, records the share in the snapshot, consumes no draw and keeps the invariant, so the counter grows in step with the flags |
| Simulation.ExposedInOrderStart | simulation.py:246 | Before any neighbour is exposed, nothing has changed |
| Simulation.ExposedInOrderStep | simulation.py:246-289 | Exposing the next neighbour, which appears only once in the adjacency list, extends the in-order record of exposures by one `ExposureStep`, including the spread state it leaves |
| Simulation.ExposeNext | simulation.py:246-289 | One iteration of the neighbour loop exposes the next neighbour and extends the in-order record of exposures |
| Simulation.ExposeNeighbours | simulation.py:245-289 | `for neighbor_id in G.neighbors(uid)`: the neighbours are exposed in adjacency order, the `j`-th by `ExposureStep` from the draw position, fake flag and spread state the previous one left, ending at the returned state; only their beliefs and the fake flag change, and the invariant is kept with no flag raised |
| Simulation.ShareEvent | simulation.py:236-289 | An event whose sharer already shared `t` changes nothing: same agents, items, draw position and spread state (idempotent shares). Otherwise the share is recorded and then every neighbour is exposed in order, from the spread state before the event to the one returned, as `EventApplied` says; flags only grow, and the invariant is kept |
| Simulation.ShareFirst | simulation.py:241-289 | The first share is recorded, then every neighbour of the sharer is exposed in adjacency order, the trail running from the draw position and spread state before the share to those after the last exposure |
| Simulation.EventAppliedIdle | simulation.py:238-239 | An event whose sharer already shared its news type leaves the snapshot, the draw position and the spread state as they were |
| Simulation.EventAppliedShared | simulation.py:241-289 | Recording the share and then exposing the neighbours in order is the event's effect |
| Simulation.AllSharedStep | simulation.py:236-243 | After one more event, every processed event's sharer has shared its type |
| Simulation.ConsistentSameInfected | simulation.py:233 | The invariant does not depend on the schedule beyond every scheduled sharer being infected |
| Simulation.ConsistentAfterRecord | simulation.py:291-292 | Appending the reach counts keeps the invariant |
| Simulation.ConsistentAfterPop | simulation.py:233 | Popping the round keeps the invariant, and every popped event's sharer is infected with its type |
| Simulation.ShareEvents | simulation.py:236-289 | The round's events are applied in order, each to the agents, items, draw position and spread state the previous one left, by `EventApplied`, from those before the loop to those after it. The invariant is kept, and afterwards every event's sharer has shared its type |
| Simulation.ShareNext | simulation.py:236-289 | One iteration of the event loop applies the next event as `EventApplied` describes and extends the record of the round's events by it; its sharer joins those that have shared |
| Simulation.ShareOne | simulation.py:236-289 | The next event is applied from the current agents, items, draw position and spread state as `EventApplied` describes, leaving the graph alone; its sharer has now shared |
| Simulation.GrowsInfected | simulation.py:233-236 | A sharer infected when its event was popped is still infected later in the round |
| Simulation.EventsAppliedStep | simulation.py:236 | Applying the next event extends the record of the round's events by one `EventApplied` step |
| Simulation.ShuffleEvents | simulation.py:234 | The shuffled events are a permutation of the round's events, the shuffle consumes `n - 1` draws for `n >= 2` events, and no agent or item changes |
| Simulation.PopRound | simulation.py:233-234 | The round is removed from the schedule and nothing else in the state changes; its events come back as a permutation, each by an infected agent, after the shuffle's draws; the invariant holds |
| Simulation.ProcessRound | simulation.py:233-292 | One round as `RoundApplied` describes: its events are popped and shuffled (a permutation, after the shuffle's draws), then applied in that order, each by `EventApplied` from the agents, items, draws and state the previous one left, and finally both infected counts are appended to `stats`. Afterwards the invariant holds, the infected sets and revision counter have only grown, the round is gone from the schedule, earlier rounds are untouched, and every popped sharer has shared |
| Spread.RecordSeedSources | simulation.py:223-224 | Each seed is mapped to `'influencer'` or `'normal'` by its flag; other entries are unchanged |
| Spread.SeedingKeepsFlags | simulation.py:79-80 | Seeding changes beliefs only: share flags and traits are as before |
| Spread.SeedBeliefsExt | simulation.py:79-80 | Beliefs that changed exactly at the seeds, to the type, are the `SeedBeliefs` map |
| Spread.DrawSeeds | simulation.py:220-226 | The uniform or variant-A draw succeeds iff the seeds can be drawn, giving `seed_count` distinct agents after `seed_count` draws. The beliefs are then exactly the old ones with the seeds set to the type (`SeedBeliefs`), and flags and traits are unchanged |
| Spread.AgentsUnchanged | simulation.py:228 | Agents that were not modified keep their flags, traits, beliefs and influencer set |
| Spread.SampledWithTraits | simulation.py:152-154 | Delays sampled from the tables of the seeds' agents are `DelaysSampled` with the agents' traits |
| Spread.ScheduleDelays | simulation.py:228 | Seed scheduling consumes one draw per seed. Seed `j`'s delay is sampled from draw `j` with the table of its role (`DelaysSampled`), its share is pushed at that delay plus the offset, and every agent is left as it was |
| Spread.RecordedSources | simulation.py:223-224 | The loop's source map is the `SeedSources` map: each seed's origin by its role, other entries kept |
| Spread.ScheduleSeeds | simulation.py:219-229 | The pass leaves the state `SeedPassed` describes: the seeds join `infected[t]`; each seed's share is appended at its sampled delay plus the offset, which is `real_news_delay` for real news under `'h3'` and 0 otherwise; under variant A the seeds' origins are recorded, and otherwise `source_map` is kept; nothing else changes. One draw per seed is consumed and beliefs are unchanged |
| Spread.SeedPassScheduled | simulation.py:219-228 | After a pass, seed `j`'s share is among the events of round `delays[j]` plus the offset |
| Spread.SeedPassJoined | simulation.py:223-229 | After a pass exactly the seeds have joined `infected[t]`, the other type's set, the reach lists and the revision count are as before, and under variant A each seed's origin is its role |
| Spread.SeedNews | simulation.py:218-229 | One pass of the seeding loop: it fails iff the draw cannot be made. Otherwise `seed_count` distinct seeds, drawn with the first `seed_count` draws, now believe the type and everything else about the agents is as it was; the delays are sampled from the next draws, and the state is the one `SeedPassed` describes |
| Spread.ConsistentAtStart | simulation.py:212-229 | Right after seeding, the invariant holds against the snapshot taken then |
| Spread.SeededByPasses | simulation.py:218-229 | The fake pass from the empty state followed by the real pass leaves the state `SeededBy` describes |
| Spread.SeedBoth | simulation.py:218-229 | Both passes succeed iff the seeds can be drawn. The draws are the fake seeds, their delays, the real seeds and their delays, in that order, `seed_count` each. The state is then the one `SeededBy` describes: `seed_count` distinct infected seeds per type, the schedule holding exactly the fake seeds' shares and then the real seeds' (shifted by `real_news_delay` under `'h3'`), each at its sampled delay, the sources under variant A, no reach entry and no revision. Beliefs are the fake seeds' and then the real seeds', flags and traits are unchanged, and the invariant holds |
| Spread.CurveExtend | simulation.py:291-292 | Appending a count no smaller than the last keeps the reach curve non-decreasing |
| Spread.RanStep | simulation.py:232-292 | One more round extends the round-loop invariant: reach entries one per round, non-decreasing and ending at the current counts, and processed rounds gone from the schedule |
| Spread.TraceStart | simulation.py:231-232 | Before any round the trace holds the start alone |
| Spread.TraceStep | simulation.py:232-294 | A round that follows a round which left something scheduled, and appends the infected counts it leaves to the reach lists, extends the trace of rounds by one `RoundApplied` step |
| Spread.RunRound | simulation.py:233-294 | One iteration of the round loop processes round `n` as `RoundApplied` describes, from the state, snapshot and draw position the trace ends at, and extends both the loop's record of the run and the trace |
| Spread.RunRounds | simulation.py:232-294 | The loop runs 1 to `max_rounds` rounds, as `StoppedAt` describes: round `k` is applied by `RoundApplied` to the state, agents, items and draw position round `k - 1` left, starting from those at the call and ending at those returned; reach entry `k` is the infected count round `k` left; every round but the last left something scheduled, and a run that stopped before `max_rounds` left nothing scheduled. The curves never decrease and start no lower than the seeded counts |
| Spread.CountFrom | simulation.py:300-301 | The counting comprehension returns the number of agents whose `source_map.get(uid)` is the given source |
| Spread.ImpactBound | simulation.py:296-302 | The two impact counts are disjoint, so they sum to at most the fake reach; with no sources both are zero |
| Spread.TallyBeliefs | simulation.py:303-308 | The final belief counts are the numbers of agents believing fake and real news |
| Spread.BelieversBound | simulation.py:303-308 | Final fake and real believers together are at most the number of agents |
| Spread.CurveWiden | simulation.py:291-292 | A reach curve stays within wider bounds |
| Spread.ConsistentAccounted | simulation.py:238-243 | The invariant accounts for every share: each counter grew by the number of raised flags, flagging is one-way, the real item is unflagged and traits are unchanged |
| Spread.RunSeeded | simulation.py:231-294 | From seeding, the rounds run as `StoppedAt` describes from the snapshot and draw position at the call to those at return; the reach curves are bounded by `seed_count` and the population, and the agents and items are accounted for |
| Spread.SeededRun | simulation.py:212-294 | Seeding plus the round loop fail iff the seeds cannot be drawn. Otherwise the trial went as `RanTrial` describes: the seeding passes, drawing seeds and delays in order from the draw position at the call, left the `SeededBy` state with the fake seeds believing fake and then the real seeds believing real, and the rounds ran from it, from those beliefs and the draw right after the last seed delay, as `StoppedAt` describes, to the returned state, which meets `Finished` and `Accounted` |
| Spread.Statistics | simulation.py:296-311 | Returns the reach lists, the revision count, final believers by type (at most the population), and under `'h2'` the two impact counts (zero outside variant A, together at most the fake reach); no agent or item changes |
| Spread.SimulateSpread | simulation.py:179-311 | A trial fails only when seeds cannot be drawn. Otherwise it went as `RanTrial` describes (seeding by `SeededBy`, with its draws in order from the draw position at the call and round 0 starting from the agents' beliefs with the fake seeds set to fake and then the real seeds set to real, then every round by `RoundApplied`, stopping at the first round that empties the schedule or after `max_rounds`), and the outcome is the final state's reach lists, revision count and, under `'h2'`, its impact counts. It reports 1 to `max_rounds` reach entries per type, non-decreasing between `seed_count` and the population, and final believers at most the population. Revisions occur only under `'h3'`, and impact only under variant A, with impact at most the fake reach. Each item's counter grew by exactly the new shares, flagging is one-way and traits are unchanged |

## Left out

- The random number generators are not modelled. Every draw comes from an injected stream of uniform values in [0, 1).
  - `random.sample` and `random.shuffle` are Fisher–Yates over that stream.
  - `random.randint(a, b)` is `a + floor(u * (b - a + 1))`.
  - The model proves the properties for every stream, not for Python's own generator.
- Floating point is not modelled in general: probabilities and trust are Dafny `real`.
  - In the role counts, the one place where binary64 rounding changes an integer is `int(percent_skeptical * num_agents)`. CPython computes 854 there, not the 855 of exact arithmetic, so the model takes that product as binary64 does (`Agents.SkepticalCountInBinary64`). The fact-checker counts built on it are 256, 597 and 768 (`Agents.FactCheckerCounts`).
  - The doctest's exact `0.6` holds in reals.
- Network generation (`network_generator.py`) is not part of this model. The graph is an input: node list, adjacency lists without self-loops, edge list and a mutable trust map, with missing trust read as 0.5. The trust map does not itself require the two orientations of an edge to agree; every write to it sets both.
- The `print` in the exception handler of `initialize_p_shares` (simulation.py:63-64) is left out. No exception can arise there, so the handler is not modelled.
- The plotting and aggregation scripts (`metrics.py`, `main.py`, `baseline_run.py`, `hypothesis*.py`, `Hypothesis*.py`) are not part of this model.
- The trial's environment is bundled in an `Env` value. The environment is the graph, the agent map, the two items, the random source, the delay tables, the `hypothesis` selector and the variant flags. The model requires two things that `simulate_spread` assumes of its caller:
  - distinct agent records for distinct ids;
  - distinct fake and real items.
- Spread.SeedBoth: the seeding loop over `['fake', 'real']` is written out as its two passes.
- Spread.TallyBeliefs: it iterates over the agent ids, not over `agents.values()`. The two give the same counts because records are distinct per id.
- Spread.SimulateSpread: it returns the outcome as one `Outcome` value (`stats`, `final_beliefs`, `belief_revised_count`, `influencer_impact`). It does not return four Python dictionaries.
- Seeding.InitializePShares: it states the resulting ranges and the number of draws. It does not state which draw each agent receives, because the order of `agents.values()` is not modelled.
- Simulation.ProcessRound: the shuffled order is stated as a permutation of the popped events (same multiset). Which permutation the draws select is not stated, because `random.shuffle`'s algorithm over Python's generator is not modelled.
