/** The propagation engine: one trial of fake and real news competing on the
    trust graph. Both news types are seeded, then rounds are run from a
    schedule of pending share events until the schedule empties or the round
    cap is reached; each share exposes the sharer's neighbours, who adopt the
    news with probability share-probability times edge trust (or, in the
    competing-news experiment, may revise a belief they already hold). */
module Simulation {
  import opened Common
  import opened Config
  import opened NewsItems
  import opened Randomness
  import opened SocialNetwork
  import opened Agents
  import opened DelaySampling
  import opened Schedules
  import opened Seeding

  /** The `hypothesis` selector: no experiment, `'h2'` (influencer variants)
      or `'h3'` (competing news with belief revision). */
  datatype Hypothesis = NoHypothesis | H2 | H3

  /** The values of `source_map`: `'influencer'`, `'normal'`, `'unknown'`. */
  datatype Source = FromInfluencer | FromNormal | FromUnknown

  /** Variant C multiplies an influencer's edge trust by this factor. */
  const INFLUENCER_TRUST_BOOST: real := 1.2
  /** Trust on fake-news transmissions once the fake item is flagged is scaled by this factor. */
  const FLAGGED_TRUST_FACTOR: real := 0.3
  /** The revision probability of a neighbour who is not a fact-checker. */
  const NON_CHECKER_REVISION: real := 0.25

  // ---------------------------------------------------------------------------
  // Transition-rule arithmetic
  // ---------------------------------------------------------------------------

  /** `modified_trust`: variant C boosts the trust of an influencer's edges. */
  function ModifiedTrust(isInfluencer: bool, trust: real, flags: VariantFlags): real {
    if flags.variantC && isInfluencer then trust * INFLUENCER_TRUST_BOOST else trust
  }

  /** The trust is multiplied by 1.2 exactly when variant C is on and the sharer is
      an influencer, and is otherwise returned as given; the boost is not capped,
      so a boosted trust can exceed one. */
  lemma ModifiedTrustBoost(isInfluencer: bool, trust: real, flags: VariantFlags)
    ensures flags.variantC && isInfluencer ==> ModifiedTrust(isInfluencer, trust, flags) == 1.2 * trust
    ensures !(flags.variantC && isInfluencer) ==> ModifiedTrust(isInfluencer, trust, flags) == trust
    ensures 0.0 <= trust ==> trust <= ModifiedTrust(isInfluencer, trust, flags)
    ensures flags.variantC && isInfluencer && trust > 0.0 ==> ModifiedTrust(isInfluencer, trust, flags) > trust
    ensures ModifiedTrust(true, 0.9, VariantFlags(false, false, true)) > 1.0
    ensures ModifiedTrust(true, 0.5, VariantFlags(false, false, true)) == 0.6
    ensures ModifiedTrust(true, 0.5, VariantFlags(false, false, false)) == 0.5
  {
  }

  /** The trust an exposure actually uses: the edge trust after variant C, scaled
      by 0.3 for fake news once the fake item has been flagged. */
  function EffectiveTrust(edgeTrust: real, senderIsInfluencer: bool, t: NewsType, fakeFlagged: bool,
                          flags: VariantFlags): real
  {
    var trust := ModifiedTrust(senderIsInfluencer, edgeTrust, flags);
    if t == Fake && fakeFlagged then trust * FLAGGED_TRUST_FACTOR else trust
  }

  /** Flagging the fake item cuts the trust of every later fake-news exposure to 30%
      and leaves real-news exposures as they were. */
  lemma FlaggingDiscountsFakeOnly(edgeTrust: real, senderIsInfluencer: bool, flags: VariantFlags)
    ensures EffectiveTrust(edgeTrust, senderIsInfluencer, Fake, true, flags)
         == 0.3 * EffectiveTrust(edgeTrust, senderIsInfluencer, Fake, false, flags)
    ensures EffectiveTrust(edgeTrust, senderIsInfluencer, Real, true, flags)
         == EffectiveTrust(edgeTrust, senderIsInfluencer, Real, false, flags)
    ensures EffectiveTrust(edgeTrust, senderIsInfluencer, Real, false, flags)
         == ModifiedTrust(senderIsInfluencer, edgeTrust, flags)
    ensures 0.0 < edgeTrust ==>
      EffectiveTrust(edgeTrust, senderIsInfluencer, Fake, true, flags)
        < EffectiveTrust(edgeTrust, senderIsInfluencer, Fake, false, flags)
  {
    ModifiedTrustBoost(senderIsInfluencer, edgeTrust, flags);
  }

  /** The sharer's own share probability for news of type `t`. */
  function SharePr(sender: Traits, t: NewsType): real {
    if t == Fake then sender.pShareFake else sender.pShareReal
  }

  /** The chance that a neighbour holding the other belief switches:
      `p_belief_revision` for a fact-checker, 0.25 for anyone else. */
  function RevisionChance(isFactChecker: bool): (p: real)
    ensures 0.0 <= p <= 1.0
    ensures NON_CHECKER_REVISION <= p
    ensures isFactChecker <==> p == P_BELIEF_REVISION
  {
    if isFactChecker then P_BELIEF_REVISION else NON_CHECKER_REVISION
  }

  /** `source_map.get(uid, 'unknown')`. */
  function SourceOf(sourceMap: map<int, Source>, uid: int): Source {
    if uid in sourceMap then sourceMap[uid] else FromUnknown
  }

  // ---------------------------------------------------------------------------
  // Trial state
  // ---------------------------------------------------------------------------

  /** What one trial works on: the graph, the agents by id, the two news items,
      the random source, the delay tables and the experiment switches. */
  datatype Env = Env(g: Network, agents: map<int, Agent>, fakeItem: NewsItem, realItem: NewsItem,
                     rng: Random, delays: DelayTables, hypothesis: Hypothesis, flags: VariantFlags)
  {
    /** `news_items[t]`. */
    function Item(t: NewsType): NewsItem {
      if t == Fake then fakeItem else realItem
    }

    /** There is one agent record per node, records are not shared between ids,
        the two news items are distinct and the draws are uniform. */
    ghost predicate Valid() {
      && g.Valid() && agents.Keys == g.adj.Keys && DistinctAgents(agents)
      && fakeItem != realItem && rng.Valid() && delays.Valid()
    }

    /** Sources are recorded only under variant A of the influencer experiment. */
    predicate TracksSources() {
      hypothesis == H2 && flags.variantA
    }
  }

  /** The local state of `simulate_spread`: the schedule, the per-round reach
      lists (`stats`), the infected sets, the revision counter and `source_map`. */
  datatype SpreadState = SpreadState(
    schedule: Schedule,
    fakeReach: seq<nat>,
    realReach: seq<nat>,
    infectedFake: set<int>,
    infectedReal: set<int>,
    beliefRevisedCount: nat,
    sourceMap: map<int, Source>)
  {
    /** `infected[t]`. */
    function Infected(t: NewsType): set<int> {
      if t == Fake then infectedFake else infectedReal
    }

    /** The end of a round: `stats[t].append(len(infected[t]))` for both types. */
    function Recorded(): SpreadState {
      this.(fakeReach := fakeReach + [|infectedFake|], realReach := realReach + [|infectedReal|])
    }

    /** `infected[t].add(u)`. */
    function Infect(t: NewsType, u: int): SpreadState {
      if t == Fake then this.(infectedFake := infectedFake + {u})
      else this.(infectedReal := infectedReal + {u})
    }
  }

  /** The engine's state before the first round: nothing scheduled, recorded or infected. */
  const EMPTY_STATE: SpreadState := SpreadState(map[], [], [], {}, {}, 0, map[])

  /** What the engine's agents and news items look like at one moment: share
      flags, beliefs and traits by id, and each item's counter and flag. */
  datatype Snapshot = Snapshot(
    shared: map<int, set<NewsType>>,
    beliefs: map<int, Option<NewsType>>,
    traits: map<int, Traits>,
    fakeCount: int,
    realCount: int,
    fakeFlagged: bool,
    realFlagged: bool)
  {
    /** The snapshot after agent `w` shares `t`: its flag for `t` is raised and
        the counter of `t` grows by one. */
    function Record(w: int, t: NewsType): Snapshot
      requires w in shared
    {
      this.(shared := shared[w := shared[w] + {t}],
            fakeCount := if t == Fake then fakeCount + 1 else fakeCount,
            realCount := if t == Real then realCount + 1 else realCount)
    }
  }

  /** Every agent's `has_shared` flags, by id. */
  ghost function SharedMap(agents: map<int, Agent>): map<int, set<NewsType>>
    reads agents.Values
  {
    map u | u in agents :: agents[u].hasShared
  }

  /** Every agent's belief, by id. */
  ghost function BeliefMap(agents: map<int, Agent>): map<int, Option<NewsType>>
    reads agents.Values
  {
    map u | u in agents :: agents[u].beliefState
  }

  /** Every agent's roles and share probabilities, by id. */
  ghost function TraitMap(agents: map<int, Agent>): map<int, Traits>
    reads agents.Values
  {
    map u | u in agents :: agents[u].GetTraits()
  }

  ghost function TakeSnapshot(env: Env): (snap: Snapshot)
    reads env.agents.Values, env.fakeItem, env.realItem
    ensures snap.shared.Keys == env.agents.Keys && snap.beliefs.Keys == env.agents.Keys
    ensures snap.traits.Keys == env.agents.Keys
  {
    Snapshot(
      SharedMap(env.agents), BeliefMap(env.agents), TraitMap(env.agents),
      env.fakeItem.sharedCount, env.realItem.sharedCount,
      env.fakeItem.isFlaggedFake, env.realItem.isFlaggedFake)
  }

  /** The agents whose `has_shared[t]` flag was raised since the snapshot `base`. */
  ghost function NewShares(now: map<int, set<NewsType>>, base: map<int, set<NewsType>>, t: NewsType): set<int> {
    set u | u in now && u in base && t in now[u] && t !in base[u]
  }

  /** The engine's invariant, for the agents and items as they are now (`now`)
      and as they were when the trial started (`base`): infected agents and
      scheduled sharers are agents; roles and share probabilities never change;
      share flags are only raised, and only by agents infected with that news
      type; every belief acquired since the start is recorded in that type's
      infected set; each item's share counter has grown by exactly the number of
      raised flags; flagging is one-way and never touches the real item; only the
      competing-news experiment revises beliefs and only variant A records
      sources. */
  ghost predicate Consistent(env: Env, now: Snapshot, st: SpreadState, base: Snapshot) {
    && now.shared.Keys == env.agents.Keys && now.beliefs.Keys == env.agents.Keys
    && base.shared.Keys == env.agents.Keys && base.beliefs.Keys == env.agents.Keys
    && st.infectedFake <= env.agents.Keys && st.infectedReal <= env.agents.Keys
    && EventsWithin(st.schedule, st.infectedFake, st.infectedReal)
    && now.traits == base.traits
    && (forall u :: u in now.shared ==> base.shared[u] <= now.shared[u])
    && (forall u, t :: u in now.shared && t in now.shared[u] && t !in base.shared[u] ==> u in st.Infected(t))
    && (forall u :: u in now.beliefs && now.beliefs[u] != base.beliefs[u] ==>
          now.beliefs[u].Some? && u in st.Infected(now.beliefs[u].value))
    && now.fakeCount == base.fakeCount + |NewShares(now.shared, base.shared, Fake)|
    && now.realCount == base.realCount + |NewShares(now.shared, base.shared, Real)|
    && (base.fakeFlagged ==> now.fakeFlagged)
    && now.realFlagged == base.realFlagged
    && (env.hypothesis != H3 ==> st.beliefRevisedCount == 0)
    && (!env.TracksSources() ==> st.sourceMap == map[])
  }

  /** The invariant on the live agents and items. */
  ghost predicate Inv(env: Env, st: SpreadState, base: Snapshot)
    reads env.agents.Values, env.fakeItem, env.realItem
  {
    Consistent(env, TakeSnapshot(env), st, base)
  }

  /** An exposure changes at most one belief and the fake flag. It keeps the
      invariant when the flag only moves to set, a changed belief is recorded in
      the infected sets, and those sets only grow. */
  lemma ConsistentAfterExposure(env: Env, now: Snapshot, now': Snapshot, st: SpreadState, st': SpreadState,
                                base: Snapshot, nb: int)
    requires Consistent(env, now, st, base) && nb in env.agents && nb in now'.beliefs
    requires now' == now.(beliefs := now.beliefs[nb := now'.beliefs[nb]], fakeFlagged := now'.fakeFlagged)
    requires now.fakeFlagged ==> now'.fakeFlagged
    requires now'.beliefs[nb] != now.beliefs[nb] ==>
      now'.beliefs[nb].Some? && nb in st'.Infected(now'.beliefs[nb].value)
    requires st.infectedFake <= st'.infectedFake <= env.agents.Keys
    requires st.infectedReal <= st'.infectedReal <= env.agents.Keys
    requires EventsWithin(st'.schedule, st'.infectedFake, st'.infectedReal)
    requires env.hypothesis != H3 ==> st'.beliefRevisedCount == 0
    requires !env.TracksSources() ==> st'.sourceMap == map[]
    ensures Consistent(env, now', st', base)
  {
    forall u, t | u in now'.shared && t in now'.shared[u] && t !in base.shared[u]
      ensures u in st'.Infected(t)
    {
      assert u in st.Infected(t);
    }
    forall u | u in now'.beliefs && now'.beliefs[u] != base.beliefs[u]
      ensures now'.beliefs[u].Some? && u in st'.Infected(now'.beliefs[u].value)
    {
      if now'.beliefs[u] == now.beliefs[u] {
        assert u in st.Infected(now.beliefs[u].value);
      }
    }
  }

  /** Raising `t` for an agent that had not shared `t` adds exactly that agent to
      the new sharers of `t`, and leaves the new sharers of the other type alone. */
  lemma NewSharesRaise(now: map<int, set<NewsType>>, base: map<int, set<NewsType>>, w: int, t: NewsType)
    requires w in now && w in base && t !in now[w] && base[w] <= now[w]
    ensures w !in NewShares(now, base, t)
    ensures NewShares(now[w := now[w] + {t}], base, t) == NewShares(now, base, t) + {w}
    ensures NewShares(now[w := now[w] + {t}], base, t.Other()) == NewShares(now, base, t.Other())
  {
  }

  /** The first share of `t` by an agent infected with `t` keeps the invariant. */
  lemma ConsistentAfterShare(env: Env, now: Snapshot, st: SpreadState, base: Snapshot, w: int, t: NewsType)
    requires Consistent(env, now, st, base) && w in env.agents && w in st.Infected(t) && t !in now.shared[w]
    ensures Consistent(env, now.Record(w, t), st, base)
  {
    NewSharesRaise(now.shared, base.shared, w, t);
    var now' := now.Record(w, t);
    forall u, t' | u in now'.shared && t' in now'.shared[u] && t' !in base.shared[u]
      ensures u in st.Infected(t')
    {
      if u != w || t' != t {
        assert t' in now.shared[u];
      }
    }
  }

  /** An agent record kept its share flags, roles and share probabilities. */
  twostate predicate KeepsTraits(a: Agent)
    reads a
  {
    a.hasShared == old(a.hasShared) && a.GetTraits() == old(a.GetTraits())
  }

  /** Agent `uid` of `env`, written by one engine step about news type `t`. */
  datatype Touch = Touch(env: Env, uid: int, t: NewsType)

  /** If only agent `w.uid`'s belief and the fake flag changed, the snapshot
      changed in those two places alone. */
  twostate lemma SnapshotAfterExposure(w: Touch)
    requires DistinctAgents(w.env.agents) && w.uid in w.env.agents && w.env.fakeItem != w.env.realItem
    requires forall a :: a in w.env.agents.Values && a != w.env.agents[w.uid] ==> unchanged(a)
    requires KeepsTraits(w.env.agents[w.uid])
    requires unchanged(w.env.realItem) && w.env.fakeItem.sharedCount == old(w.env.fakeItem.sharedCount)
    ensures TakeSnapshot(w.env) == old(TakeSnapshot(w.env)).(
      beliefs := old(BeliefMap(w.env.agents))[w.uid := w.env.agents[w.uid].beliefState],
      fakeFlagged := w.env.fakeItem.isFlaggedFake)
  {
    var agents := w.env.agents;
    forall u | u in agents && u != w.uid
      ensures agents[u].hasShared == old(agents[u].hasShared)
      ensures agents[u].GetTraits() == old(agents[u].GetTraits())
      ensures agents[u].beliefState == old(agents[u].beliefState)
    {
      assert agents[u] in agents.Values;
    }
    assert SharedMap(agents) == old(SharedMap(agents));
    assert TraitMap(agents) == old(TraitMap(agents));
    assert BeliefMap(agents) == old(BeliefMap(agents))[w.uid := agents[w.uid].beliefState];
  }

  /** If only agent `w.uid`'s flag for `w.t` and the counter of `w.t` changed, the
      snapshot records that share and nothing else. */
  twostate lemma SnapshotAfterShare(w: Touch)
    requires DistinctAgents(w.env.agents) && w.uid in w.env.agents && w.env.fakeItem != w.env.realItem
    requires forall a :: a in w.env.agents.Values && a != w.env.agents[w.uid] ==> unchanged(a)
    requires w.env.agents[w.uid].hasShared == old(w.env.agents[w.uid].hasShared) + {w.t}
    requires w.env.agents[w.uid].GetTraits() == old(w.env.agents[w.uid].GetTraits())
    requires w.env.agents[w.uid].beliefState == old(w.env.agents[w.uid].beliefState)
    requires w.env.Item(w.t).sharedCount == old(w.env.Item(w.t).sharedCount) + 1
    requires w.env.Item(w.t).isFlaggedFake == old(w.env.Item(w.t).isFlaggedFake)
    requires unchanged(w.env.Item(w.t.Other()))
    ensures TakeSnapshot(w.env) == old(TakeSnapshot(w.env)).Record(w.uid, w.t)
  {
    var agents := w.env.agents;
    forall u | u in agents && u != w.uid
      ensures agents[u].hasShared == old(agents[u].hasShared)
      ensures agents[u].GetTraits() == old(agents[u].GetTraits())
      ensures agents[u].beliefState == old(agents[u].beliefState)
    {
      assert agents[u] in agents.Values;
    }
    assert SharedMap(agents) == old(SharedMap(agents))[w.uid := agents[w.uid].hasShared];
    assert TraitMap(agents) == old(TraitMap(agents));
    assert BeliefMap(agents) == old(BeliefMap(agents));
  }

  /** `s'` keeps every event of `s`, and adds events only to rounds after `roundNum`. */
  ghost predicate ScheduleGrows(s: Schedule, s': Schedule, roundNum: int) {
    && (forall k :: k in s ==> k in s' && s[k] <= s'[k])
    && (forall k :: k <= roundNum ==> (k in s' <==> k in s) && (k in s ==> s'[k] == s[k]))
  }

  /** Scheduling a share `delay >= 1` rounds after `roundNum` only grows the schedule later on. */
  lemma PushGrows(s: Schedule, roundNum: int, delay: int, e: Event)
    requires 1 <= delay
    ensures ScheduleGrows(s, Push(s, roundNum + delay, e), roundNum)
  {
    forall k | k in s
      ensures k in Push(s, roundNum + delay, e) && s[k] <= Push(s, roundNum + delay, e)[k]
    {
      PushEventsAt(s, roundNum + delay, e, k);
    }
  }

  /** Growing is transitive. */
  lemma GrowsTrans(s1: Schedule, s2: Schedule, s3: Schedule, roundNum: int)
    requires ScheduleGrows(s1, s2, roundNum) && ScheduleGrows(s2, s3, roundNum)
    ensures ScheduleGrows(s1, s3, roundNum)
  {
    forall k | k in s1
      ensures k in s3 && s1[k] <= s3[k]
    {
      assert s1[k] <= s2[k] <= s3[k];
    }
  }

  /** The state after one exposure relative to the state before: infected sets,
      the revision counter and the schedule only grow; reach lists are untouched. */
  ghost predicate StateGrows(st: SpreadState, st': SpreadState, roundNum: int) {
    && st.infectedFake <= st'.infectedFake && st.infectedReal <= st'.infectedReal
    && st.beliefRevisedCount <= st'.beliefRevisedCount
    && st'.fakeReach == st.fakeReach && st'.realReach == st.realReach
    && ScheduleGrows(st.schedule, st'.schedule, roundNum)
  }

  /** Infecting an agent and scheduling its share `delay >= 1` rounds later
      grows the state and keeps every scheduled sharer infected. */
  lemma InfectPushed(st: SpreadState, st': SpreadState, t: NewsType, nb: int, roundNum: int, delay: int,
                     ids: set<int>)
    requires 1 <= delay && nb in ids
    requires st.infectedFake <= ids && st.infectedReal <= ids
    requires EventsWithin(st.schedule, st.infectedFake, st.infectedReal)
    requires st'.infectedFake == st.Infect(t, nb).infectedFake && st'.infectedReal == st.Infect(t, nb).infectedReal
    requires st'.schedule == Push(st.schedule, roundNum + delay, Event(nb, t))
    requires st'.fakeReach == st.fakeReach && st'.realReach == st.realReach
    requires st.beliefRevisedCount <= st'.beliefRevisedCount
    ensures StateGrows(st, st', roundNum)
    ensures st'.infectedFake <= ids && st'.infectedReal <= ids
    ensures EventsWithin(st'.schedule, st'.infectedFake, st'.infectedReal)
  {
    PushGrows(st.schedule, roundNum, delay, Event(nb, t));
    WithinGrow(st.schedule, st.infectedFake, st.infectedReal, st'.infectedFake, st'.infectedReal);
    PushWithin(st.schedule, roundNum + delay, Event(nb, t), st'.infectedFake, st'.infectedReal);
  }

  // ---------------------------------------------------------------------------
  // What one exposure does, as a rule on values
  // ---------------------------------------------------------------------------

  /** The probability that a share of `t` over an edge of trust `edgeTrust` is
      adopted: the sharer's share probability times the effective trust. */
  function AdoptionChance(sender: Traits, edgeTrust: real, t: NewsType, fakeFlagged: bool, flags: VariantFlags): real {
    SharePr(sender, t) * EffectiveTrust(edgeTrust, sender.roles.isInfluencer, t, fakeFlagged, flags)
  }

  /** The belief a neighbour holds after one exposure to `t`, given the draw `u`:
      a neighbour who believes nothing adopts `t` when `u` is below the adoption
      chance; under `'h3'` a neighbour who believes the other type switches to
      `t` when `u` is below its revision chance; anyone else keeps its belief. */
  function Exposed(before: Option<NewsType>, t: NewsType, h3: bool, adoptPr: real, revisePr: real, u: real)
    : (after: Option<NewsType>)
    ensures after == before || after == Some(t)
    ensures before.Some? ==> after.Some?
  {
    if before.None? then (if u < adoptPr then Some(t) else None)
    else if h3 && before != Some(t) && u < revisePr then Some(t)
    else before
  }

  /** The draws one exposure consumes: the adoption test, then for an adopter
      the fact-check of a fact-checker adopting fake news and the delay; the
      revision test, then for a reviser the delay; nothing for anyone else. */
  function ExposureDraws(before: Option<NewsType>, after: Option<NewsType>, t: NewsType, h3: bool,
                         isFactChecker: bool): nat
  {
    if before.None? then (if after.None? then 1 else if t == Fake && isFactChecker then 3 else 2)
    else if h3 && before != Some(t) then (if after == before then 1 else 2)
    else 0
  }

  /** The spread state after one exposure that started at draw position `d`.
      When the belief did not change, nothing changed. Otherwise `nb` joins
      `infected[t]` and is scheduled to share `t` at `roundNum + delay`, the
      delay sampled from the draw after the test (and after a fact-checker's
      check of fake news). An adoption samples with the trial's variant flags
      and, under variant A, inherits the sharer's source; a revision samples
      with the default flags and is counted. */
  ghost function ExposedState(env: Env, st: SpreadState, uid: int, nb: int, t: NewsType, receiver: Traits,
                              before: Option<NewsType>, after: Option<NewsType>, d: nat, roundNum: int): SpreadState
    requires env.delays.Valid()
  {
    if after == before then st
    else if before.None? then
      var u := env.rng.stream(d + if t == Fake && receiver.roles.isFactChecker then 2 else 1);
      var delay := SampledDelay(env.delays.For(t, receiver.roles.isInfluencer, env.flags), u);
      st.Infect(t, nb).(schedule := Push(st.schedule, roundNum + delay, Event(nb, t)),
                        sourceMap := if env.TracksSources() then st.sourceMap[nb := SourceOf(st.sourceMap, uid)]
                                     else st.sourceMap)
    else
      var delay := SampledDelay(env.delays.For(t, receiver.roles.isInfluencer, VARIANT_CONFIG), env.rng.stream(d + 1));
      st.Infect(t, nb).(schedule := Push(st.schedule, roundNum + delay, Event(nb, t)),
                        beliefRevisedCount := st.beliefRevisedCount + 1)
  }

  /** One exposure of neighbour `nb` (traits `receiver`) to `t` shared by `uid`
      (traits `sender`) in round `roundNum`: its belief goes from `before` to
      `after` by `Exposed` with the draw at position `d`, the draw position
      moves on to `d'` by the draws consumed, the fake flag goes from `f` to
      `f'`, raised when a fact-checker adopting fake news draws below
      `p_fact_check`, and the spread state goes from `st` to `st'` by
      `ExposedState`. */
  ghost predicate ExposureStep(env: Env, sender: Traits, uid: int, nb: int, t: NewsType, receiver: Traits,
                               before: Option<NewsType>, after: Option<NewsType>, d: nat, d': nat, f: bool, f': bool,
                               st: SpreadState, st': SpreadState, roundNum: int)
    reads env.g
  {
    var h3 := env.hypothesis == H3;
    && after == Exposed(before, t, h3, AdoptionChance(sender, env.g.EdgeTrust(uid, nb), t, f, env.flags),
                        RevisionChance(receiver.roles.isFactChecker), env.rng.stream(d))
    && d' == d + ExposureDraws(before, after, t, h3, receiver.roles.isFactChecker)
    && f' == (f || (before.None? && after == Some(t) && t == Fake && receiver.roles.isFactChecker
                    && env.rng.stream(d + 1) < P_FACT_CHECK))
    && env.delays.Valid()
    && st' == ExposedState(env, st, uid, nb, t, receiver, before, after, d, roundNum)
  }

  /** The adoption branch follows the rule: an adoption iff the draw is below
      the adoption chance, one draw, a second for a fact-checker's check of fake
      news, and one for the delay, which schedules the adopter's share. */
  lemma AdoptionStep(env: Env, sender: Traits, uid: int, nb: int, t: NewsType, receiver: Traits,
                     after: Option<NewsType>, d: nat, d': nat, f: bool, f': bool,
                     st: SpreadState, st': SpreadState, roundNum: int)
    requires env.delays.Valid()
    requires after == None || after == Some(t)
    requires after.Some? == (env.rng.stream(d) < AdoptionChance(sender, env.g.EdgeTrust(uid, nb), t, f, env.flags))
    requires d' == d + (if after.None? then 1 else if t == Fake && receiver.roles.isFactChecker then 3 else 2)
    requires f' == (f || (after.Some? && t == Fake && receiver.roles.isFactChecker && env.rng.stream(d + 1) < P_FACT_CHECK))
    requires after.None? ==> st' == st
    requires after.Some? ==>
      st' == st.Infect(t, nb).(
        schedule := Push(st.schedule, roundNum + SampledDelay(env.delays.For(t, receiver.roles.isInfluencer, env.flags),
                                                              env.rng.stream(d' - 1)), Event(nb, t)),
        sourceMap := if env.TracksSources() then st.sourceMap[nb := SourceOf(st.sourceMap, uid)] else st.sourceMap)
    ensures ExposureStep(env, sender, uid, nb, t, receiver, None, after, d, d', f, f', st, st', roundNum)
  {
  }

  /** The revision branch follows the rule: a switch iff the draw is below the
      revision chance, one draw, and one more for the delay, which schedules
      the reviser's share. */
  lemma RevisionStep(env: Env, sender: Traits, uid: int, nb: int, t: NewsType, receiver: Traits,
                     before: Option<NewsType>, after: Option<NewsType>, d: nat, d': nat, f: bool,
                     st: SpreadState, st': SpreadState, roundNum: int)
    requires env.delays.Valid()
    requires env.hypothesis == H3 && before.Some? && before != Some(t)
    requires after == before || after == Some(t)
    requires (after == Some(t)) == (env.rng.stream(d) < RevisionChance(receiver.roles.isFactChecker))
    requires d' == d + (if after == before then 1 else 2)
    requires after == before ==> st' == st
    requires after != before ==>
      st' == st.Infect(t, nb).(
        schedule := Push(st.schedule, roundNum + SampledDelay(env.delays.For(t, receiver.roles.isInfluencer, VARIANT_CONFIG),
                                                              env.rng.stream(d + 1)), Event(nb, t)),
        beliefRevisedCount := st.beliefRevisedCount + 1)
    ensures ExposureStep(env, sender, uid, nb, t, receiver, before, after, d, d', f, f, st, st', roundNum)
  {
  }

  /** A neighbour that already believes `t`, or any believer outside `'h3'`, is
      left alone. */
  lemma IdleStep(env: Env, sender: Traits, uid: int, nb: int, t: NewsType, receiver: Traits,
                 before: Option<NewsType>, d: nat, f: bool, st: SpreadState, roundNum: int)
    requires env.delays.Valid()
    requires before.Some? && (env.hypothesis != H3 || before == Some(t))
    ensures ExposureStep(env, sender, uid, nb, t, receiver, before, before, d, d, f, f, st, st, roundNum)
  {
  }

  // ---------------------------------------------------------------------------
  // Exposing one neighbour
  // ---------------------------------------------------------------------------

  /** What accepting news `t` does to neighbour `nb`: it now believes `t`, joins
      `infected[t]`, and is scheduled to share `t` after a delay sampled from the
      next draw with the given variant flags. */
  method Believe(env: Env, st: SpreadState, nb: int, t: NewsType, roundNum: int, flags: VariantFlags)
    returns (st': SpreadState, ghost delay: int)
    requires env.rng.Valid() && env.delays.Valid() && nb in env.agents
    modifies env.agents[nb], env.rng
    ensures env.rng.Valid() && env.rng.drawn == old(env.rng.drawn) + 1
    ensures KeepsTraits(env.agents[nb]) && env.agents[nb].beliefState == Some(t)
    ensures delay == SampledDelay(env.delays.For(t, env.agents[nb].isInfluencer, flags), env.rng.stream(old(env.rng.drawn)))
    ensures 1 <= delay
    ensures st' == st.Infect(t, nb).(schedule := Push(st.schedule, roundNum + delay, Event(nb, t)))
  {
    var neighbour := env.agents[nb];
    neighbour.beliefState := Some(t);
    ghost var at := env.rng.drawn;
    var d := SampleDelayFromDistribution(env.delays.Base(t), env.delays.influencerFake, neighbour, t, flags, env.rng);
    SampledDelayPositive(env.delays, t, neighbour.isInfluencer, flags, env.rng.stream(at));
    delay := d;
    st' := st.Infect(t, nb).(schedule := Push(st.schedule, roundNum + d, Event(nb, t)));
  }

  /** The belief-revision branch (`'h3'` only) for neighbour `nb`, who believes the
      other news type: with the next draw below `RevisionChance`, it switches to
      `t`, joins `infected[t]`, is counted as revised and is scheduled to share `t`
      after a delay sampled, from the following draw, with the default
      (all-false) variant flags. Otherwise nothing but the draw changes. */
  method Revise(env: Env, st: SpreadState, nb: int, t: NewsType, roundNum: int)
    returns (st': SpreadState, ghost revised: bool, ghost delay: int)
    requires env.rng.Valid() && env.delays.Valid() && nb in env.agents
    requires env.hypothesis == H3
    requires env.agents[nb].beliefState.Some? && env.agents[nb].beliefState != Some(t)
    modifies env.agents[nb], env.rng
    ensures env.rng.Valid() && KeepsTraits(env.agents[nb])
    ensures revised == (env.rng.stream(old(env.rng.drawn)) < RevisionChance(env.agents[nb].isFactChecker))
    ensures !revised ==>
      && env.rng.drawn == old(env.rng.drawn) + 1
      && env.agents[nb].beliefState == old(env.agents[nb].beliefState) && st' == st
    ensures revised ==>
      && env.rng.drawn == old(env.rng.drawn) + 2
      && delay == SampledDelay(env.delays.For(t, env.agents[nb].isInfluencer, VARIANT_CONFIG),
                               env.rng.stream(old(env.rng.drawn) + 1))
      && 1 <= delay
      && env.agents[nb].beliefState == Some(t)
      && st' == st.Infect(t, nb).(schedule := Push(st.schedule, roundNum + delay, Event(nb, t)),
                                  beliefRevisedCount := st.beliefRevisedCount + 1)
    ensures forall sender, uid :: ExposureStep(env, sender, uid, nb, t, old(env.agents[nb].GetTraits()),
                         old(env.agents[nb].beliefState), env.agents[nb].beliefState,
                         old(env.rng.drawn), env.rng.drawn, old(env.fakeItem.isFlaggedFake), env.fakeItem.isFlaggedFake,
                         st, st', roundNum)
  {
    var chance := RevisionChance(env.agents[nb].isFactChecker);
    var u := env.rng.Next();
    var revises := u < chance;
    revised := revises;
    st' := st;
    delay := 0;
    if revises {
      st', delay := Believe(env, st, nb, t, roundNum, VARIANT_CONFIG);
      st' := st'.(beliefRevisedCount := st.beliefRevisedCount + 1);
    }
    forall sender: Traits, uid: int
      ensures ExposureStep(env, sender, uid, nb, t, old(env.agents[nb].GetTraits()),
                           old(env.agents[nb].beliefState), env.agents[nb].beliefState,
                           old(env.rng.drawn), env.rng.drawn, old(env.fakeItem.isFlaggedFake), env.fakeItem.isFlaggedFake,
                           st, st', roundNum)
    {
      RevisionStep(env, sender, uid, nb, t, old(env.agents[nb].GetTraits()), old(env.agents[nb].beliefState),
                   env.agents[nb].beliefState, old(env.rng.drawn), env.rng.drawn, env.fakeItem.isFlaggedFake,
                   st, st', roundNum);
    }
  }


  /** The adoption test for a share of `t` from `uid` to `nb`: the next draw is
      compared with the sharer's share probability times the effective trust
      of the edge, as it stands before any flagging this exposure causes. */
  method AdoptionDraw(env: Env, uid: int, nb: int, t: NewsType) returns (adopts: bool)
    requires env.rng.Valid() && uid in env.agents
    modifies env.rng
    ensures env.rng.Valid() && env.rng.drawn == old(env.rng.drawn) + 1
    ensures adopts == (env.rng.stream(old(env.rng.drawn))
      < AdoptionChance(env.agents[uid].GetTraits(), env.g.EdgeTrust(uid, nb), t, env.fakeItem.isFlaggedFake, env.flags))
  {
    var sender := env.agents[uid];
    var trust := env.g.EdgeTrust(uid, nb);
    trust := ModifiedTrust(sender.isInfluencer, trust, env.flags);
    if t == Fake && env.fakeItem.isFlaggedFake {
      trust := trust * FLAGGED_TRUST_FACTOR;
    }
    var prob := if t == Fake then sender.pShareFake else sender.pShareReal;
    var u := env.rng.Next();
    adopts := u < prob * trust;
  }

  /** The fact-checker intervention: the fake item is flagged when the next draw
      is below `p_fact_check`; a flag already set stays set. */
  method FactCheck(env: Env)
    requires env.rng.Valid()
    modifies env.rng, env.fakeItem
    ensures env.rng.Valid() && env.rng.drawn == old(env.rng.drawn) + 1
    ensures env.fakeItem.isFlaggedFake == (old(env.fakeItem.isFlaggedFake) || env.rng.stream(old(env.rng.drawn)) < P_FACT_CHECK)
    ensures env.fakeItem.sharedCount == old(env.fakeItem.sharedCount)
  {
    var v := env.rng.Next();
    if v < P_FACT_CHECK {
      env.fakeItem.isFlaggedFake := true;
    }
  }

  /** An adoption of `t` by neighbour `nb` of `uid`: a fact-checker adopting fake
      news first flags the fake item when the next draw is below `p_fact_check`;
      the adopter then joins `infected[t]`, inherits the sharer's source under
      variant A, and is scheduled to share `t` after a delay sampled from the
      last draw consumed. */
  method Accept(env: Env, st: SpreadState, uid: int, nb: int, t: NewsType, roundNum: int)
    returns (st': SpreadState, ghost checked: bool, ghost delay: int)
    requires env.rng.Valid() && env.delays.Valid() && nb in env.agents
    modifies env.agents[nb], env.fakeItem, env.rng
    ensures env.rng.Valid() && KeepsTraits(env.agents[nb])
    ensures env.fakeItem.sharedCount == old(env.fakeItem.sharedCount)
    ensures checked == (t == Fake && old(env.agents[nb].isFactChecker))
    ensures env.rng.drawn == old(env.rng.drawn) + (if checked then 2 else 1)
    ensures env.fakeItem.isFlaggedFake
         == (old(env.fakeItem.isFlaggedFake) || (checked && env.rng.stream(old(env.rng.drawn)) < P_FACT_CHECK))
    ensures delay == SampledDelay(env.delays.For(t, env.agents[nb].isInfluencer, env.flags),
                                  env.rng.stream(env.rng.drawn - 1))
    ensures 1 <= delay
    ensures env.agents[nb].beliefState == Some(t)
    ensures st' == st.Infect(t, nb).(
      schedule := Push(st.schedule, roundNum + delay, Event(nb, t)),
      sourceMap := if env.TracksSources() then st.sourceMap[nb := SourceOf(st.sourceMap, uid)]
                   else st.sourceMap)
  {
    checked := false;
    if t == Fake && env.agents[nb].isFactChecker {
      FactCheck(env);
      checked := true;
    }
    var sources := if env.TracksSources() then st.sourceMap[nb := SourceOf(st.sourceMap, uid)] else st.sourceMap;
    st', delay := Believe(env, st, nb, t, roundNum, env.flags);
    st' := st'.(sourceMap := sources);
  }

  /** The adoption branch for neighbour `nb`, who believes nothing: with the next
      draw below the sharer's share probability times the effective trust of the
      edge, `nb` adopts `t` as `Accept` describes; otherwise only the draw is
      consumed. */
  method Adopt(env: Env, st: SpreadState, uid: int, nb: int, t: NewsType, roundNum: int)
    returns (st': SpreadState, ghost adopted: bool, ghost checked: bool, ghost delay: int)
    requires env.rng.Valid() && env.delays.Valid() && uid in env.agents && nb in env.agents
    requires env.agents[nb].beliefState == None
    modifies env.agents[nb], env.fakeItem, env.rng
    ensures env.rng.Valid() && KeepsTraits(env.agents[nb])
    ensures env.fakeItem.sharedCount == old(env.fakeItem.sharedCount)
    ensures adopted == old(env.rng.stream(env.rng.drawn)
      < AdoptionChance(env.agents[uid].GetTraits(), env.g.EdgeTrust(uid, nb), t, env.fakeItem.isFlaggedFake, env.flags))
    ensures checked == (adopted && t == Fake && old(env.agents[nb].isFactChecker))
    ensures env.rng.drawn == old(env.rng.drawn) + (if !adopted then 1 else if checked then 3 else 2)
    ensures env.fakeItem.isFlaggedFake
         == (old(env.fakeItem.isFlaggedFake) || (checked && env.rng.stream(old(env.rng.drawn) + 1) < P_FACT_CHECK))
    ensures !adopted ==> env.agents[nb].beliefState == None && st' == st
    ensures adopted ==>
      && delay == SampledDelay(env.delays.For(t, env.agents[nb].isInfluencer, env.flags),
                               env.rng.stream(env.rng.drawn - 1))
      && 1 <= delay
      && env.agents[nb].beliefState == Some(t)
      && st' == st.Infect(t, nb).(
           schedule := Push(st.schedule, roundNum + delay, Event(nb, t)),
           sourceMap := if env.TracksSources() then st.sourceMap[nb := SourceOf(st.sourceMap, uid)]
                        else st.sourceMap)
    ensures ExposureStep(env, old(env.agents[uid].GetTraits()), uid, nb, t, old(env.agents[nb].GetTraits()),
                         None, env.agents[nb].beliefState,
                         old(env.rng.drawn), env.rng.drawn, old(env.fakeItem.isFlaggedFake), env.fakeItem.isFlaggedFake,
                         st, st', roundNum)
  {
    ghost var sender, receiver := env.agents[uid].GetTraits(), env.agents[nb].GetTraits();
    ghost var at, f := env.rng.drawn, env.fakeItem.isFlaggedFake;
    ghost var pr := AdoptionChance(sender, env.g.EdgeTrust(uid, nb), t, f, env.flags);
    var adopts := AdoptionDraw(env, uid, nb, t);
    adopted := adopts;
    st', checked, delay := st, false, 0;
    if adopts {
      st', checked, delay := Accept(env, st, uid, nb, t, roundNum);
    }
    AdoptionStep(env, sender, uid, nb, t, receiver, env.agents[nb].beliefState, at, env.rng.drawn,
                 f, env.fakeItem.isFlaggedFake, st, st', roundNum);
  }

  /** One neighbour `nb` of an agent `uid` sharing `t`: a neighbour who believes
      nothing may adopt `t`; under `'h3'` a neighbour who believes the other
      type may revise; any other neighbour is left alone and no draw is
      consumed. No other agent record changes; the infected sets, the revision
      counter and the schedule after this round only grow. */
  method Expose(env: Env, st: SpreadState, uid: int, nb: int, t: NewsType, roundNum: int)
    returns (st': SpreadState)
    requires env.Valid() && uid in env.agents && nb in env.agents
    requires st.infectedFake <= env.agents.Keys && st.infectedReal <= env.agents.Keys
    requires EventsWithin(st.schedule, st.infectedFake, st.infectedReal)
    requires env.hypothesis != H3 ==> st.beliefRevisedCount == 0
    requires !env.TracksSources() ==> st.sourceMap == map[]
    modifies env.agents[nb], env.fakeItem, env.rng
    ensures env.rng.Valid() && StateGrows(st, st', roundNum)
    ensures st'.infectedFake <= env.agents.Keys && st'.infectedReal <= env.agents.Keys
    ensures EventsWithin(st'.schedule, st'.infectedFake, st'.infectedReal)
    ensures env.hypothesis != H3 ==> st'.beliefRevisedCount == 0
    ensures !env.TracksSources() ==> st'.sourceMap == map[]
    ensures KeepsTraits(env.agents[nb]) && env.fakeItem.sharedCount == old(env.fakeItem.sharedCount)
    ensures old(env.agents[nb].beliefState).Some?
              && (env.hypothesis != H3 || old(env.agents[nb].beliefState) == Some(t)) ==>
      && env.agents[nb].beliefState == old(env.agents[nb].beliefState) && st' == st
      && env.rng.drawn == old(env.rng.drawn) && env.fakeItem.isFlaggedFake == old(env.fakeItem.isFlaggedFake)
    ensures env.agents[nb].beliefState != old(env.agents[nb].beliefState) ==>
      env.agents[nb].beliefState == Some(t) && nb in st'.Infected(t)
    ensures old(env.fakeItem.isFlaggedFake) ==> env.fakeItem.isFlaggedFake
    ensures env.fakeItem.isFlaggedFake != old(env.fakeItem.isFlaggedFake) ==>
      t == Fake && old(env.agents[nb].beliefState) == None && env.agents[nb].isFactChecker
    ensures ExposureStep(env, old(env.agents[uid].GetTraits()), uid, nb, t, old(env.agents[nb].GetTraits()),
                         old(env.agents[nb].beliefState), env.agents[nb].beliefState,
                         old(env.rng.drawn), env.rng.drawn, old(env.fakeItem.isFlaggedFake), env.fakeItem.isFlaggedFake,
                         st, st', roundNum)
  {
    var neighbour := env.agents[nb];
    ghost var sender, receiver := env.agents[uid].GetTraits(), neighbour.GetTraits();
    ghost var before, at, f := neighbour.beliefState, env.rng.drawn, env.fakeItem.isFlaggedFake;
    st' := st;
    if neighbour.beliefState.Some? {
      if env.hypothesis == H3 && neighbour.beliefState != Some(t) {
        ghost var revised, delay;
        st', revised, delay := Revise(env, st, nb, t, roundNum);
        if revised {
          InfectPushed(st, st', t, nb, roundNum, delay, env.agents.Keys);
        }
      } else {
        IdleStep(env, sender, uid, nb, t, receiver, before, at, f, st, roundNum);
      }
    } else {
      ghost var adopted, checked, delay;
      st', adopted, checked, delay := Adopt(env, st, uid, nb, t, roundNum);
      if adopted {
        InfectPushed(st, st', t, nb, roundNum, delay, env.agents.Keys);
      }
    }
  }

  /** `Expose`, seen through the snapshot: only `nb`'s belief and the fake flag change. */
  method ExposeSnapshot(env: Env, st: SpreadState, uid: int, nb: int, t: NewsType, roundNum: int)
    returns (st': SpreadState)
    requires env.Valid() && uid in env.agents && nb in env.agents
    requires st.infectedFake <= env.agents.Keys && st.infectedReal <= env.agents.Keys
    requires EventsWithin(st.schedule, st.infectedFake, st.infectedReal)
    requires env.hypothesis != H3 ==> st.beliefRevisedCount == 0
    requires !env.TracksSources() ==> st.sourceMap == map[]
    modifies env.agents[nb], env.fakeItem, env.rng
    ensures env.rng.Valid() && StateGrows(st, st', roundNum)
    ensures st'.infectedFake <= env.agents.Keys && st'.infectedReal <= env.agents.Keys
    ensures EventsWithin(st'.schedule, st'.infectedFake, st'.infectedReal)
    ensures env.hypothesis != H3 ==> st'.beliefRevisedCount == 0
    ensures !env.TracksSources() ==> st'.sourceMap == map[]
    ensures TakeSnapshot(env) == old(TakeSnapshot(env)).(
      beliefs := old(BeliefMap(env.agents))[nb := env.agents[nb].beliefState],
      fakeFlagged := env.fakeItem.isFlaggedFake)
    ensures env.agents[nb].beliefState != old(env.agents[nb].beliefState) ==>
      env.agents[nb].beliefState == Some(t) && nb in st'.Infected(t)
    ensures old(env.fakeItem.isFlaggedFake) ==> env.fakeItem.isFlaggedFake
    ensures unchanged(env.g)
    ensures ExposureStep(env, old(env.agents[uid].GetTraits()), uid, nb, t, old(env.agents[nb].GetTraits()),
                         old(env.agents[nb].beliefState), env.agents[nb].beliefState,
                         old(env.rng.drawn), env.rng.drawn, old(env.fakeItem.isFlaggedFake), env.fakeItem.isFlaggedFake,
                         st, st', roundNum)
  {
    st' := Expose(env, st, uid, nb, t, roundNum);
    SnapshotAfterExposure(Touch(env, nb, t));
  }

  /** `Expose` keeps the engine's invariant. */
  method ExposeNeighbour(env: Env, st: SpreadState, ghost base: Snapshot, uid: int, nb: int, t: NewsType,
                         roundNum: int)
    returns (st': SpreadState)
    requires env.Valid() && Inv(env, st, base) && uid in env.agents && nb in env.agents
    modifies env.agents[nb], env.fakeItem, env.rng
    ensures env.rng.Valid() && Inv(env, st', base) && StateGrows(st, st', roundNum)
    ensures SharedMap(env.agents) == old(SharedMap(env.agents))
    ensures TakeSnapshot(env) == old(TakeSnapshot(env)).(
      beliefs := old(TakeSnapshot(env)).beliefs[nb := TakeSnapshot(env).beliefs[nb]],
      fakeFlagged := env.fakeItem.isFlaggedFake)
    ensures unchanged(env.g)
    ensures ExposureStep(env, base.traits[uid], uid, nb, t, base.traits[nb],
                         old(TakeSnapshot(env)).beliefs[nb], TakeSnapshot(env).beliefs[nb],
                         old(env.rng.drawn), env.rng.drawn, old(env.fakeItem.isFlaggedFake), env.fakeItem.isFlaggedFake,
                         st, st', roundNum)
  {
    ghost var now := TakeSnapshot(env);
    assert base.traits[uid] == env.agents[uid].GetTraits() && base.traits[nb] == env.agents[nb].GetTraits();
    st' := ExposeSnapshot(env, st, uid, nb, t, roundNum);
    ConsistentAfterExposure(env, now, TakeSnapshot(env), st, st', base, nb);
  }

  // ---------------------------------------------------------------------------
  // One share event
  // ---------------------------------------------------------------------------

  /** Exposures only grow the state. */
  lemma StateGrowsTrans(st1: SpreadState, st2: SpreadState, st3: SpreadState, roundNum: int)
    requires StateGrows(st1, st2, roundNum) && StateGrows(st2, st3, roundNum)
    ensures StateGrows(st1, st3, roundNum)
  {
    GrowsTrans(st1.schedule, st2.schedule, st3.schedule, roundNum);
  }

  /** Share flags are only ever raised. */
  ghost predicate SharedGrows(m: map<int, set<NewsType>>, m': map<int, set<NewsType>>) {
    forall u :: u in m ==> u in m' && m[u] <= m'[u]
  }

  /** Raising one flag grows the flags. */
  lemma RaiseGrows(m: map<int, set<NewsType>>, w: int, t: NewsType)
    requires w in m
    ensures SharedGrows(m, m[w := m[w] + {t}])
  {
  }

  /** `agent.has_shared[t] = True` and the item's counter increment, seen through
      the snapshot: the share is recorded and nothing else changes. */
  method MarkShare(env: Env, uid: int, t: NewsType)
    requires env.Valid() && uid in env.agents
    modifies env.agents[uid], env.Item(t)
    ensures TakeSnapshot(env) == old(TakeSnapshot(env)).Record(uid, t)
    ensures env.rng.drawn == old(env.rng.drawn)
  {
    env.agents[uid].MarkShared(t);
    env.Item(t).CountShare();
    SnapshotAfterShare(Touch(env, uid, t));
  }

  /** The first share of `t` by `uid`: its flag for `t` is raised and the item's
      share counter grows by one; nothing else changes. */
  method RecordShare(env: Env, ghost st: SpreadState, ghost base: Snapshot, uid: int, t: NewsType)
    requires env.Valid() && Inv(env, st, base) && uid in st.Infected(t)
    requires t !in env.agents[uid].hasShared
    modifies env.agents[uid], env.Item(t)
    ensures Inv(env, st, base) && t in env.agents[uid].hasShared
    ensures SharedMap(env.agents) == old(SharedMap(env.agents))[uid := old(env.agents[uid].hasShared) + {t}]
    ensures TakeSnapshot(env) == old(TakeSnapshot(env)).Record(uid, t)
    ensures env.rng.drawn == old(env.rng.drawn) && unchanged(env.g)
  {
    ghost var now := TakeSnapshot(env);
    MarkShare(env, uid, t);
    ConsistentAfterShare(env, now, st, base, uid, t);
  }

  /** What happened around the exposures of one sharer's neighbours: before
      each exposure and after the last, the draw position, the fake flag and
      the spread state. */
  datatype Trail = Trail(draws: seq<nat>, flagged: seq<bool>, states: seq<SpreadState>)
  {
    /** The trail with one more exposure, which left these values. */
    function Then(d: nat, f: bool, st: SpreadState): Trail {
      Trail(draws + [d], flagged + [f], states + [st])
    }
  }

  /** Neighbours `ns[..k]` of `uid` have been exposed to `t` in round
      `roundNum`, in order: the snapshot went from `before` to `after` changing
      only their beliefs and the fake flag, the `j`-th exposure took neighbour
      `ns[j]` from its belief in `before` to its belief in `after` by
      `ExposureStep`, starting from the draw position, fake flag and spread
      state at position `j` of the trail and ending at those at `j + 1`, and
      every other belief is as it was. */
  ghost predicate ExposedInOrder(env: Env, uid: int, t: NewsType, ns: seq<int>, k: nat,
                                 before: Snapshot, after: Snapshot, tr: Trail, roundNum: int)
    reads env.g
  {
    && k <= |ns| && |tr.draws| == k + 1 && |tr.flagged| == k + 1 && |tr.states| == k + 1
    && tr.flagged[0] == before.fakeFlagged && tr.flagged[k] == after.fakeFlagged
    && after == before.(beliefs := after.beliefs, fakeFlagged := after.fakeFlagged)
    && after.beliefs.Keys == before.beliefs.Keys
    && uid in before.traits
    && (forall j :: 0 <= j < k ==> ns[j] in before.traits && ns[j] in before.beliefs)
    && (forall j :: 0 <= j < k ==>
          ExposureStep(env, before.traits[uid], uid, ns[j], t, before.traits[ns[j]],
                       before.beliefs[ns[j]], after.beliefs[ns[j]], tr.draws[j], tr.draws[j + 1],
                       tr.flagged[j], tr.flagged[j + 1], tr.states[j], tr.states[j + 1], roundNum))
    && (forall u :: u in before.beliefs && u !in ns[..k] ==> after.beliefs[u] == before.beliefs[u])
  }

  /** Before any exposure nothing has changed. */
  lemma ExposedInOrderStart(env: Env, uid: int, t: NewsType, ns: seq<int>, before: Snapshot, d: nat,
                            st: SpreadState, roundNum: int)
    requires uid in before.traits
    ensures ExposedInOrder(env, uid, t, ns, 0, before, before, Trail([d], [before.fakeFlagged], [st]), roundNum)
  {
  }

  /** Exposing the next neighbour, which no earlier exposure touched, extends the order. */
  lemma ExposedInOrderStep(env: Env, uid: int, t: NewsType, ns: seq<int>, k: nat,
                           before: Snapshot, mid: Snapshot, after: Snapshot, tr: Trail, d': nat, st': SpreadState,
                           roundNum: int)
    requires ExposedInOrder(env, uid, t, ns, k, before, mid, tr, roundNum)
    requires k < |ns| && NoDup(ns) && ns[k] in before.traits && ns[k] in before.beliefs && ns[k] in after.beliefs
    requires after == mid.(beliefs := mid.beliefs[ns[k] := after.beliefs[ns[k]]], fakeFlagged := after.fakeFlagged)
    requires ExposureStep(env, before.traits[uid], uid, ns[k], t, before.traits[ns[k]],
                          mid.beliefs[ns[k]], after.beliefs[ns[k]], tr.draws[k], d', tr.flagged[k], after.fakeFlagged,
                          tr.states[k], st', roundNum)
    ensures ExposedInOrder(env, uid, t, ns, k + 1, before, after, tr.Then(d', after.fakeFlagged, st'), roundNum)
  {
    assert ns[k] !in ns[..k];
    assert ns[..k + 1] == ns[..k] + [ns[k]];
    var tr' := tr.Then(d', after.fakeFlagged, st');
    forall j | 0 <= j < k + 1
      ensures ExposureStep(env, before.traits[uid], uid, ns[j], t, before.traits[ns[j]],
                           before.beliefs[ns[j]], after.beliefs[ns[j]], tr'.draws[j], tr'.draws[j + 1],
                           tr'.flagged[j], tr'.flagged[j + 1], tr'.states[j], tr'.states[j + 1], roundNum)
    {
      if j < k {
        assert ns[j] != ns[k];
      }
    }
  }

  /** `uid` passes `t` on to each of its neighbours, in adjacency order: the
      `j`-th neighbour is exposed by `ExposureStep` from the draw position, fake
      flag and spread state the previous exposure left, and only the
      neighbours' beliefs and the fake flag change. */
  method ExposeNeighbours(env: Env, st: SpreadState, ghost base: Snapshot, uid: int, t: NewsType, roundNum: int)
    returns (st': SpreadState, ghost tr: Trail)
    requires env.Valid() && Inv(env, st, base) && uid in env.agents
    modifies env.agents.Values, env.fakeItem, env.rng
    ensures env.rng.Valid() && Inv(env, st', base) && StateGrows(st, st', roundNum)
    ensures SharedMap(env.agents) == old(SharedMap(env.agents))
    ensures ExposedInOrder(env, uid, t, env.g.adj[uid], |env.g.adj[uid]|, old(TakeSnapshot(env)), TakeSnapshot(env),
                           tr, roundNum)
    ensures tr.draws[0] == old(env.rng.drawn) && tr.draws[|tr.draws| - 1] == env.rng.drawn
    ensures tr.states[0] == st && tr.states[|tr.states| - 1] == st'
    ensures unchanged(env.g)
  {
    var neighbours := env.g.adj[uid];
    ghost var start := TakeSnapshot(env);
    st' := st;
    tr := Trail([env.rng.drawn], [env.fakeItem.isFlaggedFake], [st]);
    ExposedInOrderStart(env, uid, t, neighbours, start, env.rng.drawn, st, roundNum);
    var i := 0;
    while i < |neighbours|
      invariant 0 <= i <= |neighbours| && unchanged(env.g)
      invariant env.rng.Valid() && Inv(env, st', base) && StateGrows(st, st', roundNum)
      invariant SharedMap(env.agents) == old(SharedMap(env.agents))
      invariant ExposedInOrder(env, uid, t, neighbours, i, start, TakeSnapshot(env), tr, roundNum)
      invariant tr.draws[0] == old(env.rng.drawn) && tr.draws[i] == env.rng.drawn
      invariant tr.states[0] == st && tr.states[i] == st'
    {
      ghost var before := st';
      st', tr := ExposeNext(env, st', base, uid, t, roundNum, neighbours, i, start, tr);
      StateGrowsTrans(st, before, st', roundNum);
      i := i + 1;
    }
  }

  /** The loop step of `ExposeNeighbours`: neighbour `ns[i]` is exposed, and the
      order of exposures grows by one. */
  method ExposeNext(env: Env, st: SpreadState, ghost base: Snapshot, uid: int, t: NewsType, roundNum: int,
                    ns: seq<int>, i: nat, ghost start: Snapshot, ghost tr: Trail)
    returns (st': SpreadState, ghost tr': Trail)
    requires env.Valid() && Inv(env, st, base) && uid in env.agents && ns == env.g.adj[uid] && i < |ns|
    requires start.traits == base.traits && start.beliefs.Keys == env.agents.Keys
    requires ExposedInOrder(env, uid, t, ns, i, start, TakeSnapshot(env), tr, roundNum)
    requires tr.draws[i] == env.rng.drawn && tr.states[i] == st
    modifies env.agents.Values, env.fakeItem, env.rng
    ensures env.rng.Valid() && Inv(env, st', base) && StateGrows(st, st', roundNum)
    ensures SharedMap(env.agents) == old(SharedMap(env.agents))
    ensures ExposedInOrder(env, uid, t, ns, i + 1, start, TakeSnapshot(env), tr', roundNum)
    ensures tr'.draws[0] == tr.draws[0] && tr'.draws[i + 1] == env.rng.drawn
    ensures tr'.states[0] == tr.states[0] && tr'.states[i + 1] == st'
    ensures unchanged(env.g)
  {
    var nb := ns[i];
    assert env.agents[nb] in env.agents.Values;
    ghost var mid := TakeSnapshot(env);
    st' := ExposeNeighbour(env, st, base, uid, nb, t, roundNum);
    ExposedInOrderStep(env, uid, t, ns, i, start, mid, TakeSnapshot(env), tr, env.rng.drawn, st', roundNum);
    tr' := tr.Then(env.rng.drawn, env.fakeItem.isFlaggedFake, st');
  }

  /** Event `e` of round `roundNum` took the snapshot from `before` to `after`,
      the draw position from `d` to `d'` and the spread state from `st` to
      `st'`: an agent that had already shared the event's news changes
      nothing; otherwise its share is recorded and then its neighbours are
      exposed in adjacency order, as the trail `tr` records. */
  ghost predicate EventApplied(env: Env, e: Event, before: Snapshot, after: Snapshot, d: nat, d': nat,
                               st: SpreadState, st': SpreadState, tr: Trail, roundNum: int)
    reads env.g
  {
    && e.uid in before.shared && e.uid in env.g.adj
    && if e.newsType in before.shared[e.uid] then after == before && d' == d && st' == st
       else
         && ExposedInOrder(env, e.uid, e.newsType, env.g.adj[e.uid], |env.g.adj[e.uid]|,
                           before.Record(e.uid, e.newsType), after, tr, roundNum)
         && tr.draws[0] == d && tr.draws[|tr.draws| - 1] == d'
         && tr.states[0] == st && tr.states[|tr.states| - 1] == st'
  }

  /** The event `(uid, t)`: an agent that already shared `t` does nothing;
      otherwise it raises its flag for `t`, the item's share counter grows by one,
      and each of its neighbours, in adjacency order, is exposed to `t`. */
  method ShareEvent(env: Env, st: SpreadState, ghost base: Snapshot, e: Event, roundNum: int)
    returns (st': SpreadState, ghost tr: Trail)
    requires env.Valid() && Inv(env, st, base) && e.uid in st.Infected(e.newsType)
    modifies env.agents.Values, env.fakeItem, env.realItem, env.rng
    ensures env.rng.Valid() && Inv(env, st', base) && StateGrows(st, st', roundNum)
    ensures e.newsType in env.agents[e.uid].hasShared
    ensures SharedGrows(old(SharedMap(env.agents)), SharedMap(env.agents))
    ensures e.newsType in old(env.agents[e.uid].hasShared) ==>
      st' == st && env.rng.drawn == old(env.rng.drawn) && unchanged(env.agents.Values, env.fakeItem, env.realItem)
    ensures EventApplied(env, e, old(TakeSnapshot(env)), TakeSnapshot(env), old(env.rng.drawn), env.rng.drawn,
                         st, st', tr, roundNum)
    ensures unchanged(env.g)
  {
    var uid, t := e.uid, e.newsType;
    var agent := env.agents[uid];
    ghost var snap, d := TakeSnapshot(env), env.rng.drawn;
    st', tr := st, Trail([], [], []);
    if t in agent.hasShared {
      EventAppliedIdle(env, e, snap, d, st, roundNum);
      return;
    }
    ghost var recorded;
    st', recorded, tr := ShareFirst(env, st, base, e, roundNum);
    EventAppliedShared(env, e, snap, recorded, TakeSnapshot(env), d, env.rng.drawn, st, st', tr, roundNum);
  }

  /** The first share of the event's news by its sharer: the share is recorded,
      then the neighbours are exposed. */
  method ShareFirst(env: Env, st: SpreadState, ghost base: Snapshot, e: Event, roundNum: int)
    returns (st': SpreadState, ghost recorded: Snapshot, ghost tr: Trail)
    requires env.Valid() && Inv(env, st, base) && e.uid in st.Infected(e.newsType)
    requires e.newsType !in env.agents[e.uid].hasShared
    modifies env.agents.Values, env.fakeItem, env.realItem, env.rng
    ensures env.rng.Valid() && Inv(env, st', base) && StateGrows(st, st', roundNum)
    ensures e.newsType in env.agents[e.uid].hasShared
    ensures SharedGrows(old(SharedMap(env.agents)), SharedMap(env.agents))
    ensures recorded == old(TakeSnapshot(env)).Record(e.uid, e.newsType)
    ensures ExposedInOrder(env, e.uid, e.newsType, env.g.adj[e.uid], |env.g.adj[e.uid]|,
                           recorded, TakeSnapshot(env), tr, roundNum)
    ensures tr.draws[0] == old(env.rng.drawn) && tr.draws[|tr.draws| - 1] == env.rng.drawn
    ensures tr.states[0] == st && tr.states[|tr.states| - 1] == st'
    ensures unchanged(env.g)
  {
    var uid, t := e.uid, e.newsType;
    ghost var shared := SharedMap(env.agents);
    RecordShare(env, st, base, uid, t);
    recorded := TakeSnapshot(env);
    st', tr := ExposeNeighbours(env, st, base, uid, t, roundNum);
    RaiseGrows(shared, uid, t);
  }

  /** An event whose sharer has already shared its news type changes nothing. */
  lemma EventAppliedIdle(env: Env, e: Event, snap: Snapshot, d: nat, st: SpreadState, roundNum: int)
    requires e.uid in snap.shared && e.uid in env.g.adj && e.newsType in snap.shared[e.uid]
    ensures EventApplied(env, e, snap, snap, d, d, st, st, Trail([], [], []), roundNum)
  {
  }

  /** A first share followed by the exposures of the sharer's neighbours is the
      event's effect. */
  lemma EventAppliedShared(env: Env, e: Event, before: Snapshot, mid: Snapshot, after: Snapshot, d: nat, d': nat,
                           st: SpreadState, st': SpreadState, tr: Trail, roundNum: int)
    requires e.uid in before.shared && e.uid in env.g.adj && e.newsType !in before.shared[e.uid]
    requires mid == before.Record(e.uid, e.newsType)
    requires ExposedInOrder(env, e.uid, e.newsType, env.g.adj[e.uid], |env.g.adj[e.uid]|, mid, after, tr, roundNum)
    requires tr.draws[0] == d && tr.draws[|tr.draws| - 1] == d'
    requires tr.states[0] == st && tr.states[|tr.states| - 1] == st'
    ensures EventApplied(env, e, before, after, d, d', st, st', tr, roundNum)
  {
  }

  // ---------------------------------------------------------------------------
  // One round
  // ---------------------------------------------------------------------------

  /** Every event's sharer has raised its flag for the event's news type. */
  ghost predicate AllShared(m: map<int, set<NewsType>>, events: seq<Event>) {
    forall e :: e in events ==> e.uid in m && e.newsType in m[e.uid]
  }

  /** Raising more flags keeps earlier events shared; the next event, whose flag
      is now raised, joins them. */
  lemma AllSharedStep(m: map<int, set<NewsType>>, m': map<int, set<NewsType>>, events: seq<Event>, i: nat)
    requires i < |events| && AllShared(m, events[..i]) && SharedGrows(m, m')
    requires events[i].uid in m' && events[i].newsType in m'[events[i].uid]
    ensures AllShared(m', events[..i + 1])
  {
    forall x | x in events[..i + 1]
      ensures x.uid in m' && x.newsType in m'[x.uid]
    {
      if x != events[i] {
        assert events[..i + 1] == events[..i] + [events[i]];
        assert x in events[..i];
      }
    }
  }

  /** The invariant depends on the state only through the infected sets, the
      schedule, the revision counter and the source map. */
  lemma ConsistentSameInfected(env: Env, now: Snapshot, st: SpreadState, st': SpreadState, base: Snapshot)
    requires Consistent(env, now, st, base)
    requires st'.infectedFake == st.infectedFake && st'.infectedReal == st.infectedReal
    requires st'.beliefRevisedCount == st.beliefRevisedCount && st'.sourceMap == st.sourceMap
    requires EventsWithin(st'.schedule, st'.infectedFake, st'.infectedReal)
    ensures Consistent(env, now, st', base)
  {
    assert forall t :: st'.Infected(t) == st.Infected(t);
  }

  /** Recording the reach of a round keeps the invariant. */
  lemma ConsistentAfterRecord(env: Env, now: Snapshot, st: SpreadState, base: Snapshot)
    requires Consistent(env, now, st, base)
    ensures Consistent(env, now, st.Recorded(), base)
  {
    ConsistentSameInfected(env, now, st, st.Recorded(), base);
  }

  /** `schedule.pop(round_num, [])` keeps the invariant, and every popped event's
      sharer is infected with the event's news type. */
  lemma ConsistentAfterPop(env: Env, now: Snapshot, st: SpreadState, base: Snapshot, roundNum: int)
    requires Consistent(env, now, st, base)
    ensures Consistent(env, now, st.(schedule := st.schedule - {roundNum}), base)
    ensures forall e :: e in EventsAt(st.schedule, roundNum) ==> e.uid in st.Infected(e.newsType)
  {
    ConsistentSameInfected(env, now, st, st.(schedule := st.schedule - {roundNum}), base);
    forall e | e in EventsAt(st.schedule, roundNum)
      ensures e.uid in st.Infected(e.newsType)
    {
      var i :| 0 <= i < |st.schedule[roundNum]| && st.schedule[roundNum][i] == e;
    }
  }

  /** The first `k` events of round `roundNum` were applied in order: event `j`
      took the snapshot from `snaps[j]` to `snaps[j + 1]`, the draw position
      from `marks[j]` to `marks[j + 1]` and the spread state from `sts[j]` to
      `sts[j + 1]`, as `EventApplied` describes with trail `trails[j]`. */
  ghost predicate EventsApplied(env: Env, events: seq<Event>, k: nat, snaps: seq<Snapshot>, marks: seq<nat>,
                                sts: seq<SpreadState>, trails: seq<Trail>, roundNum: int)
    reads env.g
  {
    && k <= |events| && |snaps| == k + 1 && |marks| == k + 1 && |sts| == k + 1 && |trails| == k
    && forall j :: 0 <= j < k ==>
         EventApplied(env, events[j], snaps[j], snaps[j + 1], marks[j], marks[j + 1], sts[j], sts[j + 1],
                      trails[j], roundNum)
  }

  /** Applying the next event extends the trace. */
  lemma EventsAppliedStep(env: Env, events: seq<Event>, k: nat, snaps: seq<Snapshot>, marks: seq<nat>,
                          sts: seq<SpreadState>, trails: seq<Trail>, roundNum: int,
                          e: Event, before: Snapshot, d: nat, cur: SpreadState,
                          snap: Snapshot, mark: nat, st: SpreadState, tr: Trail)
    requires EventsApplied(env, events, k, snaps, marks, sts, trails, roundNum) && k < |events|
    requires e == events[k] && before == snaps[k] && d == marks[k] && cur == sts[k]
    requires EventApplied(env, e, before, snap, d, mark, cur, st, tr, roundNum)
    ensures EventsApplied(env, events, k + 1, snaps + [snap], marks + [mark], sts + [st], trails + [tr], roundNum)
  {
    var snaps', marks', sts', trails' := snaps + [snap], marks + [mark], sts + [st], trails + [tr];
    forall j | 0 <= j < k + 1
      ensures EventApplied(env, events[j], snaps'[j], snaps'[j + 1], marks'[j], marks'[j + 1],
                           sts'[j], sts'[j + 1], trails'[j], roundNum)
    {
    }
  }

  /** The events of one round, in the shuffled order: each is applied to the
      agents, items, draw position and spread state the previous one left, as
      `EventApplied` describes, from the state before the round to the state
      after it. */
  method ShareEvents(env: Env, st: SpreadState, ghost base: Snapshot, events: seq<Event>, roundNum: int)
    returns (st': SpreadState, ghost snaps: seq<Snapshot>, ghost marks: seq<nat>,
             ghost sts: seq<SpreadState>, ghost trails: seq<Trail>)
    requires env.Valid() && Inv(env, st, base)
    requires forall e :: e in events ==> e.uid in st.Infected(e.newsType)
    modifies env.agents.Values, env.fakeItem, env.realItem, env.rng
    ensures env.rng.Valid() && Inv(env, st', base) && StateGrows(st, st', roundNum)
    ensures AllShared(SharedMap(env.agents), events)
    ensures EventsApplied(env, events, |events|, snaps, marks, sts, trails, roundNum)
    ensures snaps[0] == old(TakeSnapshot(env)) && snaps[|events|] == TakeSnapshot(env)
    ensures marks[0] == old(env.rng.drawn) && marks[|events|] == env.rng.drawn
    ensures sts[0] == st && sts[|events|] == st'
    ensures unchanged(env.g)
  {
    ghost var snap0, mark0 := TakeSnapshot(env), env.rng.drawn;
    st' := st;
    snaps, marks, sts, trails := [snap0], [mark0], [st], [];
    for i := 0 to |events|
      invariant env.rng.Valid() && Inv(env, st', base) && StateGrows(st, st', roundNum)
      invariant AllShared(SharedMap(env.agents), events[..i])
      invariant EventsApplied(env, events, i, snaps, marks, sts, trails, roundNum)
      invariant snaps[0] == snap0 && snaps[i] == TakeSnapshot(env)
      invariant marks[0] == mark0 && marks[i] == env.rng.drawn
      invariant sts[0] == st && sts[i] == st'
      invariant unchanged(env.g)
    {
      st', snaps, marks, sts, trails := ShareNext(env, st, st', base, events, i, snaps, marks, sts, trails, roundNum);
    }
    assert events[..|events|] == events;
  }

  /** The loop step of `ShareEvents`: event `events[i]` is applied as
      `EventApplied` describes, its sharer joins those that have shared, and
      the trace grows by one. */
  method ShareNext(env: Env, ghost st: SpreadState, cur: SpreadState, ghost base: Snapshot, events: seq<Event>, i: nat,
                   ghost snaps: seq<Snapshot>, ghost marks: seq<nat>, ghost sts: seq<SpreadState>,
                   ghost trails: seq<Trail>, roundNum: int)
    returns (cur': SpreadState, ghost snaps': seq<Snapshot>, ghost marks': seq<nat>,
             ghost sts': seq<SpreadState>, ghost trails': seq<Trail>)
    requires env.Valid() && i < |events| && Inv(env, cur, base) && StateGrows(st, cur, roundNum)
    requires forall e :: e in events ==> e.uid in st.Infected(e.newsType)
    requires AllShared(SharedMap(env.agents), events[..i])
    requires EventsApplied(env, events, i, snaps, marks, sts, trails, roundNum)
    requires snaps[i] == TakeSnapshot(env) && marks[i] == env.rng.drawn && sts[i] == cur
    modifies env.agents.Values, env.fakeItem, env.realItem, env.rng
    ensures env.rng.Valid() && Inv(env, cur', base) && StateGrows(st, cur', roundNum)
    ensures AllShared(SharedMap(env.agents), events[..i + 1])
    ensures EventsApplied(env, events, i + 1, snaps', marks', sts', trails', roundNum)
    ensures snaps' == snaps + [TakeSnapshot(env)] && marks' == marks + [env.rng.drawn] && sts' == sts + [cur']
    ensures unchanged(env.g)
  {
    ghost var before, d := TakeSnapshot(env), env.rng.drawn;
    ghost var tr;
    cur', tr := ShareOne(env, st, cur, base, events, i, roundNum);
    EventsAppliedStep(env, events, i, snaps, marks, sts, trails, roundNum, events[i], before, d, cur,
                      TakeSnapshot(env), env.rng.drawn, cur', tr);
    snaps', marks', sts', trails' := snaps + [TakeSnapshot(env)], marks + [env.rng.drawn], sts + [cur'], trails + [tr];
  }

  /** Event `events[i]` is applied as `EventApplied` describes, and its sharer
      joins those that have shared. */
  method ShareOne(env: Env, ghost st: SpreadState, cur: SpreadState, ghost base: Snapshot, events: seq<Event>, i: nat,
                  roundNum: int)
    returns (cur': SpreadState, ghost tr: Trail)
    requires env.Valid() && i < |events| && Inv(env, cur, base) && StateGrows(st, cur, roundNum)
    requires forall e :: e in events ==> e.uid in st.Infected(e.newsType)
    requires AllShared(SharedMap(env.agents), events[..i])
    modifies env.agents.Values, env.fakeItem, env.realItem, env.rng
    ensures env.rng.Valid() && Inv(env, cur', base) && StateGrows(st, cur', roundNum)
    ensures AllShared(SharedMap(env.agents), events[..i + 1])
    ensures EventApplied(env, events[i], old(TakeSnapshot(env)), TakeSnapshot(env), old(env.rng.drawn), env.rng.drawn,
                         cur, cur', tr, roundNum)
    ensures unchanged(env.g)
  {
    var e := events[i];
    GrowsInfected(st, cur, roundNum, events, i);
    ghost var shared := SharedMap(env.agents);
    cur', tr := ShareEvent(env, cur, base, e, roundNum);
    StateGrowsTrans(st, cur, cur', roundNum);
    AllSharedStep(shared, SharedMap(env.agents), events, i);
  }

  /** An event whose sharer was infected before the round is still infected
      once the state has grown. */
  lemma GrowsInfected(st: SpreadState, cur: SpreadState, roundNum: int, events: seq<Event>, i: nat)
    requires i < |events| && StateGrows(st, cur, roundNum)
    requires forall e :: e in events ==> e.uid in st.Infected(e.newsType)
    ensures events[i].uid in cur.Infected(events[i].newsType)
  {
    assert events[i] in events;
  }

  /** `random.shuffle(current_events)`: a permutation of the events, for which
      the shuffle consumes its draws, and no agent or item is touched. */
  method ShuffleEvents(env: Env, events: seq<Event>) returns (order: seq<Event>)
    requires env.rng.Valid()
    modifies env.rng
    ensures env.rng.Valid() && multiset(order) == multiset(events)
    ensures env.rng.drawn == old(env.rng.drawn) + ShuffleDraws(|events|)
    ensures TakeSnapshot(env) == old(TakeSnapshot(env))
  {
    order := env.rng.Shuffle(events);
  }

  /** `schedule.pop(round_num, [])` followed by `random.shuffle`: the round's
      events, in a shuffled order, each by an agent infected with its type. */
  method PopRound(env: Env, st: SpreadState, ghost base: Snapshot, roundNum: int)
    returns (popped: SpreadState, order: seq<Event>)
    requires env.Valid() && Inv(env, st, base)
    modifies env.rng
    ensures env.rng.Valid() && Inv(env, popped, base)
    ensures popped == st.(schedule := st.schedule - {roundNum})
    ensures multiset(order) == multiset(EventsAt(st.schedule, roundNum))
    ensures env.rng.drawn == old(env.rng.drawn) + ShuffleDraws(|EventsAt(st.schedule, roundNum)|)
    ensures TakeSnapshot(env) == old(TakeSnapshot(env))
    ensures forall e :: e in order ==> e.uid in popped.Infected(e.newsType)
  {
    var events := EventsAt(st.schedule, roundNum);
    popped := st.(schedule := st.schedule - {roundNum});
    ghost var now := TakeSnapshot(env);
    order := ShuffleEvents(env, events);
    ConsistentAfterPop(env, now, st, base, roundNum);
    forall e | e in order
      ensures e.uid in popped.Infected(e.newsType)
    {
      assert e in multiset(events);
    }
  }

  /** What happened in one round: the shuffled order of its events and, before
      each event and after the last, the snapshot, the draw position and the
      spread state, with each event's trail of exposures. */
  datatype RoundTrail = RoundTrail(order: seq<Event>, snaps: seq<Snapshot>, marks: seq<nat>,
                                   states: seq<SpreadState>, trails: seq<Trail>)

  /** Round `roundNum` took the spread state from `st` to `st'`, the snapshot
      from `before` to `after` and the draw position from `d` to `d'`: the
      round's events were popped from the schedule and shuffled, the shuffle
      consuming its draws; the events were then applied in the shuffled order,
      each as `EventApplied` describes; finally the infected counts were
      appended to the reach lists. */
  ghost predicate RoundApplied(env: Env, roundNum: int, st: SpreadState, st': SpreadState,
                               before: Snapshot, after: Snapshot, d: nat, d': nat, r: RoundTrail)
    reads env.g
  {
    var n := |r.order|;
    && multiset(r.order) == multiset(EventsAt(st.schedule, roundNum))
    && EventsApplied(env, r.order, n, r.snaps, r.marks, r.states, r.trails, roundNum)
    && r.snaps[0] == before && r.snaps[n] == after
    && r.marks[0] == d + ShuffleDraws(|EventsAt(st.schedule, roundNum)|) && r.marks[n] == d'
    && r.states[0] == st.(schedule := st.schedule - {roundNum})
    && st' == r.states[n].Recorded()
  }

  /** One round: the round's events are popped from the schedule, shuffled and
      processed in that order, and then each news type's infected count is
      appended to its reach list, as `RoundApplied` describes. Afterwards every
      popped event's sharer has shared, the round is gone from the schedule for
      good and earlier rounds are as they were. */
  method ProcessRound(env: Env, st: SpreadState, ghost base: Snapshot, roundNum: int)
    returns (st': SpreadState, ghost r: RoundTrail)
    requires env.Valid() && Inv(env, st, base)
    modifies env.agents.Values, env.fakeItem, env.realItem, env.rng
    ensures env.rng.Valid() && Inv(env, st', base)
    ensures RoundApplied(env, roundNum, st, st', old(TakeSnapshot(env)), TakeSnapshot(env),
                         old(env.rng.drawn), env.rng.drawn, r)
    ensures st.infectedFake <= st'.infectedFake && st.infectedReal <= st'.infectedReal
    ensures st.beliefRevisedCount <= st'.beliefRevisedCount
    ensures st'.fakeReach == st.fakeReach + [|st'.infectedFake|]
    ensures st'.realReach == st.realReach + [|st'.infectedReal|]
    ensures roundNum !in st'.schedule
    ensures forall k :: k < roundNum ==> (k in st'.schedule <==> k in st.schedule)
    ensures forall k :: k < roundNum ==> EventsAt(st'.schedule, k) == EventsAt(st.schedule, k)
    ensures forall e :: e in EventsAt(st.schedule, roundNum) ==>
      e.uid in env.agents && e.newsType in env.agents[e.uid].hasShared
    ensures unchanged(env.g)
  {
    var popped, order := PopRound(env, st, base, roundNum);
    ghost var snaps, marks, sts, trails;
    var done;
    done, snaps, marks, sts, trails := ShareEvents(env, popped, base, order, roundNum);
    forall e | e in EventsAt(st.schedule, roundNum)
      ensures e in order
    {
      assert e in multiset(order);
    }
    st' := done.Recorded();
    r := RoundTrail(order, snaps, marks, sts, trails);
    ConsistentAfterRecord(env, TakeSnapshot(env), done, base);
  }
}
