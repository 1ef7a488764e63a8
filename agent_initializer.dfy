/** Agents and their roles: the mutable per-node agent record, role
    assignment from the graph (influencers by degree, fact-checkers and
    susceptible users from a shuffled node list) and community-based edge
    trust. */
module Agents {
  import opened Common
  import opened Config
  import opened NewsItems
  import opened Randomness
  import opened SocialNetwork

  /** The susceptible sub-types `'super_spreader'`, `'highly_susceptible'`, `'normal'`. */
  datatype SusceptibleType = SuperSpreader | HighlySusceptible | NormalSusceptible

  /** The role fields of an agent, fixed once roles are assigned. */
  datatype Roles = Roles(
    isInfluencer: bool,
    isFactChecker: bool,
    isSusceptible: bool,
    susceptibleType: Option<SusceptibleType>,
    numberOfFriends: int)

  /** One node of the network with its role and its per-trial state. */
  class Agent {
    const id: int
    var isInfluencer: bool
    var isFactChecker: bool
    var isSusceptible: bool
    var susceptibleType: Option<SusceptibleType>
    var numberOfFriends: int
    /** The news type the agent currently believes, if any. */
    var beliefState: Option<NewsType>
    /** The news types whose `has_shared` flag is set. */
    var hasShared: set<NewsType>
    var pShareFake: real
    var pShareReal: real

    /** A fresh agent: no role, no belief, nothing shared, zero share probabilities. */
    constructor (uid: int)
      ensures id == uid
      ensures !isInfluencer && !isFactChecker && !isSusceptible
      ensures susceptibleType == None && numberOfFriends == 0
      ensures beliefState == None && hasShared == {}
      ensures pShareFake == 0.0 && pShareReal == 0.0
    {
      id := uid;
      isInfluencer := false;
      isFactChecker := false;
      isSusceptible := false;
      susceptibleType := None;
      numberOfFriends := 0;
      beliefState := None;
      hasShared := {};
      pShareFake := 0.0;
      pShareReal := 0.0;
    }

    function GetRoles(): Roles
      reads this
    {
      Roles(isInfluencer, isFactChecker, isSusceptible, susceptibleType, numberOfFriends)
    }

    /** Everything but the belief and the shared flags: what spreading never changes. */
    function GetTraits(): Traits
      reads this
    {
      Traits(GetRoles(), pShareFake, pShareReal)
    }

    /** `has_shared[t] = True`: only the flag for `t` is raised. */
    method MarkShared(t: NewsType)
      modifies this
      ensures hasShared == old(hasShared) + {t}
      ensures beliefState == old(beliefState) && GetTraits() == old(GetTraits())
    {
      hasShared := hasShared + {t};
    }
  }

  /** An agent's roles and share probabilities. */
  datatype Traits = Traits(roles: Roles, pShareFake: real, pShareReal: real)

  /** Distinct node ids own distinct agent records. */
  ghost predicate DistinctAgents(agents: map<int, Agent>) {
    forall i, j :: i in agents && j in agents && i != j ==> agents[i] != agents[j]
  }

  /** Python's `int()` on a real: truncation toward zero. */
  function Trunc(x: real): (n: int)
    ensures 0.0 <= x ==> 0 <= n && n as real <= x < n as real + 1.0
    ensures x < 0.0 ==> n <= 0 && x <= n as real
  {
    if x >= 0.0 then x.Floor else -((-x).Floor)
  }

  /** The role head-counts, all derived from the configured population size. */
  datatype RoleCounts = RoleCounts(influencers: nat, skeptical: nat, factCheckers: nat, susceptible: nat)

  /** Binary64 values in [512, 1024) are the multiples of 2^-43; this is 2^43. */
  const BINADE_512_SCALE: real := 8796093022208.0

  /** The binary64 value stored for `percent_skeptical = 0.57`: the multiple of
      2^-53 nearest to 0.57, which lies just below it. */
  const PERCENT_SKEPTICAL_STORED: real := 5134103575202365.0 / 9007199254740992.0

  /** A binary64 product whose exact value lies in [512, 1024): the exact value
      rounded to the nearest multiple of 2^-43. */
  function RoundInBinade512(x: real): real {
    (x * BINADE_512_SCALE + 0.5).Floor as real / BINADE_512_SCALE
  }

  /** `int(percent_skeptical * num_agents)` in binary64 arithmetic: the stored
      0.57 is within half a unit of the last place of 0.57, its product with
      1500 rounds to 854.9999999999999, and the truncation is 854, one less
      than exact arithmetic on 0.57 gives. */
  lemma SkepticalCountInBinary64()
    ensures PERCENT_SKEPTICAL - 1.0 / 18014398509481984.0 <= PERCENT_SKEPTICAL_STORED < PERCENT_SKEPTICAL
    ensures 512.0 <= PERCENT_SKEPTICAL_STORED * NUM_AGENTS as real < 1024.0
    ensures Trunc(RoundInBinade512(PERCENT_SKEPTICAL_STORED * NUM_AGENTS as real)) == 854
    ensures Trunc(PERCENT_SKEPTICAL * NUM_AGENTS as real) == 855
  {
  }

  /** The role head-counts of agent_initializer.py:76-79 for the configured
      1500 agents. `percent_skeptical * num_agents` is taken as binary64
      computes it; the other products are exact in reals and truncate to the
      same counts as in binary64. */
  function ComputeRoleCounts(percentFc: real): (c: RoleCounts)
    requires 0.0 <= percentFc
    ensures c.influencers == 37 && c.skeptical == 854 && c.susceptible == 150
    ensures c.factCheckers as real <= percentFc * 854.0 < c.factCheckers as real + 1.0
  {
    var skeptical := Trunc(RoundInBinade512(PERCENT_SKEPTICAL_STORED * NUM_AGENTS as real));
    RoleCounts(
      Trunc(PERCENT_INFLUENCERS * NUM_AGENTS as real),
      skeptical,
      Trunc(percentFc * skeptical as real),
      Trunc(PERCENT_SUSCEPTIBLE * NUM_AGENTS as real))
  }

  /** The fact-checker counts of the configured 30% and of the 70% and 90% of
      the fact-checker experiment: 256, 597 and 768 of the 854 skeptical users. */
  lemma FactCheckerCounts()
    ensures ComputeRoleCounts(0.3).factCheckers == 256
    ensures ComputeRoleCounts(0.7).factCheckers == 597
    ensures ComputeRoleCounts(0.9).factCheckers == 768
  {
    assert 256.0 <= 0.3 * 854.0 < 257.0;
    assert 597.0 <= 0.7 * 854.0 < 598.0;
    assert 768.0 <= 0.9 * 854.0 < 769.0;
  }

  /** Every element is a node and degrees never increase along the sequence. */
  ghost predicate DescendingDegree(g: Network, s: seq<int>) {
    && (forall x :: x in s ==> x in g.adj)
    && (forall i, j :: 0 <= i < j < |s| ==> g.Degree(s[i]) >= g.Degree(s[j]))
  }

  /** Putting a node whose degree is at least every degree in a descending
      sequence in front keeps it descending. */
  lemma ConsDescending(g: Network, a: int, s: seq<int>)
    requires a in g.adj && DescendingDegree(g, s)
    requires forall y :: y in s ==> g.Degree(y) <= g.Degree(a)
    ensures DescendingDegree(g, [a] + s)
  {
    var r := [a] + s;
    forall i, j | 0 <= i < j < |r|
      ensures g.Degree(r[i]) >= g.Degree(r[j])
    {
      assert r[j] == s[j - 1];
      if i > 0 {
        assert r[i] == s[i - 1];
      }
    }
  }

  /** Inserts `x` before the first element whose degree does not exceed its own. */
  function InsertByDegree(g: Network, x: int, s: seq<int>): (r: seq<int>)
    requires x in g.adj && DescendingDegree(g, s)
    ensures multiset(r) == multiset(s) + multiset{x}
    ensures DescendingDegree(g, r)
  {
    if s == [] then
      ConsDescending(g, x, s);
      [x]
    else if g.Degree(x) >= g.Degree(s[0]) then
      DescendingParts(g, s);
      ConsDescending(g, x, s);
      [x] + s
    else
      DescendingParts(g, s);
      var rest := InsertByDegree(g, x, s[1..]);
      InsertBehindHead(g, x, s, rest);
      [s[0]] + rest
  }

  /** Keeping the head of `s` in front of `rest`, the tail of `s` with `x`
      inserted, keeps the sequence descending when `x` ranks below the head. */
  lemma InsertBehindHead(g: Network, x: int, s: seq<int>, rest: seq<int>)
    requires x in g.adj && s != [] && DescendingDegree(g, s) && g.Degree(x) < g.Degree(s[0])
    requires multiset(rest) == multiset(s[1..]) + multiset{x} && DescendingDegree(g, rest)
    ensures multiset([s[0]] + rest) == multiset(s) + multiset{x}
    ensures DescendingDegree(g, [s[0]] + rest)
  {
    DescendingParts(g, s);
    forall y | y in rest
      ensures g.Degree(y) <= g.Degree(s[0])
    {
      assert y in multiset(rest);
      if y != x {
        assert y in multiset(s[1..]);
      }
    }
    ConsDescending(g, s[0], rest);
    assert s == [s[0]] + s[1..];
  }

  /** A descending sequence starts with its largest degree, and stays descending
      without its head. */
  lemma DescendingParts(g: Network, s: seq<int>)
    requires DescendingDegree(g, s) && s != []
    ensures DescendingDegree(g, s[1..])
    ensures forall y :: y in s ==> g.Degree(y) <= g.Degree(s[0])
  {
    var tail := s[1..];
    forall i, j | 0 <= i < j < |tail|
      ensures g.Degree(tail[i]) >= g.Degree(tail[j])
    {
      assert tail[i] == s[i + 1] && tail[j] == s[j + 1];
    }
    forall y | y in s
      ensures g.Degree(y) <= g.Degree(s[0])
    {
      var k :| 0 <= k < |s| && s[k] == y;
      if k > 0 {
        assert g.Degree(s[0]) >= g.Degree(s[k]);
      }
    }
  }

  /** `sorted(nodes, key=degree, reverse=True)`: the nodes by descending degree. */
  function SortedByDegree(g: Network, s: seq<int>): (r: seq<int>)
    requires forall x :: x in s ==> x in g.adj
    ensures multiset(r) == multiset(s)
    ensures DescendingDegree(g, r)
  {
    if s == [] then []
    else
      assert s == [s[0]] + s[1..];
      InsertByDegree(g, s[0], SortedByDegree(g, s[1..]))
  }

  /** The nodes of `s` of degree `d`, in their order in `s`. */
  function WithDegree(g: Network, s: seq<int>, d: nat): seq<int>
    requires forall x :: x in s ==> x in g.adj
  {
    if s == [] then []
    else (if g.Degree(s[0]) == d then [s[0]] else []) + WithDegree(g, s[1..], d)
  }

  /** `WithDegree` of a sequence with a node in front. */
  lemma WithDegreeCons(g: Network, a: int, t: seq<int>, d: nat)
    requires a in g.adj && forall x :: x in t ==> x in g.adj
    ensures WithDegree(g, [a] + t, d) == (if g.Degree(a) == d then [a] else []) + WithDegree(g, t, d)
  {
    assert ([a] + t)[1..] == t;
  }

  /** Inserting `x` puts it in front of every node of its own degree and leaves
      the order among every degree's nodes as it was. */
  lemma {:induction false} InsertKeepsTies(g: Network, x: int, s: seq<int>, d: nat)
    requires x in g.adj && DescendingDegree(g, s)
    ensures WithDegree(g, InsertByDegree(g, x, s), d)
         == (if g.Degree(x) == d then [x] else []) + WithDegree(g, s, d)
  {
    if s == [] {
      WithDegreeCons(g, x, s, d);
    } else if g.Degree(x) >= g.Degree(s[0]) {
      WithDegreeCons(g, x, s, d);
    } else {
      DescendingParts(g, s);
      var rest := InsertByDegree(g, x, s[1..]);
      assert InsertByDegree(g, x, s) == [s[0]] + rest;
      InsertKeepsTies(g, x, s[1..], d);
      InsertTail(g, x, s, rest);
      TiesBehindHead(g, x, s, rest, d);
    }
  }

  /** When `x` goes behind the head of `s`, the head keeps its place among the
      nodes of its degree, which `x`'s degree is not. */
  lemma TiesBehindHead(g: Network, x: int, s: seq<int>, rest: seq<int>, d: nat)
    requires x in g.adj && s != [] && s[0] in g.adj && g.Degree(x) < g.Degree(s[0])
    requires forall y :: y in s ==> y in g.adj
    requires forall y :: y in rest ==> y in g.adj
    requires WithDegree(g, rest, d) == (if g.Degree(x) == d then [x] else []) + WithDegree(g, s[1..], d)
    ensures WithDegree(g, [s[0]] + rest, d) == (if g.Degree(x) == d then [x] else []) + WithDegree(g, s, d)
  {
    WithDegreeCons(g, s[0], rest, d);
    assert s == [s[0]] + s[1..];
    WithDegreeCons(g, s[0], s[1..], d);
  }

  /** Every node of `rest`, the tail of `s` with `x` inserted, is a node. */
  lemma InsertTail(g: Network, x: int, s: seq<int>, rest: seq<int>)
    requires x in g.adj && s != [] && DescendingDegree(g, s)
    requires multiset(rest) == multiset(s[1..]) + multiset{x}
    ensures forall y :: y in rest ==> y in g.adj
  {
    forall y | y in rest
      ensures y in g.adj
    {
      assert y in multiset(rest);
      if y != x {
        assert y in multiset(s[1..]);
        assert y in s[1..];
      }
    }
  }

  /** `sorted(..., reverse=True)` is stable: the nodes of each degree keep the
      order they had in the input. */
  lemma {:induction false} SortedByDegreeStable(g: Network, s: seq<int>, d: nat)
    requires forall x :: x in s ==> x in g.adj
    ensures WithDegree(g, SortedByDegree(g, s), d) == WithDegree(g, s, d)
  {
    if s != [] {
      assert s == [s[0]] + s[1..];
      var sortedTail := SortedByDegree(g, s[1..]);
      SortedByDegreeStable(g, s[1..], d);
      InsertKeepsTies(g, s[0], sortedTail, d);
    }
  }

  /** The first `k` nodes of a descending-degree order have degrees no smaller
      than any node after them. */
  lemma TopDegreesFirst(g: Network, s: seq<int>, k: nat, u: int, v: int)
    requires DescendingDegree(g, s)
    requires u in Slice(s, 0, k) && v in s && v !in Slice(s, 0, k)
    ensures g.Degree(u) >= g.Degree(v)
  {
    var top := Slice(s, 0, k);
    var i :| 0 <= i < |top| && top[i] == u;
    var j :| 0 <= j < |s| && s[j] == v;
    assert forall m :: 0 <= m < |top| ==> top[m] == s[m];
    assert j >= |top|;
    assert s[i] == u;
  }

  /** The role groups `assign_roles` computes before creating the agents. */
  datatype RoleGroups = RoleGroups(
    influencers: set<int>,
    factCheckers: set<int>,
    susceptibles: set<int>,
    superSpreaders: set<int>,
    highlySusceptible: set<int>)

  /** The susceptible sub-type of node `n` given the role groups. */
  function SubtypeOf(n: int, r: RoleGroups): Option<SusceptibleType> {
    if n !in r.susceptibles then None
    else if n in r.superSpreaders then Some(SuperSpreader)
    else if n in r.highlySusceptible then Some(HighlySusceptible)
    else Some(NormalSusceptible)
  }

  /** Agent `a` is the record for node `n`: its friend count is the node's degree,
      its role flags are membership in the groups, and its trial state is fresh. */
  ghost predicate HasRoles(a: Agent, n: int, g: Network, r: RoleGroups)
    reads a
    requires n in g.adj
  {
    && a.id == n
    && a.numberOfFriends == |g.adj[n]|
    && a.beliefState == None && a.hasShared == {}
    && a.pShareFake == 0.0 && a.pShareReal == 0.0
    && (a.isInfluencer <==> n in r.influencers)
    && (a.isFactChecker <==> n in r.factCheckers)
    && (a.isSusceptible <==> n in r.susceptibles)
    && a.susceptibleType == SubtypeOf(n, r)
  }

  /** One iteration of the agent-creation loop of `assign_roles`: a fresh agent
      for `node` whose role flags are membership in the groups. */
  method NewAgent(g: Network, node: int, r: RoleGroups) returns (agent: Agent)
    requires node in g.adj
    ensures fresh(agent) && HasRoles(agent, node, g, r)
  {
    agent := new Agent(node);
    agent.isInfluencer := node in r.influencers;
    agent.isFactChecker := node in r.factCheckers;
    agent.isSusceptible := node in r.susceptibles;
    agent.numberOfFriends := |g.adj[node]|;
    if agent.isSusceptible {
      if node in r.superSpreaders {
        agent.susceptibleType := Some(SuperSpreader);
      } else if node in r.highlySusceptible {
        agent.susceptibleType := Some(HighlySusceptible);
      } else {
        agent.susceptibleType := Some(NormalSusceptible);
      }
    }
  }

  /** The agent-creation loop of `assign_roles`: one fresh agent per node. */
  method BuildAgents(g: Network, r: RoleGroups) returns (agents: map<int, Agent>)
    requires g.Valid()
    ensures agents.Keys == set n | n in g.nodes
    ensures DistinctAgents(agents)
    ensures forall n :: n in agents ==> fresh(agents[n])
    ensures forall n :: n in agents ==> n in g.adj && HasRoles(agents[n], n, g, r)
  {
    agents := map[];
    for i := 0 to |g.nodes|
      invariant agents.Keys == set n | n in g.nodes[..i]
      invariant DistinctAgents(agents)
      invariant forall n :: n in agents ==> fresh(agents[n])
      invariant forall n :: n in agents ==> n in g.adj && HasRoles(agents[n], n, g, r)
    {
      var node := g.nodes[i];
      var agent := NewAgent(g, node, r);
      assert g.nodes[..i + 1] == g.nodes[..i] + [node];
      agents := agents[node := agent];
    }
    assert g.nodes[..|g.nodes|] == g.nodes;
  }

  /** The susceptible sub-groups of `assign_roles`: the pool is shuffled, its first
      entry is the super-spreader and the next `highlyCount` entries, a number drawn
      between 7 and 15 (5% and 10% of 150, truncated), are highly susceptible. */
  method SplitSusceptible(susceptiblePool: seq<int>, numSusceptible: nat, rng: Random)
    returns (pool: seq<int>, superSpreaders: set<int>, highly: set<int>, ghost highlyCount: nat)
    requires rng.Valid() && numSusceptible == 150
    modifies rng
    ensures rng.Valid()
    ensures multiset(pool) == multiset(susceptiblePool)
    ensures superSpreaders == Elements(Slice(pool, 0, 1))
    ensures 7 <= highlyCount <= 15
    ensures highly == Elements(Slice(pool, 1, 1 + highlyCount))
  {
    var numSuperSpreaders := Max(1, Trunc(PERCENT_SUPER_SPREADER * numSusceptible as real));
    assert numSuperSpreaders == 1;
    var numHighlySusceptible := rng.RandInt(
      Trunc(PERCENT_HIGHLY_SUSCEPTIBLE_RANGE.low * numSusceptible as real),
      Trunc(PERCENT_HIGHLY_SUSCEPTIBLE_RANGE.high * numSusceptible as real));
    highlyCount := numHighlySusceptible;
    pool := rng.Shuffle(susceptiblePool);
    var superSlice := Slice(pool, 0, numSuperSpreaders);
    superSpreaders := Elements(superSlice);
    var highlySlice := Slice(pool, numSuperSpreaders, numSuperSpreaders + numHighlySusceptible);
    highly := Elements(highlySlice);
  }

  /** `assign_roles`: one fresh agent per node, with roles given by `groups`.
      Influencers are the first `influencers` nodes by descending degree; after
      shuffling the node list (`order`), fact-checkers are its first `factCheckers`
      entries and susceptible users the next `susceptible` ones; that pool is shuffled
      again (`pool`) and cut into one super-spreader, `highlyCount` highly
      susceptible users, and the rest. */
  method AssignRoles(g: Network, percentFc: real, rng: Random)
    returns (agents: map<int, Agent>, ghost groups: RoleGroups, ghost order: seq<int>,
             ghost pool: seq<int>, ghost highlyCount: nat)
    requires g.Valid() && rng.Valid() && 0.0 <= percentFc
    modifies rng
    ensures rng.Valid()
    ensures agents.Keys == set n | n in g.nodes
    ensures DistinctAgents(agents)
    ensures forall n :: n in agents ==> fresh(agents[n])
    ensures forall n :: n in agents ==> n in g.adj && HasRoles(agents[n], n, g, groups)
    ensures var c := ComputeRoleCounts(percentFc);
      && groups.influencers == Elements(Slice(SortedByDegree(g, g.nodes), 0, c.influencers))
      && |groups.influencers| == Min(c.influencers, |g.nodes|)
      && multiset(order) == multiset(g.nodes)
      && groups.factCheckers == Elements(Slice(order, 0, c.factCheckers))
      && multiset(pool) == multiset(Slice(order, c.factCheckers, c.factCheckers + c.susceptible))
      && groups.susceptibles == Elements(pool)
    ensures forall u, v :: u in groups.influencers && v in agents && v !in groups.influencers ==>
      u in g.adj && g.Degree(u) >= g.Degree(v)
    ensures groups.factCheckers !! groups.susceptibles
    ensures groups.superSpreaders == Elements(Slice(pool, 0, 1))
    ensures groups.superSpreaders <= groups.susceptibles
    ensures 7 <= highlyCount <= 15
    ensures groups.highlySusceptible == Elements(Slice(pool, 1, 1 + highlyCount))
  {
    var c := ComputeRoleCounts(percentFc);

    // Influencers are the highest-degree nodes.
    var sortedNodes := SortedByDegree(g, g.nodes);
    SubMultisetNoDup(g.nodes, sortedNodes);
    var topNodes := Slice(sortedNodes, 0, c.influencers);
    var influencers := Elements(topNodes);

    // Shuffle all nodes for the other roles.
    var shuffled := rng.Shuffle(sortedNodes);
    order := shuffled;
    SubMultisetNoDup(g.nodes, shuffled);
    var checkerSlice := Slice(shuffled, 0, c.factCheckers);
    var factCheckers := Elements(checkerSlice);
    var susceptiblePool := Slice(shuffled, c.factCheckers, c.factCheckers + c.susceptible);
    SlicesDisjoint(shuffled, 0, c.factCheckers, c.factCheckers, c.factCheckers + c.susceptible);

    // Susceptible sub-groups.
    var reshuffled, superSpreaders, highlySusceptible, count := SplitSusceptible(susceptiblePool, c.susceptible, rng);
    pool := reshuffled;
    highlyCount := count;
    var susceptibles := Elements(reshuffled);
    SameElements(reshuffled, susceptiblePool);

    var roleGroups := RoleGroups(influencers, factCheckers, susceptibles, superSpreaders, highlySusceptible);
    groups := roleGroups;
    agents := BuildAgents(g, roleGroups);

    // Influencer head-count and their top degrees.
    SliceNoDup(sortedNodes, 0, c.influencers);
    NoDupCard(topNodes);
    forall u, v | u in influencers && v in agents && v !in influencers
      ensures u in g.adj && g.Degree(u) >= g.Degree(v)
    {
      assert u in multiset(sortedNodes);
      assert v in multiset(sortedNodes);
      TopDegreesFirst(g, sortedNodes, c.influencers, u, v);
    }
  }

  /** Trust band of an edge: intra-community edges draw from [0.8, 1.0),
      inter-community edges from [0.1, 0.5). */
  ghost predicate InTrustBand(labels: map<int, nat>, u: int, v: int, t: real)
    requires u in labels && v in labels
  {
    if labels[u] == labels[v] then 0.8 <= t < 1.0 else 0.1 <= t < 0.5
  }

  /** Edge `e` carries one trust value, in its band, under both orientations. */
  ghost predicate EdgeTrusted(trust: map<(int, int), real>, labels: map<int, nat>, e: (int, int))
    requires e.0 in labels && e.1 in labels
  {
    && e in trust && (e.1, e.0) in trust
    && trust[(e.1, e.0)] == trust[e]
    && InTrustBand(labels, e.0, e.1, trust[e])
  }

  /** `p` is one orientation of a listed edge. */
  ghost predicate OnEdge(edges: seq<(int, int)>, p: (int, int)) {
    p in edges || (p.1, p.0) in edges
  }

  /** Writing a banded trust on both orientations of one edge keeps every other
      edge's trust consistent (a repeated or reversed edge is simply rewritten). */
  lemma TrustUpdateKeeps(trust: map<(int, int), real>, labels: map<int, nat>, e: (int, int),
                         u: int, v: int, t: real)
    requires e.0 in labels && e.1 in labels && u in labels && v in labels
    requires EdgeTrusted(trust, labels, e) && InTrustBand(labels, u, v, t)
    ensures EdgeTrusted(trust[(u, v) := t][(v, u) := t], labels, e)
  {
  }

  /** The labelling loop of `assign_trust_levels`: the node at enumeration index
      `i` belongs to community `i % numCommunities`. */
  method CommunityLabels(nodes: seq<int>, numCommunities: nat) returns (labels: map<int, nat>)
    requires NoDup(nodes) && 0 < numCommunities
    ensures labels.Keys == set n | n in nodes
    ensures forall i :: 0 <= i < |nodes| ==> labels[nodes[i]] == i % numCommunities
    ensures forall n :: n in labels ==> labels[n] < numCommunities
  {
    labels := map[];
    for i := 0 to |nodes|
      invariant labels.Keys == set n | n in nodes[..i]
      invariant forall j :: 0 <= j < i ==> labels[nodes[j]] == j % numCommunities
      invariant forall n :: n in labels ==> labels[n] < numCommunities
    {
      assert nodes[..i + 1] == nodes[..i] + [nodes[i]];
      labels := labels[nodes[i] := i % numCommunities];
    }
    assert nodes[..|nodes|] == nodes;
  }

  /** One step of the trust loop: writing a banded trust on both orientations of
      edge `k` extends both loop invariants from `edges[..k]` to `edges[..k + 1]`. */
  lemma TrustStep(start: map<(int, int), real>, before: map<(int, int), real>, labels: map<int, nat>,
                  edges: seq<(int, int)>, k: nat, t: real)
    requires k < |edges| && forall e :: e in edges ==> e.0 in labels && e.1 in labels
    requires forall j :: 0 <= j < k ==> EdgeTrusted(before, labels, edges[j])
    requires forall p :: !OnEdge(edges[..k], p) ==>
      (p in before <==> p in start) && (p in before ==> before[p] == start[p])
    requires InTrustBand(labels, edges[k].0, edges[k].1, t)
    ensures var after := before[edges[k] := t][(edges[k].1, edges[k].0) := t];
      && (forall j :: 0 <= j < k + 1 ==> EdgeTrusted(after, labels, edges[j]))
      && (forall p :: !OnEdge(edges[..k + 1], p) ==>
            (p in after <==> p in start) && (p in after ==> after[p] == start[p]))
  {
    var (u, v) := edges[k];
    assert edges[k] in edges;
    forall j | 0 <= j < k
      ensures EdgeTrusted(before[(u, v) := t][(v, u) := t], labels, edges[j])
    {
      assert edges[j] in edges;
      TrustUpdateKeeps(before, labels, edges[j], u, v, t);
    }
    assert edges[..k + 1] == edges[..k] + [(u, v)];
  }

  /** The edge loop of `assign_trust_levels`: every edge gets a trust drawn from
      its band, shared by both orientations; trust on any pair that is not an
      edge is untouched. */
  method TrustEdges(g: Network, labels: map<int, nat>, rng: Random)
    requires rng.Valid() && forall e :: e in g.edges ==> e.0 in labels && e.1 in labels
    modifies g, rng
    ensures rng.Valid()
    ensures forall j :: 0 <= j < |g.edges| ==> EdgeTrusted(g.trust, labels, g.edges[j])
    ensures forall p :: !OnEdge(g.edges, p) ==>
      (p in g.trust <==> p in old(g.trust)) && (p in g.trust ==> g.trust[p] == old(g.trust)[p])
  {
    for k := 0 to |g.edges|
      invariant rng.Valid()
      invariant forall j :: 0 <= j < k ==> EdgeTrusted(g.trust, labels, g.edges[j])
      invariant forall p :: !OnEdge(g.edges[..k], p) ==>
        (p in g.trust <==> p in old(g.trust)) && (p in g.trust ==> g.trust[p] == old(g.trust)[p])
    {
      var (u, v) := g.edges[k];
      assert g.edges[k] in g.edges;
      var t: real;
      if labels[u] == labels[v] {
        t := rng.Uniform(Range(0.8, 1.0));
      } else {
        t := rng.Uniform(Range(0.1, 0.5));
      }
      TrustStep(old(g.trust), g.trust, labels, g.edges, k, t);
      g.trust := g.trust[(u, v) := t][(v, u) := t];
    }
    assert g.edges[..|g.edges|] == g.edges;
  }

  /** `assign_trust_levels`: nodes are labelled with communities round-robin, and
      every edge gets a trust drawn from its band, shared by both orientations.
      Trust on any pair that is not an edge is untouched. */
  method AssignTrustLevels(g: Network, numCommunities: nat, rng: Random) returns (labels: map<int, nat>)
    requires g.Valid() && rng.Valid() && 0 < numCommunities
    modifies g, rng
    ensures rng.Valid()
    ensures labels.Keys == set n | n in g.nodes
    ensures forall i :: 0 <= i < |g.nodes| ==> labels[g.nodes[i]] == i % numCommunities
    ensures forall e :: e in g.edges ==> e.0 in labels && e.1 in labels && EdgeTrusted(g.trust, labels, e)
    ensures forall u, v :: u in g.adj && v in g.adj[u] ==>
      u in labels && v in labels && (u, v) in g.trust && InTrustBand(labels, u, v, g.EdgeTrust(u, v))
    ensures forall p :: !OnEdge(g.edges, p) ==>
      (p in g.trust <==> p in old(g.trust)) && (p in g.trust ==> g.trust[p] == old(g.trust)[p])
  {
    labels := CommunityLabels(g.nodes, numCommunities);
    assert forall e :: e in g.edges ==> e.0 in labels && e.1 in labels;
    TrustEdges(g, labels, rng);
    forall e | e in g.edges
      ensures EdgeTrusted(g.trust, labels, e)
    {
      var j :| 0 <= j < |g.edges| && g.edges[j] == e;
    }
    forall u, v | u in g.adj && v in g.adj[u]
      ensures u in labels && v in labels && (u, v) in g.trust && InTrustBand(labels, u, v, g.EdgeTrust(u, v))
    {
      if (u, v) !in g.edges {
        assert EdgeTrusted(g.trust, labels, (v, u));
      }
    }
  }
}
