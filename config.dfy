/** The simulator's parameter bundle: population and run limits, role
    proportions, per-role share-probability ranges, fact-checking and
    belief-revision rates, the two delay tables and the variant switches. */
module Config {

  /** The bounds `(low, high)` of a `numpy.random.uniform` draw, which lands in [low, high). */
  datatype Range = Range(low: real, high: real)

  /** The three influencer-experiment switches, as the `variant_config` dictionary. */
  datatype VariantFlags = VariantFlags(
    variantA: bool,  // influencer-controlled seeding
    variantB: bool,  // influencer delay boost
    variantC: bool   // influencer trust boost
  )

  // === Simulation control ===
  const NUM_AGENTS: nat := 1500
  const SEED_COUNT: nat := 10
  const MAX_ROUNDS: nat := 500

  // === Role proportions ===
  const PERCENT_INFLUENCERS: real := 0.025
  const PERCENT_SKEPTICAL: real := 0.57
  const PERCENT_FACT_CHECKERS: real := 0.30
  const PERCENT_SUSCEPTIBLE: real := 0.10
  const PERCENT_HIGHLY_SUSCEPTIBLE_RANGE: Range := Range(0.05, 0.10)
  const PERCENT_SUPER_SPREADER: real := 0.001

  // === Share probabilities, fake news ===
  const P_FAKE_FACT_CHECKER: Range := Range(0.05, 0.07)
  const P_FAKE_SUSCEPTIBLE: Range := Range(0.20, 0.30)
  const P_FAKE_HIGHLY_SUSCEPTIBLE: Range := Range(0.50, 0.70)
  const P_FAKE_SUPER_SPREADER: Range := Range(0.70, 1.0)
  const P_FAKE_NORMAL: Range := Range(0.11, 0.16)

  // === Share probabilities, real news ===
  const P_REAL_NORMAL: Range := Range(0.06, 0.09)

  // === Fact checking and belief revision ===
  const P_FACT_CHECK: real := 0.3
  const P_BELIEF_REVISION: real := 0.75

  // === Share delays: delay in rounds |-> probability ===
  const FAKE_DELAY_DISTRIBUTION: map<int, real> := map[1 := 0.85, 2 := 0.10, 3 := 0.05]
  const REAL_DELAY_DISTRIBUTION: map<int, real> := map[6 := 0.85, 12 := 0.10, 18 := 0.05]

  // === Influencer-experiment variants, all off by default ===
  const VARIANT_CONFIG: VariantFlags := VariantFlags(false, false, false)

  // === Network structure ===
  const NUM_COMMUNITIES: nat := 5

  /** A range whose draws are probabilities. */
  predicate IsProbabilityRange(r: Range) {
    0.0 <= r.low <= r.high <= 1.0
  }

  /** Every configured rate is a probability and every share range lies in [0, 1];
      a trial can always draw its seeds without replacement from the full population. */
  lemma ConfigurationIsWellFormed()
    ensures IsProbabilityRange(P_FAKE_FACT_CHECKER) && IsProbabilityRange(P_FAKE_SUSCEPTIBLE)
    ensures IsProbabilityRange(P_FAKE_HIGHLY_SUSCEPTIBLE) && IsProbabilityRange(P_FAKE_SUPER_SPREADER)
    ensures IsProbabilityRange(P_FAKE_NORMAL) && IsProbabilityRange(P_REAL_NORMAL)
    ensures 0.0 <= P_FACT_CHECK <= 1.0 && 0.0 <= P_BELIEF_REVISION <= 1.0
    ensures SEED_COUNT <= NUM_AGENTS
    ensures !VARIANT_CONFIG.variantA && !VARIANT_CONFIG.variantB && !VARIANT_CONFIG.variantC
  {
  }
}
