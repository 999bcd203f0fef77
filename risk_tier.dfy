/** The three-way risk rule used throughout the application: a level of
    70 or more is high, 40 or more medium, anything lower low. */
module RiskTier {
  datatype Tier = High | Medium | Low

  /** The tier a numeric risk level falls into; the boundaries 40 and 70
      belong to the higher tier, and no range check is made. */
  function Classify(level: real): Tier {
    if level >= 70.0 then High else if level >= 40.0 then Medium else Low
  }

  /** Severity order of the tiers: Low < Medium < High. */
  function Rank(t: Tier): nat {
    match t
    case Low => 0
    case Medium => 1
    case High => 2
  }

  lemma ClassifyThresholds(level: real)
    ensures Classify(level) == High <==> level >= 70.0
    ensures Classify(level) == Medium <==> 40.0 <= level < 70.0
    ensures Classify(level) == Low <==> level < 40.0
  {
  }

  /** A higher level never lands in a lower tier. */
  lemma ClassifyMonotone(a: real, b: real)
    requires a <= b
    ensures Rank(Classify(a)) <= Rank(Classify(b))
  {
  }
}
