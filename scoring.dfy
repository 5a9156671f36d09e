/**
 * The weighted objective shared by both optimisation scripts, and the data
 * that a trial produces: the solve outcome, the three metrics read back from
 * the engine, and the logged row.
 */
module Scoring {
  import opened Wrappers
  import opened RealFacts

  /** The guard added to every denominator of the objective. */
  const Eps: real := 1e-9

  /** The penalty score a failed or implausible trial receives. */
  const Penalty: real := -1e6

  /** Static targets and weights of one script. */
  datatype Config = Config(
    targetDepth: real, targetOffset: real, targetPower: real,
    weightDepth: real, weightOffset: real, weightPower: real)

  /** Targets and weights of Comsol_Optimize.py. */
  const ComsolConfig: Config := Config(9.0, 0.005, 2000.0, 2.0, 200.0, 0.5)

  /** Targets and weights of Hardhaq_Optimization_Easy.py. */
  const EasyConfig: Config := Config(5.0, 0.001, 1000.0, 1.0, 10.0, 0.8)

  /** Every target is positive and every weight is positive. */
  predicate PositiveConfig(cfg: Config) {
    cfg.targetDepth > 0.0 && cfg.targetOffset > 0.0 && cfg.targetPower > 0.0 &&
    cfg.weightDepth > 0.0 && cfg.weightOffset > 0.0 && cfg.weightPower > 0.0
  }

  /** The targets and weights of Comsol_Optimize.py are all positive. */
  lemma ComsolConfigPositive()
    ensures PositiveConfig(ComsolConfig)
  {
  }

  /** The targets and weights of Hardhaq_Optimization_Easy.py are all positive. */
  lemma EasyConfigPositive()
    ensures PositiveConfig(EasyConfig)
  {
  }

  /** None of the three divisions of the objective divides by zero. */
  predicate Defined(cfg: Config, offset: real, power: real) {
    cfg.targetDepth + Eps != 0.0 && offset + Eps != 0.0 && power + Eps != 0.0
  }

  /**
   * The weighted sum of the three target-normalised ratios. With positive
   * targets and weights, a trap that is not inverted and an offset and a
   * power above the guard, every term rewards the trial and the score is
   * positive.
   */
  function Objective(cfg: Config, depth: real, offset: real, power: real): (r: real)
    requires Defined(cfg, offset, power)
    ensures PositiveConfig(cfg) && depth >= 0.0 && offset > -Eps && power > -Eps ==> r > 0.0
  {
    TermsPositive(cfg, depth, offset, power);
    cfg.weightDepth * (depth / (cfg.targetDepth + Eps))
    + cfg.weightOffset * ((cfg.targetOffset + Eps) / (offset + Eps))
    + cfg.weightPower * ((cfg.targetPower + Eps) / (power + Eps))
  }

  /** The three weighted terms of the objective are a non-negative one and two positive ones. */
  lemma TermsPositive(cfg: Config, depth: real, offset: real, power: real)
    requires Defined(cfg, offset, power)
    ensures PositiveConfig(cfg) && depth >= 0.0 && offset > -Eps && power > -Eps ==>
      cfg.weightDepth * (depth / (cfg.targetDepth + Eps)) >= 0.0 &&
      cfg.weightOffset * ((cfg.targetOffset + Eps) / (offset + Eps)) > 0.0 &&
      cfg.weightPower * ((cfg.targetPower + Eps) / (power + Eps)) > 0.0
  {
    if PositiveConfig(cfg) && depth >= 0.0 && offset > -Eps && power > -Eps {
      QuotientSigns(depth, cfg.targetDepth + Eps);
      QuotientSigns(cfg.targetOffset + Eps, offset + Eps);
      QuotientSigns(cfg.targetPower + Eps, power + Eps);
      MulNonneg(cfg.weightDepth, depth / (cfg.targetDepth + Eps));
      MulPos(cfg.weightOffset, (cfg.targetOffset + Eps) / (offset + Eps));
      MulPos(cfg.weightPower, (cfg.targetPower + Eps) / (power + Eps));
    }
  }

  /** Metrics above the guard never make a denominator zero. */
  lemma DefinedAboveGuard(cfg: Config, offset: real, power: real)
    requires PositiveConfig(cfg)
    requires offset > -Eps && power > -Eps
    ensures Defined(cfg, offset, power)
  {
  }

  /** For positive c and d and 0 < a < b, c / b < c / a (all scaled ratios shrink as the denominator grows). */
  lemma RatioDecreases(c: real, a: real, b: real)
    requires c > 0.0 && 0.0 < a < b
    ensures c / b < c / a
  {
    assert c / b * b == c;
    assert c / a * a == c;
    assert c / a * b > c / a * a;
  }

  /** The objective is strictly increasing in the trap depth. */
  lemma ObjectiveIncreasingInDepth(cfg: Config, d1: real, d2: real, offset: real, power: real)
    requires PositiveConfig(cfg) && Defined(cfg, offset, power)
    requires d1 < d2
    ensures Objective(cfg, d1, offset, power) < Objective(cfg, d2, offset, power)
  {
    var t := cfg.targetDepth + Eps;
    assert d1 / t < d2 / t by {
      assert d1 / t * t == d1;
      assert d2 / t * t == d2;
    }
    assert cfg.weightDepth * (d1 / t) < cfg.weightDepth * (d2 / t);
  }

  /** Above the guard the objective is strictly decreasing in the offset. */
  lemma ObjectiveDecreasingInOffset(cfg: Config, depth: real, o1: real, o2: real, power: real)
    requires PositiveConfig(cfg) && power + Eps != 0.0
    requires -Eps < o1 < o2
    ensures Defined(cfg, o1, power) && Defined(cfg, o2, power)
    ensures Objective(cfg, depth, o1, power) > Objective(cfg, depth, o2, power)
  {
    var c := cfg.targetOffset + Eps;
    RatioDecreases(c, o1 + Eps, o2 + Eps);
    assert cfg.weightOffset * (c / (o2 + Eps)) < cfg.weightOffset * (c / (o1 + Eps));
  }

  /** Above the guard the objective is strictly decreasing in the estimated power. */
  lemma ObjectiveDecreasingInPower(cfg: Config, depth: real, offset: real, p1: real, p2: real)
    requires PositiveConfig(cfg) && offset + Eps != 0.0
    requires -Eps < p1 < p2
    ensures Defined(cfg, offset, p1) && Defined(cfg, offset, p2)
    ensures Objective(cfg, depth, offset, p1) > Objective(cfg, depth, offset, p2)
  {
    var c := cfg.targetPower + Eps;
    RatioDecreases(c, p1 + Eps, p2 + Eps);
    assert cfg.weightPower * (c / (p2 + Eps)) < cfg.weightPower * (c / (p1 + Eps));
  }

  /**
   * How the calls into the simulation engine went: one of the parameter
   * pushes raised, the solve raised, or both returned.
   */
  datatype EngineOutcome = PushRaised | SolveRaised | Solved

  /** What `try_eval` gives for each metric: a real, or `None` when evaluation raised or produced nothing. */
  datatype Readings = Readings(depth: Option<real>, offset: Option<real>, power: Option<real>) {
    predicate Complete() {
      depth.Some? && offset.Some? && power.Some?
    }
  }

  /** The readings of a trial whose metrics were never read. */
  const NoReadings: Readings := Readings(None, None, None)

  /** One CSV record: the physical parameters, the metrics as read, and the final score. */
  datatype Row = Row(params: seq<real>, metrics: Readings, score: real)

  /** How a call to `run_trial` ends: it returns the cost handed to the minimiser after logging `row`, or an exception escapes it. */
  datatype TrialRun = Finished(row: Row, cost: real) | Raised
}
