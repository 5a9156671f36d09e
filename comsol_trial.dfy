/**
 * `run_trial` of Comsol_Optimize.py with the simulation engine abstracted:
 * the outcome of the parameter pushes and the solve, and what `try_eval`
 * gave for each metric, are inputs. The trial corrects the parameters with
 * the inscribed-sphere rule (never with a model, so endcap_thick is 0),
 * scores the solved trial with the weighted objective, and turns every
 * failure inside its guarded block into the penalty score.
 */
module ComsolTrial {
  import opened Wrappers
  import opened Inscribed
  import opened Scoring

  /** The metrics the row records: the readings when the engine solved, None otherwise (they are read only after a solve). */
  function LoggedMetrics(engine: EngineOutcome, readings: Readings): Readings {
    if engine.Solved? then readings else NoReadings
  }

  /**
   * The score of a trial: the objective when the engine solved, all three
   * metrics were read and no denominator is zero; the penalty otherwise
   * (a raised push or solve, a None metric in the arithmetic, or a
   * division by zero, all caught by the same handler).
   */
  function TrialScore(engine: EngineOutcome, readings: Readings): real {
    if engine.Solved? && readings.Complete()
      && Defined(ComsolConfig, readings.offset.value, readings.power.value)
    then Objective(ComsolConfig, readings.depth.value, readings.offset.value, readings.power.value)
    else Penalty
  }

  /**
   * What a call of `run_trial` does, as one function of its inputs. The
   * corrector raises IndexError on fewer than seven parameters, and
   * unpacking the corrected list into seven names raises ValueError on
   * more; every other path logs one row and returns the negated score.
   */
  function Trial(params: seq<real>, engine: EngineOutcome, readings: Readings, sqrt: real -> real): (r: TrialRun)
    requires IsSqrt(sqrt)
    ensures r.Finished? <==> |params| == |ParamOrder|
    ensures r.Finished? ==> r.cost == -r.row.score
    ensures r.Finished? ==>
      r.row.score == Penalty ||
      (engine.Solved? && readings.Complete() && Defined(ComsolConfig, readings.offset.value, readings.power.value) &&
       r.row.score == Objective(ComsolConfig, readings.depth.value, readings.offset.value, readings.power.value))
    ensures r.Finished? && !engine.Solved? ==> r.row.score == Penalty && r.row.metrics == NoReadings
    ensures r.Finished? && engine.Solved? ==> r.row.metrics == readings
  {
    if |params| != |ParamOrder| then Raised
    else
      var score := TrialScore(engine, readings);
      Finished(Row(Corrected(params, 0.0, sqrt), LoggedMetrics(engine, readings), score), -score)
  }

  /**
   * `run_trial(params, model, writer, f)`, step by step: correct, unpack,
   * start with no metrics, then overwrite the metrics and the score as the
   * guarded block proceeds. `engine` and `readings` stand for what the
   * engine calls did; writing the row is the returned `Finished` value.
   */
  method RunTrial(params: seq<real>, engine: EngineOutcome, readings: Readings, sqrt: real -> real)
    returns (run: TrialRun)
    requires IsSqrt(sqrt)
    ensures run == Trial(params, engine, readings, sqrt)
    ensures run.Finished? <==> |params| == |ParamOrder|
    ensures run.Finished? ==> run.cost == -run.row.score
    ensures run.Finished? && !engine.Solved? ==> run.row.score == Penalty && run.cost == 1e6
    ensures run.Finished? && !engine.Solved? ==> run.row.metrics == NoReadings
  {
    if |params| < |ParamOrder| {
      // the corrector indexes slots 3 to 6 of a shorter list
      return Raised;
    }
    var p, modified := EnforceInscribedConstraint(params, None, sqrt);
    if |p| != |ParamOrder| {
      // unpacking into seven names
      return Raised;
    }

    var depth: Option<real> := None;
    var offset: Option<real> := None;
    var power: Option<real> := None;
    var score: real;
    if engine.Solved? {
      depth, offset, power := readings.depth, readings.offset, readings.power;
      if depth.None? || offset.None? || power.None? {
        // arithmetic on None raises TypeError
        score := Penalty;
      } else if offset.value + Eps == 0.0 || power.value + Eps == 0.0 {
        // ZeroDivisionError
        score := Penalty;
      } else {
        score := Objective(ComsolConfig, depth.value, offset.value, power.value);
      }
    } else {
      // a push or the solve raised before any metric was read
      score := Penalty;
    }

    var row := Row(p, Readings(depth, offset, power), score);
    return Finished(row, -score);
  }

  /** A complete, well-defined reading of a solved trial is scored by the objective, and the cost is its negation. */
  lemma SolvedTrialScoresObjective(params: seq<real>, readings: Readings, sqrt: real -> real)
    requires IsSqrt(sqrt) && |params| == |ParamOrder| && readings.Complete()
    requires Defined(ComsolConfig, readings.offset.value, readings.power.value)
    ensures Trial(params, Solved, readings, sqrt).Finished?
    ensures Trial(params, Solved, readings, sqrt).row.metrics == readings
    ensures Trial(params, Solved, readings, sqrt).cost ==
      -Objective(ComsolConfig, readings.depth.value, readings.offset.value, readings.power.value)
  {
  }

  /** A missing metric forces the penalty: the trial costs 1e6 whatever the other metrics are. */
  lemma MissingMetricPenalized(params: seq<real>, engine: EngineOutcome, readings: Readings, sqrt: real -> real)
    requires IsSqrt(sqrt) && |params| == |ParamOrder| && !readings.Complete()
    ensures Trial(params, engine, readings, sqrt).row.score == Penalty
    ensures Trial(params, engine, readings, sqrt).cost == 1e6
  {
  }

  /**
   * The trial scores something other than the penalty only when the
   * engine solved and every metric was read, and then the score is the
   * objective of those metrics.
   */
  lemma NonPenaltyMeansObjective(params: seq<real>, engine: EngineOutcome, readings: Readings, sqrt: real -> real)
    requires IsSqrt(sqrt) && |params| == |ParamOrder|
    requires Trial(params, engine, readings, sqrt).row.score != Penalty
    ensures engine.Solved? && readings.Complete()
    ensures Defined(ComsolConfig, readings.offset.value, readings.power.value)
    ensures Trial(params, engine, readings, sqrt).row.score ==
      Objective(ComsolConfig, readings.depth.value, readings.offset.value, readings.power.value)
  {
  }

  /**
   * The row records the corrector's result for endcap_thick 0, since the
   * trial calls it without a model: the same seven values except
   * rod_spacing, rod_length and endcap_offset, which shrink together when
   * the geometry, with endcap_thick taken as 0, sticks out of the sphere.
   */
  lemma LoggedParamsCorrected(params: seq<real>, engine: EngineOutcome, readings: Readings, sqrt: real -> real, i: nat)
    requires IsSqrt(sqrt) && |params| == |ParamOrder| && i < |params|
    ensures Trial(params, engine, readings, sqrt).row.params == Corrected(params, 0.0, sqrt)
    ensures |Trial(params, engine, readings, sqrt).row.params| == |params|
    ensures !Adjusted(i) ==> Trial(params, engine, readings, sqrt).row.params[i] == params[i]
    ensures !GeometryOf(params, 0.0).Exceeds() ==> Trial(params, engine, readings, sqrt).row.params == params
  {
    CorrectedShape(params, 0.0, sqrt, i);
  }
}
