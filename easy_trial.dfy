/**
 * `run_trial` and `normalized_objective` of Hardhaq_Optimization_Easy.py
 * with the simulation engine abstracted. Here the parameter pushes sit
 * outside any handler, a failed solve only sets the penalty, the metrics
 * are read whatever the solve did, and three threshold checks after the
 * objective can still override the score with the penalty.
 */
module EasyTrial {
  import opened Wrappers
  import opened ParameterMapper
  import opened Scoring

  /** The number of physical parameters a trial unpacks. */
  const ParamCount: nat := 10

  /** The largest offset that escapes the penalty. */
  const MaxOffset: real := 19.13

  /** The smallest trap depth that escapes the penalty. */
  const MinDepth: real := 0.00001

  /** The score once the solve check and the missing-metric check have run, before the threshold checks. */
  function ScoreBeforeChecks(engine: EngineOutcome, readings: Readings): real
    requires engine.Solved? && readings.Complete() ==>
      Defined(EasyConfig, readings.offset.value, readings.power.value)
  {
    if !engine.Solved? || !readings.Complete() then Penalty
    else Objective(EasyConfig, readings.depth.value, readings.offset.value, readings.power.value)
  }

  /** A metric is missing or outside its sanity bound, so the threshold checks penalise the trial. */
  predicate FailsChecks(readings: Readings) {
    readings.offset.None? || readings.offset.value > MaxOffset
    || readings.depth.None? || readings.depth.value < MinDepth
    || readings.power.None?
  }

  /** The objective is evaluated, and divides by zero, for these inputs. */
  predicate DividesByZero(engine: EngineOutcome, readings: Readings) {
    engine.Solved? && readings.Complete()
    && !Defined(EasyConfig, readings.offset.value, readings.power.value)
  }

  /**
   * What a call of `run_trial` does, as one function of its inputs.
   * Unpacking raises ValueError unless there are exactly ten parameters, a
   * raising push propagates, and so does the ZeroDivisionError of an
   * objective evaluated at offset or power equal to -1e-9; otherwise one
   * row is logged and the negated score returned.
   */
  function Trial(params: seq<real>, engine: EngineOutcome, readings: Readings): (r: TrialRun)
    ensures r.Finished? <==> |params| == ParamCount && !engine.PushRaised? && !DividesByZero(engine, readings)
    ensures r.Finished? ==> r.cost == -r.row.score && r.row.params == params && r.row.metrics == readings
    ensures r.Finished? ==>
      r.row.score == Penalty ||
      (engine.Solved? && readings.Complete() && !FailsChecks(readings) &&
       Defined(EasyConfig, readings.offset.value, readings.power.value) &&
       r.row.score == Objective(EasyConfig, readings.depth.value, readings.offset.value, readings.power.value))
  {
    if |params| != ParamCount || engine.PushRaised? || DividesByZero(engine, readings) then Raised
    else
      var score := if FailsChecks(readings) then Penalty else ScoreBeforeChecks(engine, readings);
      Finished(Row(params, readings, score), -score)
  }

  /**
   * `run_trial(params, model, writer, filename)`, step by step: unpack,
   * push, start the score at 0, set the penalty on a failed solve, read
   * the metrics, then apply the guarded overwrites of the score in the
   * source's order. `engine` and `readings` stand for what the engine
   * calls did; writing the row is the returned `Finished` value.
   */
  method RunTrial(params: seq<real>, engine: EngineOutcome, readings: Readings) returns (run: TrialRun)
    ensures run == Trial(params, engine, readings)
    ensures run.Finished? ==> run.cost == -run.row.score && run.row.params == params && run.row.metrics == readings
    ensures run.Finished? && engine.SolveRaised? ==> run.row.score == Penalty
    ensures run.Finished? && !readings.Complete() ==> run.row.score == Penalty
  {
    if |params| != ParamCount {
      // unpacking into ten names raises ValueError
      return Raised;
    }
    if engine.PushRaised? {
      // model.parameter is called outside any handler
      return Raised;
    }
    var score: real := 0.0;
    if engine.SolveRaised? {
      score := Penalty;
    }

    var depth, offset, power := readings.depth, readings.offset, readings.power;

    if score == Penalty {
    } else {
      if depth.None? || offset.None? || power.None? {
        score := Penalty;
      } else {
        if offset.value + Eps == 0.0 || power.value + Eps == 0.0 {
          // ZeroDivisionError, not caught
          return Raised;
        }
        score := Objective(EasyConfig, depth.value, offset.value, power.value);
      }
    }

    if offset.None? || offset.value > MaxOffset {
      score := Penalty;
    }
    if depth.None? || depth.value < MinDepth {
      score := Penalty;
    }
    if power.None? {
      score := Penalty;
    }

    return Finished(Row(params, readings, score), -score);
  }

  /** `normalized_objective(y, …)`: map the unit-cube point to physical units and run the trial there. */
  method NormalizedObjective(y: seq<real>, engine: EngineOutcome, readings: Readings) returns (run: TrialRun)
    ensures run == Trial(Denormalize(y, EasyBounds), engine, readings)
    ensures run.Finished? ==> |y| >= |EasyBounds| && run.row.params == Denormalize(y, EasyBounds)
  {
    var x := Denormalize(y, EasyBounds);
    run := RunTrial(x, engine, readings);
  }

  /** A failed solve gives the penalty, whatever metrics are read afterwards. */
  lemma SolveFailurePenalized(params: seq<real>, readings: Readings)
    requires |params| == ParamCount
    ensures Trial(params, SolveRaised, readings).Finished?
    ensures Trial(params, SolveRaised, readings).row.score == Penalty
    ensures Trial(params, SolveRaised, readings).cost == 1e6
  {
  }

  /** A missing metric gives the penalty, and a trial with one never raises past the pushes. */
  lemma MissingMetricPenalized(params: seq<real>, engine: EngineOutcome, readings: Readings)
    requires |params| == ParamCount && !engine.PushRaised? && !readings.Complete()
    ensures Trial(params, engine, readings).Finished?
    ensures Trial(params, engine, readings).row.score == Penalty
  {
  }

  /** An offset above 19.13 or a depth below 0.00001 gives the penalty even when the objective was computed. */
  lemma ThresholdsPenalize(params: seq<real>, readings: Readings)
    requires |params| == ParamCount && readings.Complete()
    requires readings.offset.value > MaxOffset || readings.depth.value < MinDepth
    requires Defined(EasyConfig, readings.offset.value, readings.power.value)
    ensures Trial(params, Solved, readings).Finished?
    ensures Trial(params, Solved, readings).row.score == Penalty
  {
  }

  /**
   * A solved trial whose readings pass the sanity bounds and give non-zero
   * denominators is scored by the objective with weights 1.0, 10.0, 0.8 and
   * targets 5.0, 0.001, 1000.0, and the trial returns its negation.
   */
  lemma PlausibleTrialScoresObjective(params: seq<real>, d: real, o: real, pw: real)
    requires |params| == ParamCount
    requires o <= MaxOffset && d >= MinDepth && Defined(EasyConfig, o, pw)
    ensures Trial(params, Solved, Readings(Some(d), Some(o), Some(pw))).Finished?
    ensures Trial(params, Solved, Readings(Some(d), Some(o), Some(pw))).row.score == Objective(EasyConfig, d, o, pw)
    ensures Trial(params, Solved, Readings(Some(d), Some(o), Some(pw))).cost == -Objective(EasyConfig, d, o, pw)
  {
  }

  /**
   * The trial scores something other than the penalty only for a solved
   * engine with three readings inside the sanity bounds, and then the
   * score is their objective.
   */
  lemma NonPenaltyMeansPlausible(params: seq<real>, engine: EngineOutcome, readings: Readings)
    requires Trial(params, engine, readings).Finished?
    requires Trial(params, engine, readings).row.score != Penalty
    ensures engine.Solved? && readings.Complete()
    ensures readings.offset.value <= MaxOffset && readings.depth.value >= MinDepth
    ensures Trial(params, engine, readings).row.score ==
      Objective(EasyConfig, readings.depth.value, readings.offset.value, readings.power.value)
  {
  }

  /**
   * A unit-cube point of the right length is evaluated at a physical point
   * inside the bounds table; a shorter one raises at the unpacking, and a
   * longer one is cut to ten components by `zip`.
   */
  lemma NormalizedPointInBounds(y: seq<real>, engine: EngineOutcome, readings: Readings)
    requires InUnitCube(y)
    ensures |Denormalize(y, EasyBounds)| == ParamCount <==> |y| >= ParamCount
    ensures WithinBounds(Denormalize(y, EasyBounds), EasyBounds)
    ensures |y| < ParamCount ==> Trial(Denormalize(y, EasyBounds), engine, readings) == Raised
  {
    EasyBoundsProper();
    DenormalizeInBounds(y, EasyBounds);
  }

  /** Starting from the normalised baseline, the first trial is run at the baseline itself. */
  lemma BaselineRoundTrip()
    ensures NonDegenerate(|EasyBaseline|, EasyBounds)
    ensures Denormalize(Normalize(EasyBaseline, EasyBounds), EasyBounds) == EasyBaseline
  {
    EasyBoundsProper();
    EasyBaselineInBounds();
    RoundTrips(EasyBaseline, EasyBounds);
  }
}
