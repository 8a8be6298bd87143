/** The training engine (App.tsx): one step of the perceptron learning rule,
    the simulation object whose fields are the component's state hooks, and
    the invariants the engine keeps over its history. */
module App {
  import opened Types
  import opened Constants
  import opened CalculationTrace

  /** Weighted sum of the inputs plus the bias. */
  function WeightedSum(w: Weights, x1: Bit, x2: Bit): real
  {
    (x1 as real) * w.w1 + (x2 as real) * w.w2 + w.b
  }

  /** Threshold activation: predicts 1 exactly when the sum is not negative. */
  function StepActivation(z: real): Bit
  {
    if z >= 0.0 then 1 else 0
  }

  /** Delta rule: each weight moves by rate * error * its input, the bias by
      rate * error. */
  function DeltaRule(w: Weights, rate: real, error: int, x1: Bit, x2: Bit): Weights
  {
    Weights(w.w1 + rate * (error as real) * (x1 as real),
            w.w2 + rate * (error as real) * (x2 as real),
            w.b + rate * (error as real))
  }

  /** The parameter record between steps: the next row is a valid index,
      epochs count from 1, and the errors counted in the current epoch are no
      more than the rows processed in it. */
  ghost predicate ValidState(s: PerceptronState)
  {
    && 0 <= s.currentStep < RowCount
    && s.epoch >= 1
    && 0 <= s.totalErrorsInEpoch <= s.currentStep
  }

  /** A history record as a step makes it: the row at its step, the sum over
      the weights before the step, the threshold prediction, the error, the
      update flag, and the new weights given by the delta rule exactly when
      the error is nonzero. */
  ghost predicate ProducedByStep(e: HistoryEntry)
  {
    0 <= e.step < RowCount &&
    var row := DefaultAndGateData()[e.step];
    && e.x1 == row.x1 && e.x2 == row.x2 && e.yActual == row.y
    && e.z == WeightedSum(e.OldWeights(), e.x1, e.x2)
    && e.yPredicted == StepActivation(e.z)
    && e.error == e.yActual - e.yPredicted
    && e.weightsUpdated == (e.error != 0)
    && e.learningRate.Some?
    && e.NewWeights()
       == if e.weightsUpdated then DeltaRule(e.OldWeights(), e.learningRate.value, e.error, e.x1, e.x2)
          else e.OldWeights()
  }

  /** What one step that is not refused produces: the next parameter record,
      the history record, the single-step detail, and whether the step
      completed an error-free epoch. */
  datatype StepResult = StepResult(
    next: PerceptronState,
    entry: HistoryEntry,
    trace: CalculationTraceType,
    converged: bool)

  /** One step on the row at `currentStep`. The epoch is incremented on every
      wrap to row 0, also when that wrap is the convergence. */
  function Transition(s: PerceptronState): (r: StepResult)
    requires 0 <= s.currentStep < |DefaultAndGateData()|
    ensures r.entry.epoch == s.epoch && r.entry.step == s.currentStep
    ensures r.entry.OldWeights() == s.weights && r.entry.NewWeights() == r.next.weights
    ensures r.entry.learningRate == Some(s.learningRate)
    ensures r.entry.yPredicted == 1 <==> r.entry.z >= 0.0
    ensures r.entry.error in {-1, 0, 1}
    ensures r.entry.weightsUpdated <==> r.entry.error != 0
    ensures r.entry.error == 0 ==> r.next.weights == s.weights
    ensures r.next.currentStep == (s.currentStep + 1) % |DefaultAndGateData()|
    ensures r.next.learningRate == s.learningRate
    ensures r.next.currentStep == 0 ==>
      && r.next.epoch == s.epoch + 1
      && r.next.totalErrorsInEpoch == 0
      && (r.converged <==> s.totalErrorsInEpoch + (if r.entry.error != 0 then 1 else 0) == 0)
    ensures r.next.currentStep != 0 ==>
      && r.next.epoch == s.epoch
      && !r.converged
      && r.next.totalErrorsInEpoch == s.totalErrorsInEpoch + (if r.entry.error != 0 then 1 else 0)
    ensures ValidState(s) ==> ValidState(r.next)
  {
    var row := DefaultAndGateData()[s.currentStep];
    var z := WeightedSum(s.weights, row.x1, row.x2);
    var yPredicted := StepActivation(z);
    var error := row.y - yPredicted;
    var updated := error != 0;
    var newWeights := if updated then DeltaRule(s.weights, s.learningRate, error, row.x1, row.x2) else s.weights;
    var errors := s.totalErrorsInEpoch + (if updated then 1 else 0);
    var nextStep := (s.currentStep + 1) % |DefaultAndGateData()|;
    var wrapped := nextStep == 0;
    assert wrapped ==> s.currentStep == |DefaultAndGateData()| - 1;
    var trace := CalculationTraceType(
      row.x1, row.x2, row.y, z, yPredicted, error,
      s.weights.w1, s.weights.w2, s.weights.b,
      newWeights.w1, newWeights.w2, newWeights.b,
      Some(s.learningRate));
    var entry := HistoryEntry(
      s.epoch, s.currentStep,
      row.x1, row.x2, row.y, z, yPredicted, error,
      newWeights.w1, newWeights.w2, newWeights.b,
      s.weights.w1, s.weights.w2, s.weights.b,
      updated,
      Some(s.learningRate));
    StepResult(
      PerceptronState(newWeights,
                      if wrapped then s.epoch + 1 else s.epoch,
                      nextStep,
                      if wrapped then 0 else errors,
                      s.learningRate),
      entry,
      trace,
      wrapped && errors == 0 && s.currentStep == |DefaultAndGateData()| - 1)
  }

  /** The arithmetic of one step: the record's sum is the weighted sum over
      the weights before the step, and when the prediction was wrong the new
      weights are those of the delta rule at the current rate; the record as
      a whole is one a step makes. */
  lemma StepFollowsDeltaRule(s: PerceptronState)
    requires 0 <= s.currentStep < |DefaultAndGateData()|
    ensures ProducedByStep(Transition(s).entry)
    ensures Transition(s).entry.z == WeightedSum(s.weights, Transition(s).entry.x1, Transition(s).entry.x2)
    ensures Transition(s).entry.error != 0 ==>
      Transition(s).next.weights
      == DeltaRule(s.weights, s.learningRate, Transition(s).entry.error, Transition(s).entry.x1, Transition(s).entry.x2)
  {
  }

  /** The detail view kept as the last calculation and the one the log
      derives from the step's history record are the same value. */
  lemma TraceMatchesEntry(s: PerceptronState)
    requires 0 <= s.currentStep < |DefaultAndGateData()|
    ensures MapHistoryToTrace(Transition(s).entry) == Transition(s).trace
  {
  }

  /** The history record literal as App.tsx builds it: it has no
      `learningRate` property, although the record type declares one. */
  function EntryAsWritten(s: PerceptronState): (e: HistoryEntry)
    requires 0 <= s.currentStep < |DefaultAndGateData()|
    ensures e.learningRate == None
    ensures e.(learningRate := Transition(s).entry.learningRate) == Transition(s).entry
  {
    Transition(s).entry.(learningRate := None)
  }

  /** The very first step from the initial state has an error, so the log
      attaches the weight-adjustment detail to its row; with the record as
      written, that detail has no learning rate to show, while the last
      calculation of the same step has rate 1. */
  lemma FirstLoggedDetailLacksRate()
    ensures var e := EntryAsWritten(InitialState());
      && ShowsAdjustmentDetail(e)
      && MapHistoryToTrace(e).learningRate == None
      && Transition(InitialState()).trace.learningRate == Some(1.0)
  {
  }

  /** Up to `n` calls of step from `s`; once converged every further call is
      refused and changes nothing. */
  function Run(s: PerceptronState, converged: bool, n: nat): (r: (PerceptronState, bool))
    requires ValidState(s)
    ensures ValidState(r.0)
    ensures converged ==> r == (s, converged)
    ensures r.0.learningRate == s.learningRate
    decreases n
  {
    if converged || n == 0 then (s, converged)
    else
      var t := Transition(s);
      Run(t.next, t.converged, n - 1)
  }

  /** `s` is a state between steps and steps to `t` without converging. */
  ghost predicate Moves(s: PerceptronState, t: PerceptronState)
  {
    ValidState(s) && Transition(s).next == t && !Transition(s).converged
  }

  /** A step that does not converge moves a run on to the next state. */
  lemma RunStep(s: PerceptronState, t: PerceptronState, n: nat)
    requires Moves(s, t)
    ensures ValidState(t)
    ensures Run(s, false, n + 1) == Run(t, false, n)
  {
  }

  /** A state of the AND-gate run at rate 1. */
  function AtRateOne(w1: real, w2: real, b: real, epoch: int, step: int, errors: int): PerceptronState
  {
    PerceptronState(Weights(w1, w2, b), epoch, step, errors, 1.0)
  }

  /** The steps of the first epoch of the AND-gate run from the initial state. */
  lemma FirstEpochMoves()
    ensures Moves(AtRateOne(0.0, 0.0, 0.0, 1, 0, 0),
                  AtRateOne(0.0, 0.0, -1.0, 1, 1, 1))
    ensures Moves(AtRateOne(0.0, 0.0, -1.0, 1, 1, 1),
                  AtRateOne(0.0, 0.0, -1.0, 1, 2, 1))
    ensures Moves(AtRateOne(0.0, 0.0, -1.0, 1, 2, 1),
                  AtRateOne(0.0, 0.0, -1.0, 1, 3, 1))
    ensures Moves(AtRateOne(0.0, 0.0, -1.0, 1, 3, 1),
                  AtRateOne(1.0, 1.0, 0.0, 2, 0, 0))
  {
  }

  /** The steps of the second epoch of the AND-gate run from the initial state. */
  lemma SecondEpochMoves()
    ensures Moves(AtRateOne(1.0, 1.0, 0.0, 2, 0, 0),
                  AtRateOne(1.0, 1.0, -1.0, 2, 1, 1))
    ensures Moves(AtRateOne(1.0, 1.0, -1.0, 2, 1, 1),
                  AtRateOne(0.0, 1.0, -2.0, 2, 2, 2))
    ensures Moves(AtRateOne(0.0, 1.0, -2.0, 2, 2, 2),
                  AtRateOne(0.0, 1.0, -2.0, 2, 3, 2))
    ensures Moves(AtRateOne(0.0, 1.0, -2.0, 2, 3, 2),
                  AtRateOne(1.0, 2.0, -1.0, 3, 0, 0))
  {
  }

  /** The steps of the third epoch of the AND-gate run from the initial state. */
  lemma ThirdEpochMoves()
    ensures Moves(AtRateOne(1.0, 2.0, -1.0, 3, 0, 0),
                  AtRateOne(1.0, 2.0, -1.0, 3, 1, 0))
    ensures Moves(AtRateOne(1.0, 2.0, -1.0, 3, 1, 0),
                  AtRateOne(0.0, 2.0, -2.0, 3, 2, 1))
    ensures Moves(AtRateOne(0.0, 2.0, -2.0, 3, 2, 1),
                  AtRateOne(0.0, 1.0, -3.0, 3, 3, 2))
    ensures Moves(AtRateOne(0.0, 1.0, -3.0, 3, 3, 2),
                  AtRateOne(1.0, 2.0, -2.0, 4, 0, 0))
  {
  }

  /** The steps of the fourth epoch of the AND-gate run from the initial state. */
  lemma FourthEpochMoves()
    ensures Moves(AtRateOne(1.0, 2.0, -2.0, 4, 0, 0),
                  AtRateOne(1.0, 2.0, -2.0, 4, 1, 0))
    ensures Moves(AtRateOne(1.0, 2.0, -2.0, 4, 1, 0),
                  AtRateOne(1.0, 2.0, -2.0, 4, 2, 0))
    ensures Moves(AtRateOne(1.0, 2.0, -2.0, 4, 2, 0),
                  AtRateOne(1.0, 1.0, -3.0, 4, 3, 1))
    ensures Moves(AtRateOne(1.0, 1.0, -3.0, 4, 3, 1),
                  AtRateOne(2.0, 2.0, -2.0, 5, 0, 0))
  {
  }

  /** The steps of the fifth epoch of the AND-gate run from the initial state. */
  lemma FifthEpochMoves()
    ensures Moves(AtRateOne(2.0, 2.0, -2.0, 5, 0, 0),
                  AtRateOne(2.0, 2.0, -2.0, 5, 1, 0))
    ensures Moves(AtRateOne(2.0, 2.0, -2.0, 5, 1, 0),
                  AtRateOne(1.0, 2.0, -3.0, 5, 2, 1))
    ensures Moves(AtRateOne(1.0, 2.0, -3.0, 5, 2, 1),
                  AtRateOne(1.0, 2.0, -3.0, 5, 3, 1))
    ensures Moves(AtRateOne(1.0, 2.0, -3.0, 5, 3, 1),
                  AtRateOne(1.0, 2.0, -3.0, 6, 0, 0))
  {
  }

  /** The steps of the sixth epoch of the AND-gate run from the initial state. */
  lemma SixthEpochMoves()
    ensures Moves(AtRateOne(1.0, 2.0, -3.0, 6, 0, 0),
                  AtRateOne(1.0, 2.0, -3.0, 6, 1, 0))
    ensures Moves(AtRateOne(1.0, 2.0, -3.0, 6, 1, 0),
                  AtRateOne(1.0, 2.0, -3.0, 6, 2, 0))
    ensures Moves(AtRateOne(1.0, 2.0, -3.0, 6, 2, 0),
                  AtRateOne(1.0, 2.0, -3.0, 6, 3, 0))
  {
  }

  /** The 24th step of the run completes the error-free sixth epoch. */
  lemma LastStepConverges()
    ensures Transition(AtRateOne(1.0, 2.0, -3.0, 6, 3, 0)).next == AtRateOne(1.0, 2.0, -3.0, 7, 0, 0)
    ensures Transition(AtRateOne(1.0, 2.0, -3.0, 6, 3, 0)).converged
  {
  }

  /** Once a run has converged it stays converged: a run of `m` steps that
      has not converged did not converge within its first `n` steps. */
  lemma {:induction false} NotConvergedEarlier(s: PerceptronState, n: nat, m: nat)
    requires ValidState(s) && n <= m
    requires !Run(s, false, m).1
    ensures !Run(s, false, n).1
    decreases n
  {
    if n > 0 {
      var t := Transition(s);
      if !t.converged {
        NotConvergedEarlier(t.next, n - 1, m - 1);
      }
    }
  }

  /** The run through the first epoch. */
  lemma FirstEpochRun(n: nat)
    ensures Run(AtRateOne(0.0, 0.0, 0.0, 1, 0, 0), false, n + 4) == Run(AtRateOne(1.0, 1.0, 0.0, 2, 0, 0), false, n)
  {
    FirstEpochMoves();
    RunStep(AtRateOne(0.0, 0.0, 0.0, 1, 0, 0),
            AtRateOne(0.0, 0.0, -1.0, 1, 1, 1), n + 3);
    RunStep(AtRateOne(0.0, 0.0, -1.0, 1, 1, 1),
            AtRateOne(0.0, 0.0, -1.0, 1, 2, 1), n + 2);
    RunStep(AtRateOne(0.0, 0.0, -1.0, 1, 2, 1),
            AtRateOne(0.0, 0.0, -1.0, 1, 3, 1), n + 1);
    RunStep(AtRateOne(0.0, 0.0, -1.0, 1, 3, 1),
            AtRateOne(1.0, 1.0, 0.0, 2, 0, 0), n + 0);
  }

  /** The run through the second epoch. */
  lemma SecondEpochRun(n: nat)
    ensures Run(AtRateOne(1.0, 1.0, 0.0, 2, 0, 0), false, n + 4) == Run(AtRateOne(1.0, 2.0, -1.0, 3, 0, 0), false, n)
  {
    SecondEpochMoves();
    RunStep(AtRateOne(1.0, 1.0, 0.0, 2, 0, 0),
            AtRateOne(1.0, 1.0, -1.0, 2, 1, 1), n + 3);
    RunStep(AtRateOne(1.0, 1.0, -1.0, 2, 1, 1),
            AtRateOne(0.0, 1.0, -2.0, 2, 2, 2), n + 2);
    RunStep(AtRateOne(0.0, 1.0, -2.0, 2, 2, 2),
            AtRateOne(0.0, 1.0, -2.0, 2, 3, 2), n + 1);
    RunStep(AtRateOne(0.0, 1.0, -2.0, 2, 3, 2),
            AtRateOne(1.0, 2.0, -1.0, 3, 0, 0), n + 0);
  }

  /** The run through the third epoch. */
  lemma ThirdEpochRun(n: nat)
    ensures Run(AtRateOne(1.0, 2.0, -1.0, 3, 0, 0), false, n + 4) == Run(AtRateOne(1.0, 2.0, -2.0, 4, 0, 0), false, n)
  {
    ThirdEpochMoves();
    RunStep(AtRateOne(1.0, 2.0, -1.0, 3, 0, 0),
            AtRateOne(1.0, 2.0, -1.0, 3, 1, 0), n + 3);
    RunStep(AtRateOne(1.0, 2.0, -1.0, 3, 1, 0),
            AtRateOne(0.0, 2.0, -2.0, 3, 2, 1), n + 2);
    RunStep(AtRateOne(0.0, 2.0, -2.0, 3, 2, 1),
            AtRateOne(0.0, 1.0, -3.0, 3, 3, 2), n + 1);
    RunStep(AtRateOne(0.0, 1.0, -3.0, 3, 3, 2),
            AtRateOne(1.0, 2.0, -2.0, 4, 0, 0), n + 0);
  }

  /** The run through the fourth epoch. */
  lemma FourthEpochRun(n: nat)
    ensures Run(AtRateOne(1.0, 2.0, -2.0, 4, 0, 0), false, n + 4) == Run(AtRateOne(2.0, 2.0, -2.0, 5, 0, 0), false, n)
  {
    FourthEpochMoves();
    RunStep(AtRateOne(1.0, 2.0, -2.0, 4, 0, 0),
            AtRateOne(1.0, 2.0, -2.0, 4, 1, 0), n + 3);
    RunStep(AtRateOne(1.0, 2.0, -2.0, 4, 1, 0),
            AtRateOne(1.0, 2.0, -2.0, 4, 2, 0), n + 2);
    RunStep(AtRateOne(1.0, 2.0, -2.0, 4, 2, 0),
            AtRateOne(1.0, 1.0, -3.0, 4, 3, 1), n + 1);
    RunStep(AtRateOne(1.0, 1.0, -3.0, 4, 3, 1),
            AtRateOne(2.0, 2.0, -2.0, 5, 0, 0), n + 0);
  }

  /** The run through the fifth epoch. */
  lemma FifthEpochRun(n: nat)
    ensures Run(AtRateOne(2.0, 2.0, -2.0, 5, 0, 0), false, n + 4) == Run(AtRateOne(1.0, 2.0, -3.0, 6, 0, 0), false, n)
  {
    FifthEpochMoves();
    RunStep(AtRateOne(2.0, 2.0, -2.0, 5, 0, 0),
            AtRateOne(2.0, 2.0, -2.0, 5, 1, 0), n + 3);
    RunStep(AtRateOne(2.0, 2.0, -2.0, 5, 1, 0),
            AtRateOne(1.0, 2.0, -3.0, 5, 2, 1), n + 2);
    RunStep(AtRateOne(1.0, 2.0, -3.0, 5, 2, 1),
            AtRateOne(1.0, 2.0, -3.0, 5, 3, 1), n + 1);
    RunStep(AtRateOne(1.0, 2.0, -3.0, 5, 3, 1),
            AtRateOne(1.0, 2.0, -3.0, 6, 0, 0), n + 0);
  }

  /** The run through the sixth epoch. */
  lemma SixthEpochRun(n: nat)
    ensures Run(AtRateOne(1.0, 2.0, -3.0, 6, 0, 0), false, n + 3) == Run(AtRateOne(1.0, 2.0, -3.0, 6, 3, 0), false, n)
  {
    SixthEpochMoves();
    RunStep(AtRateOne(1.0, 2.0, -3.0, 6, 0, 0),
            AtRateOne(1.0, 2.0, -3.0, 6, 1, 0), n + 2);
    RunStep(AtRateOne(1.0, 2.0, -3.0, 6, 1, 0),
            AtRateOne(1.0, 2.0, -3.0, 6, 2, 0), n + 1);
    RunStep(AtRateOne(1.0, 2.0, -3.0, 6, 2, 0),
            AtRateOne(1.0, 2.0, -3.0, 6, 3, 0), n + 0);
  }

  /** The run through the first two epochs. */
  lemma RunToThirdEpoch(k: nat)
    requires k >= 8
    ensures Run(InitialState(), false, k) == Run(AtRateOne(1.0, 2.0, -1.0, 3, 0, 0), false, k - 8)
  {
    FirstEpochRun(k - 4);
    SecondEpochRun(k - 8);
  }

  /** The run through the first four epochs. */
  lemma RunToFifthEpoch(k: nat)
    requires k >= 16
    ensures Run(InitialState(), false, k) == Run(AtRateOne(2.0, 2.0, -2.0, 5, 0, 0), false, k - 16)
  {
    RunToThirdEpoch(k);
    ThirdEpochRun(k - 12);
    FourthEpochRun(k - 16);
  }

  /** The first 23 steps of the run from the initial state never converge
      and end at the start of the last row of the sixth epoch. */
  lemma RunToLastRow(k: nat)
    requires k >= 23
    ensures Run(InitialState(), false, k) == Run(AtRateOne(1.0, 2.0, -3.0, 6, 3, 0), false, k - 23)
  {
    RunToFifthEpoch(k);
    FifthEpochRun(k - 20);
    SixthEpochRun(k - 23);
  }

  /** From the initial state with the default data no run of fewer than 24
      steps converges, and every run of 24 or more steps ends converged at the
      end of epoch 6 (the epoch already reads 7) with weights (1, 2) and bias
      -3, further steps being refused; these weights classify every row of
      the AND truth table correctly. */
  lemma InitialStateConverges(n: nat)
    ensures n < 24 ==> !Run(InitialState(), false, n).1
    ensures n >= 24 ==> Run(InitialState(), false, n) == (AtRateOne(1.0, 2.0, -3.0, 7, 0, 0), true)
    ensures forall i :: 0 <= i < |DefaultAndGateData()| ==>
      var row := DefaultAndGateData()[i];
      StepActivation(WeightedSum(Weights(1.0, 2.0, -3.0), row.x1, row.x2)) == row.y
  {
    if n >= 23 {
      RunToLastRow(n);
      LastStepConverges();
    } else {
      RunToLastRow(n + (23 - n));
      NotConvergedEarlier(InitialState(), n, n + (23 - n));
    }
  }

  /** Number of records in `h` whose error is nonzero. */
  function ErrorCount(h: seq<HistoryEntry>): nat
  {
    if h == [] then 0
    else ErrorCount(h[..|h| - 1]) + (if h[|h| - 1].error != 0 then 1 else 0)
  }

  /** Errors made during epoch `k`, read off the history. */
  function EpochErrors(h: seq<HistoryEntry>, k: int): nat
    requires 1 <= k && RowCount * k <= |h|
  {
    ErrorCount(h[RowCount * (k - 1)..RowCount * k])
  }

  /** The i-th record was made at epoch i / 4 + 1 and row i % 4, by the rule
      of `ProducedByStep`. */
  ghost predicate RecordsPlaced(h: seq<HistoryEntry>)
  {
    forall i :: 0 <= i < |h| ==>
      h[i].epoch == i / RowCount + 1 && h[i].step == i % RowCount && ProducedByStep(h[i])
  }

  /** Each record starts from the weights the previous one ended with, and
      the last ends with `w`. */
  ghost predicate RecordsChained(h: seq<HistoryEntry>, w: Weights)
  {
    && (forall i {:trigger h[i].OldWeights()} :: 0 < i < |h| ==> h[i].OldWeights() == h[i - 1].NewWeights())
    && (h != [] ==> h[|h| - 1].NewWeights() == w)
  }

  /** The error counter counts the errors of the current epoch; every epoch
      before the last completed one had an error; the flag is set exactly
      when the last completed epoch had none, and then the next row is 0. */
  ghost predicate ErrorsCounted(s: PerceptronState, h: seq<HistoryEntry>, converged: bool)
    requires ValidState(s) && |h| == RowCount * (s.epoch - 1) + s.currentStep
  {
    && s.totalErrorsInEpoch == ErrorCount(h[|h| - s.currentStep..])
    && (forall k :: 1 <= k < s.epoch - 1 ==> EpochErrors(h, k) > 0)
    && (converged <==> s.epoch > 1 && EpochErrors(h, s.epoch - 1) == 0)
    && (converged ==> s.currentStep == 0)
  }

  /** The engine's invariant over its state, history and convergence flag:
      the history holds one record per step taken, placed and chained as
      above, and the error counter and the flag agree with it. */
  ghost predicate EngineInvariant(s: PerceptronState, h: seq<HistoryEntry>, converged: bool)
  {
    && ValidState(s)
    && |h| == RowCount * (s.epoch - 1) + s.currentStep
    && RecordsPlaced(h)
    && RecordsChained(h, s.weights)
    && ErrorsCounted(s, h, converged)
  }

  lemma ErrorCountAppend(h: seq<HistoryEntry>, e: HistoryEntry)
    ensures ErrorCount(h + [e]) == ErrorCount(h) + (if e.error != 0 then 1 else 0)
  {
    assert (h + [e])[..|h|] == h;
  }

  lemma Position(n: int, q: int, r: int)
    requires n == RowCount * q + r && 0 <= r < RowCount
    ensures n / RowCount == q && n % RowCount == r
  {
  }

  lemma PlacedAppend(h: seq<HistoryEntry>, e: HistoryEntry)
    requires RecordsPlaced(h)
    requires e.epoch == |h| / RowCount + 1 && e.step == |h| % RowCount && ProducedByStep(e)
    ensures RecordsPlaced(h + [e])
  {
    var h' := h + [e];
    forall i | 0 <= i < |h'|
      ensures h'[i].epoch == i / RowCount + 1 && h'[i].step == i % RowCount && ProducedByStep(h'[i])
    {
      if i < |h| { assert h'[i] == h[i]; }
    }
  }

  lemma ChainedAppend(h: seq<HistoryEntry>, w: Weights, e: HistoryEntry)
    requires RecordsChained(h, w) && e.OldWeights() == w
    ensures RecordsChained(h + [e], e.NewWeights())
  {
    var h' := h + [e];
    forall i | 0 < i < |h'| ensures h'[i].OldWeights() == h'[i - 1].NewWeights() {
      if i < |h| { assert h'[i] == h[i] && h'[i - 1] == h[i - 1]; }
    }
  }

  /** Appending a record leaves the errors of completed epochs alone. */
  lemma EpochErrorsAppend(h: seq<HistoryEntry>, e: HistoryEntry, k: int)
    requires 1 <= k && RowCount * k <= |h|
    ensures EpochErrors(h + [e], k) == EpochErrors(h, k)
  {
    assert (h + [e])[RowCount * (k - 1)..RowCount * k] == h[RowCount * (k - 1)..RowCount * k];
  }

  /** Appending a record adds its error to the errors of the last `c` rows. */
  lemma TailErrorsAppend(h: seq<HistoryEntry>, e: HistoryEntry, c: nat)
    requires c <= |h|
    ensures ErrorCount((h + [e])[|h| - c..]) == ErrorCount(h[|h| - c..]) + (if e.error != 0 then 1 else 0)
  {
    assert (h + [e])[|h| - c..] == h[|h| - c..] + [e];
    ErrorCountAppend(h[|h| - c..], e);
  }

  /** The error accounting after a row that does not end its epoch: the
      record's error joins the current epoch's count. */
  lemma ErrorsCountedWithinEpoch(s: PerceptronState, h: seq<HistoryEntry>, e: HistoryEntry, t: PerceptronState)
    requires ValidState(s) && |h| == RowCount * (s.epoch - 1) + s.currentStep
    requires ErrorsCounted(s, h, false)
    requires t.epoch == s.epoch && t.currentStep == s.currentStep + 1 < RowCount
    requires t.totalErrorsInEpoch == s.totalErrorsInEpoch + (if e.error != 0 then 1 else 0)
    ensures ValidState(t) && |h + [e]| == RowCount * (t.epoch - 1) + t.currentStep
    ensures ErrorsCounted(t, h + [e], false)
  {
    var h' := h + [e];
    TailErrorsAppend(h, e, s.currentStep);
    assert h'[|h'| - t.currentStep..] == h'[|h| - s.currentStep..];
    forall k | 1 <= k < s.epoch - 1 ensures EpochErrors(h', k) > 0 {
      EpochErrorsAppend(h, e, k);
    }
    if s.epoch > 1 {
      EpochErrorsAppend(h, e, s.epoch - 1);
    }
  }

  /** The error accounting after the last row of an epoch: the epoch is
      complete, its errors are read off the history, the counter restarts,
      and the flag records whether the epoch had none. */
  lemma ErrorsCountedAtEpochEnd(s: PerceptronState, h: seq<HistoryEntry>, e: HistoryEntry,
                                t: PerceptronState, converged: bool)
    requires ValidState(s) && |h| == RowCount * (s.epoch - 1) + s.currentStep
    requires ErrorsCounted(s, h, false)
    requires s.currentStep == RowCount - 1
    requires t.epoch == s.epoch + 1 && t.currentStep == 0 && t.totalErrorsInEpoch == 0
    requires converged <==> s.totalErrorsInEpoch + (if e.error != 0 then 1 else 0) == 0
    ensures ValidState(t) && |h + [e]| == RowCount * (t.epoch - 1) + t.currentStep
    ensures ErrorsCounted(t, h + [e], converged)
  {
    var h' := h + [e];
    TailErrorsAppend(h, e, s.currentStep);
    assert h'[|h| - s.currentStep..] == h'[RowCount * (s.epoch - 1)..RowCount * s.epoch];
    forall k | 1 <= k < s.epoch ensures EpochErrors(h', k) > 0 {
      EpochErrorsAppend(h, e, k);
    }
  }

  /** The error accounting after a step that is not refused. */
  lemma ErrorsCountedAfterStep(s: PerceptronState, h: seq<HistoryEntry>)
    requires ValidState(s) && |h| == RowCount * (s.epoch - 1) + s.currentStep
    requires ErrorsCounted(s, h, false)
    ensures var r := Transition(s);
      ValidState(r.next) && |h + [r.entry]| == RowCount * (r.next.epoch - 1) + r.next.currentStep
      && ErrorsCounted(r.next, h + [r.entry], r.converged)
  {
    var r := Transition(s);
    if r.next.currentStep == 0 {
      ErrorsCountedAtEpochEnd(s, h, r.entry, r.next, r.converged);
    } else {
      ErrorsCountedWithinEpoch(s, h, r.entry, r.next);
    }
  }

  /** A step that is not refused keeps the invariant, with the new record
      appended and the flag set as the step decides. */
  lemma StepPreservesInvariant(s: PerceptronState, h: seq<HistoryEntry>)
    requires EngineInvariant(s, h, false)
    ensures var r := Transition(s);
      EngineInvariant(r.next, h + [r.entry], r.converged)
  {
    var r := Transition(s);
    Position(|h|, s.epoch - 1, s.currentStep);
    StepFollowsDeltaRule(s);
    PlacedAppend(h, r.entry);
    ChainedAppend(h, s.weights, r.entry);
    ErrorsCountedAfterStep(s, h);
  }

  /** The engine's history lists epochs in nondecreasing order, all between
      1 and the current epoch. */
  lemma HistoryEpochsOrdered(s: PerceptronState, h: seq<HistoryEntry>, c: bool)
    requires EngineInvariant(s, h, c)
    ensures EpochsNondecreasing(h) && EpochsWithin(h, 1, s.epoch)
  {
    forall i, j | 0 <= i < j < |h| ensures h[i].epoch <= h[j].epoch {
      DivMonotone(i, j);
    }
    forall i | 0 <= i < |h| ensures 1 <= h[i].epoch <= s.epoch {
      DivMonotone(i, |h|);
    }
  }

  lemma DivMonotone(i: nat, j: nat)
    requires i <= j
    ensures i / RowCount <= j / RowCount
  {
  }

  /** The log of an engine history, its epoch tables read in ascending order,
      is the history itself. */
  lemma LogListsHistoryInOrder(s: PerceptronState, h: seq<HistoryEntry>, c: bool)
    requires EngineInvariant(s, h, c)
    ensures InEpochOrder(Grouping(h), 1, s.epoch) == h
  {
    HistoryEpochsOrdered(s, h, c);
    RegroupingRestoresHistory(h, 1, s.epoch);
  }

  /** On every record of the engine's history the weight-adjustment detail is
      shown exactly when the new weights are emphasised, and a row marked
      correct kept its weights. */
  lemma LoggedRowFlagsAgree(s: PerceptronState, h: seq<HistoryEntry>, c: bool)
    requires EngineInvariant(s, h, c)
    ensures forall i :: 0 <= i < |h| ==>
      && (ShowsAdjustmentDetail(h[i]) <==> EmphasisesNewWeights(h[i]))
      && (RowMarkedCorrect(h[i]) ==> h[i].NewWeights() == h[i].OldWeights())
  {
  }

  /** The simulation's invariant over its fields: the engine invariant, and
      the last calculation is the detail view of the newest record. */
  ghost predicate Consistent(s: PerceptronState, h: seq<HistoryEntry>, c: bool, last: Option<CalculationTraceType>)
  {
    && EngineInvariant(s, h, c)
    && last == if h == [] then None else Some(MapHistoryToTrace(h[|h| - 1]))
  }

  /** The invariant does not involve the learning rate. */
  lemma InvariantIgnoresRate(s: PerceptronState, h: seq<HistoryEntry>, c: bool,
                             last: Option<CalculationTraceType>, rate: real)
    requires Consistent(s, h, c, last)
    ensures Consistent(s.(learningRate := rate), h, c, last)
  {
    EngineInvariantIgnoresRate(s, h, c, rate);
  }

  lemma EngineInvariantIgnoresRate(s: PerceptronState, h: seq<HistoryEntry>, c: bool, rate: real)
    requires EngineInvariant(s, h, c)
    ensures EngineInvariant(s.(learningRate := rate), h, c)
  {
  }

  /** The calculation on the row at `currentStep`: the weighted sum, the
      threshold prediction, the error, and the delta-rule update applied
      field by field to a copy of the weights. */
  method CalculateRow(s: PerceptronState)
    returns (row: AndGateData, z: real, yPredicted: Bit, error: int, newWeights: Weights,
             weightsUpdated: bool, currentTotalErrors: int)
    requires 0 <= s.currentStep < |DefaultAndGateData()|
    ensures row == DefaultAndGateData()[s.currentStep]
    ensures z == WeightedSum(s.weights, row.x1, row.x2) && yPredicted == StepActivation(z)
    ensures error == row.y - yPredicted && (weightsUpdated <==> error != 0)
    ensures newWeights == if weightsUpdated then DeltaRule(s.weights, s.learningRate, error, row.x1, row.x2)
                          else s.weights
    ensures currentTotalErrors == s.totalErrorsInEpoch + (if weightsUpdated then 1 else 0)
  {
    var oldWeights := s.weights;
    row := DefaultAndGateData()[s.currentStep];
    z := (row.x1 as real) * oldWeights.w1 + (row.x2 as real) * oldWeights.w2 + oldWeights.b;
    yPredicted := if z >= 0.0 then 1 else 0;
    error := row.y - yPredicted;

    newWeights := oldWeights;
    weightsUpdated := false;
    currentTotalErrors := s.totalErrorsInEpoch;
    if error != 0 {
      currentTotalErrors := currentTotalErrors + 1;
      newWeights := newWeights.(w1 := newWeights.w1 + s.learningRate * (error as real) * (row.x1 as real));
      newWeights := newWeights.(w2 := newWeights.w2 + s.learningRate * (error as real) * (row.x2 as real));
      newWeights := newWeights.(b := newWeights.b + s.learningRate * (error as real));
      weightsUpdated := true;
    }
  }

  /** The simulation, one field per state hook of the component. */
  class Simulation {
    var state: PerceptronState
    var isRunning: bool
    var history: seq<HistoryEntry>
    var isConverged: bool
    var lastCalculation: Option<CalculationTraceType>

    ghost predicate Valid()
      reads this
    {
      Consistent(state, history, isConverged, lastCalculation)
    }

    constructor ()
      ensures Valid()
      ensures state == InitialState() && history == [] && lastCalculation == None
      ensures !isRunning && !isConverged
    {
      state := InitialState();
      isRunning := false;
      history := [];
      isConverged := false;
      lastCalculation := None;
    }

    /** Back to the initial configuration, idle, with an empty history. The
        new state does not depend on the old one, so resetting twice is
        resetting once. */
    method Reset()
      modifies this
      ensures Valid()
      ensures state == InitialState() && history == [] && lastCalculation == None
      ensures !isRunning && !isConverged
    {
      isRunning := false;
      state := InitialState();
      history := [];
      isConverged := false;
      lastCalculation := None;
    }

    /** Changes the rate only while idle; ignored while running. */
    method SetLearningRate(newRate: real)
      requires Valid()
      modifies this`state
      ensures Valid()
      ensures state == if old(isRunning) then old(state) else old(state).(learningRate := newRate)
      ensures isRunning == old(isRunning) && isConverged == old(isConverged)
      ensures history == old(history) && lastCalculation == old(lastCalculation)
    {
      if isRunning {
        return;
      }
      InvariantIgnoresRate(state, history, isConverged, lastCalculation, newRate);
      state := state.(learningRate := newRate);
    }

    method ToggleRunning()
      modifies this`isRunning
      ensures isRunning == !old(isRunning)
    {
      isRunning := !isRunning;
    }

    /** One training step. Once converged it only stops running; otherwise it
        processes the row at `currentStep`, appends one history record, keeps
        the detail as the last calculation, and on completing an error-free
        epoch sets the flag and stops running. */
    method Step()
      requires Valid()
      modifies this
      ensures Valid()
      ensures old(isConverged) ==>
        && state == old(state) && history == old(history) && lastCalculation == old(lastCalculation)
        && isConverged && !isRunning
      ensures !old(isConverged) ==>
        var r := Transition(old(state));
        && state == r.next
        && history == old(history) + [r.entry]
        && lastCalculation == Some(r.trace)
        && isConverged == r.converged
        && isRunning == (old(isRunning) && !r.converged)
    {
      if isConverged {
        isRunning := false;
        return;
      }
      ghost var s, h := state, history;
      ProcessRow();
      StepPreservesInvariant(s, h);
      TraceMatchesEntry(s);
    }

    /** The update of a step that is not refused: the calculation on the row
        at `currentStep`, the record, the next position and the convergence
        check. */
    method ProcessRow()
      requires 0 <= state.currentStep < |DefaultAndGateData()| && !isConverged
      modifies this
      ensures var r := Transition(old(state));
        && state == r.next
        && history == old(history) + [r.entry]
        && lastCalculation == Some(r.trace)
        && isConverged == r.converged
        && isRunning == (old(isRunning) && !r.converged)
    {
      var s := state;
      var oldWeights := s.weights;
      var row, z, yPredicted, error, newWeights, weightsUpdated, currentTotalErrors := CalculateRow(s);

      lastCalculation := Some(CalculationTraceType(
        row.x1, row.x2, row.y, z, yPredicted, error,
        oldWeights.w1, oldWeights.w2, oldWeights.b,
        newWeights.w1, newWeights.w2, newWeights.b,
        Some(s.learningRate)));
      history := history + [HistoryEntry(
        s.epoch, s.currentStep,
        row.x1, row.x2, row.y, z, yPredicted, error,
        newWeights.w1, newWeights.w2, newWeights.b,
        oldWeights.w1, oldWeights.w2, oldWeights.b,
        weightsUpdated,
        Some(s.learningRate))];

      var nextStep := (s.currentStep + 1) % |DefaultAndGateData()|;
      var nextEpoch := s.epoch;
      if nextStep == 0 {
        nextEpoch := nextEpoch + 1;
        if currentTotalErrors == 0 && s.currentStep == |DefaultAndGateData()| - 1 {
          isConverged := true;
          isRunning := false;
        }
        currentTotalErrors := 0;
      }
      state := s.(weights := newWeights, epoch := nextEpoch, currentStep := nextStep,
                  totalErrorsInEpoch := currentTotalErrors);
    }
  }
}
