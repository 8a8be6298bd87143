/** Data shapes of the perceptron simulator (types.ts). */
module Types {

  /** A value that may be absent; `None` stands for a record property that is
      missing at run time (read as `undefined`). */
  datatype Option<+T> = None | Some(value: T)

  /** An input or label of the AND gate: 0 or 1. */
  type Bit = x: int | 0 <= x <= 1

  /** Two input weights and the bias. */
  datatype Weights = Weights(w1: real, w2: real, b: real)

  /** The engine's parameter record: weights, position in the training
      schedule, errors counted so far in the current epoch, and the rate. */
  datatype PerceptronState = PerceptronState(
    weights: Weights,
    epoch: int,
    currentStep: int,
    totalErrorsInEpoch: int,
    learningRate: real)

  /** One training row: two inputs and the expected output. */
  datatype AndGateData = AndGateData(x1: Bit, x2: Bit, y: Bit)

  /** The single-step detail view: the calculation of one processed row. */
  datatype CalculationTraceType = CalculationTraceType(
    x1: Bit, x2: Bit, yActual: Bit,
    z: real, yPredicted: Bit, error: int,
    oldW1: real, oldW2: real, oldB: real,
    newW1: real, newW2: real, newB: real,
    learningRate: Option<real>)

  /** One record of the append-only history: where in the schedule the row
      was processed, the calculation, and the weights before (`old*`) and
      after (`w1`, `w2`, `b`) the update. */
  datatype HistoryEntry = HistoryEntry(
    epoch: int, step: int,
    x1: Bit, x2: Bit, yActual: Bit,
    z: real, yPredicted: Bit, error: int,
    w1: real, w2: real, b: real,
    oldW1: real, oldW2: real, oldB: real,
    weightsUpdated: bool,
    learningRate: Option<real>)
  {
    function OldWeights(): Weights { Weights(oldW1, oldW2, oldB) }
    function NewWeights(): Weights { Weights(w1, w2, b) }
  }
}
