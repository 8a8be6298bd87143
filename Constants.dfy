/** The initial configuration and the fixed training sequence (constants.ts). */
module Constants {
  import opened Types

  /** Number of rows in the training sequence, so the length of an epoch. */
  const RowCount: nat := 4

  /** The AND of two bits. */
  function And(a: Bit, b: Bit): Bit { if a == 1 && b == 1 then 1 else 0 }

  /** The training sequence, in the order (0,0), (1,0), (0,1), (1,1). Every
      label is the AND of its inputs and no input pair occurs twice, so the
      four rows are the whole truth table of AND. */
  function DefaultAndGateData(): (d: seq<AndGateData>)
    ensures |d| == RowCount
    ensures forall i :: 0 <= i < |d| ==> d[i].y == And(d[i].x1, d[i].x2)
    ensures forall i, j :: 0 <= i < j < |d| ==> d[i].x1 != d[j].x1 || d[i].x2 != d[j].x2
  {
    [ AndGateData(0, 0, 0),
      AndGateData(1, 0, 0),
      AndGateData(0, 1, 0),
      AndGateData(1, 1, 1) ]
  }

  /** The state the simulation starts from and returns to on reset: zero
      weights, the first row of the first epoch, no errors, rate 1. */
  function InitialState(): (s: PerceptronState)
    ensures s.weights == Weights(0.0, 0.0, 0.0) && s.learningRate == 1.0
    ensures s.epoch == 1 && s.totalErrorsInEpoch == 0
    ensures s.currentStep == 0 < |DefaultAndGateData()|
  {
    PerceptronState(Weights(0.0, 0.0, 0.0), 1, 0, 0, 1.0)
  }
}
