/**
 * Logic-gate datasets (03-implementation/perceptron-example/src/data_utils.py):
 * the fixed four-row truth table, the per-gate label lookup with its error
 * for unknown names, and the hard-coded linear-separability table, together
 * with a proof that the table is right for threshold units.
 */
module DataUtils {
  import opened Wrappers
  import opened Vectors
  import opened Matrices
  import Activation

  /** The gate names `generate_logic_gate_data` accepts, in dictionary order. */
  const GateNames: seq<string> := ["AND", "OR", "XOR", "NAND", "NOR", "XNOR"]

  /** The gates `analyze_linear_separability` lists as linearly separable. */
  const SeparableGates: seq<string> := ["AND", "OR", "NAND", "NOR"]

  /** The gates it lists as not linearly separable. */
  const NonSeparableGates: seq<string> := ["XOR", "XNOR"]

  /** All two-bit inputs, in the order (0,0), (0,1), (1,0), (1,1). */
  const Inputs: Matrix := [[0.0, 0.0], [0.0, 1.0], [1.0, 0.0], [1.0, 1.0]]

  /** The `gates` dictionary: the label vector stored for each gate name. */
  function GateLabels(gate: string): Option<Vector>
  {
    if gate == "AND" then Some([0.0, 0.0, 0.0, 1.0])
    else if gate == "OR" then Some([0.0, 1.0, 1.0, 1.0])
    else if gate == "XOR" then Some([0.0, 1.0, 1.0, 0.0])
    else if gate == "NAND" then Some([1.0, 1.0, 1.0, 0.0])
    else if gate == "NOR" then Some([1.0, 0.0, 0.0, 0.0])
    else if gate == "XNOR" then Some([1.0, 0.0, 0.0, 1.0])
    else None
  }

  /**
   * `generate_logic_gate_data(gate)`: the four input rows, the same for every
   * gate, and that gate's labels; an unknown name raises and returns nothing.
   */
  function GenerateLogicGateData(gate: string): (r: Result<(Matrix, Vector)>)
    ensures r.Success? <==> gate in GateNames
    ensures r.Success? ==>
      var (X, y) := r.value;
      && IsShape(X, 4, 2)
      && (forall i :: 0 <= i < 4 ==> X[i] == [(i / 2) as real, (i % 2) as real])
      && |y| == 4 && IsBinary(y)
  {
    match GateLabels(gate)
    case Some(y) => Success((Inputs, y))
    case None => Failure("Unknown gate: " + gate)
  }

  /** The boolean function each gate name stands for: the independent reference for the labels. */
  function BooleanGate(gate: string, a: bool, b: bool): bool
  {
    if gate == "AND" then a && b
    else if gate == "OR" then a || b
    else if gate == "XOR" then a != b
    else if gate == "NAND" then !(a && b)
    else if gate == "NOR" then !(a || b)
    else a == b
  }

  function Bit(b: bool): real
  {
    if b then 1.0 else 0.0
  }

  /** Every label is the named boolean function of its input row. */
  lemma GateLabelsAreBooleanFunctions(gate: string)
    requires gate in GateNames
    ensures GenerateLogicGateData(gate).Success?
    ensures var (X, y) := GenerateLogicGateData(gate).value;
      forall i :: 0 <= i < 4 ==> y[i] == Bit(BooleanGate(gate, X[i][0] == 1.0, X[i][1] == 1.0))
  {
  }

  /** NAND, NOR and XNOR are the pointwise complements of AND, OR and XOR. */
  lemma NegatedGatesAreComplements()
    ensures forall i :: 0 <= i < 4 ==>
      && GateLabels("NAND").value[i] == 1.0 - GateLabels("AND").value[i]
      && GateLabels("NOR").value[i] == 1.0 - GateLabels("OR").value[i]
      && GateLabels("XNOR").value[i] == 1.0 - GateLabels("XOR").value[i]
  {
  }

  /**
   * `analyze_linear_separability()`: exactly the six gates, True for AND,
   * OR, NAND and NOR, False for XOR and XNOR.
   */
  function AnalyzeLinearSeparability(): (r: map<string, bool>)
    ensures r.Keys == set g | g in GateNames
    ensures forall g :: g in r ==> (r[g] <==> g in SeparableGates)
  {
    map g | g in SeparableGates + NonSeparableGates :: g in SeparableGates
  }

  /** The threshold unit `step(w1 x1 + w2 x2 + b)` reproduces labels `y` on all four rows. */
  predicate ReproducedBy(w1: real, w2: real, b: real, y: Vector)
    requires |y| == 4
  {
    forall i :: 0 <= i < 4 ==> Activation.Step(Inputs[i][0] * w1 + Inputs[i][1] * w2 + b) == y[i]
  }

  /** Some threshold unit reproduces the labels. */
  ghost predicate LinearlySeparable(y: Vector)
    requires |y| == 4
  {
    exists w1: real, w2: real, b: real :: ReproducedBy(w1, w2, b, y)
  }

  /** The four row constraints a threshold unit must meet, written out. */
  lemma RowConstraints(w1: real, w2: real, b: real, y: Vector)
    requires |y| == 4
    ensures ReproducedBy(w1, w2, b, y) <==>
      && Activation.Step(b) == y[0]
      && Activation.Step(w2 + b) == y[1]
      && Activation.Step(w1 + b) == y[2]
      && Activation.Step(w1 + w2 + b) == y[3]
  {
    assert Inputs[0] == [0.0, 0.0] && Inputs[1] == [0.0, 1.0];
    assert Inputs[2] == [1.0, 0.0] && Inputs[3] == [1.0, 1.0];
  }

  /** No threshold unit reproduces XOR: its four row constraints are inconsistent. */
  lemma XorNotSeparable(w1: real, w2: real, b: real)
    ensures !ReproducedBy(w1, w2, b, GateLabels("XOR").value)
  {
    RowConstraints(w1, w2, b, GateLabels("XOR").value);
  }

  /** No threshold unit reproduces XNOR. */
  lemma XnorNotSeparable(w1: real, w2: real, b: real)
    ensures !ReproducedBy(w1, w2, b, GateLabels("XNOR").value)
  {
    RowConstraints(w1, w2, b, GateLabels("XNOR").value);
  }

  /**
   * The separability table is correct: a gate is marked True exactly when
   * some threshold unit reproduces its labels.
   */
  lemma SeparabilityTableIsCorrect(gate: string)
    requires gate in GateNames
    ensures |GateLabels(gate).value| == 4
    ensures AnalyzeLinearSeparability()[gate] <==> LinearlySeparable(GateLabels(gate).value)
  {
    var y := GateLabels(gate).value;
    if gate == "AND" {
      assert ReproducedBy(1.0, 1.0, -1.5, y);
    } else if gate == "OR" {
      assert ReproducedBy(1.0, 1.0, -0.5, y);
    } else if gate == "NAND" {
      assert ReproducedBy(-1.0, -1.0, 1.5, y);
    } else if gate == "NOR" {
      assert ReproducedBy(-1.0, -1.0, 0.5, y);
    } else if gate == "XOR" {
      forall w1: real, w2: real, b: real
        ensures !ReproducedBy(w1, w2, b, y)
      {
        XorNotSeparable(w1, w2, b);
      }
    } else {
      forall w1: real, w2: real, b: real
        ensures !ReproducedBy(w1, w2, b, y)
      {
        XnorNotSeparable(w1, w2, b);
      }
    }
  }
}
