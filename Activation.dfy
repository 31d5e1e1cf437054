/**
 * The elementwise activation functions of the networks and their
 * derivatives (03-implementation/perceptron-example/src/activation.py).
 *
 * Sigmoid and tanh are transcendental: they are not computed here. A caller
 * supplies them as function values whose only known facts are their ranges,
 * (0, 1) for sigmoid and (-1, 1) for tanh. The derivative functions
 * take the ACTIVATION'S OUTPUT as their argument (`sigmoid_derivative(s)` is
 * `s * (1 - s)` for `s = sigmoid(x)`), as in the Python source.
 */
module Activation {

  /** Any function with the range of the logistic sigmoid. */
  type SigmoidFn = f: real -> real | forall x :: 0.0 < f(x) < 1.0 witness (x: real) => 0.5

  /** Any function with the range of the hyperbolic tangent. */
  type TanhFn = f: real -> real | forall x :: -1.0 < f(x) < 1.0 witness (x: real) => 0.0

  /** `step_function`: Heaviside step with threshold `x >= 0`, so it is 1 at exactly 0. */
  function Step(x: real): (r: real)
    ensures r == 0.0 || r == 1.0
    ensures r == 1.0 <==> x >= 0.0
  {
    if x >= 0.0 then 1.0 else 0.0
  }

  /** `sigmoid_derivative(s) = s * (1 - s)`, where `s` is a sigmoid output. */
  function SigmoidDerivative(s: real): (r: real)
    ensures 0.0 <= s <= 1.0 ==> 0.0 <= r <= 0.25
    ensures 0.0 < s < 1.0 ==> 0.0 < r
    ensures s == 0.0 || s == 1.0 ==> r == 0.0
  {
    SigmoidSlopeBounds(s);
    s * (1.0 - s)
  }

  /** The sigmoid derivative is symmetric about 1/2: `s` and `1 - s` give the same slope. */
  lemma SigmoidDerivativeSymmetric(s: real)
    ensures SigmoidDerivative(s) == SigmoidDerivative(1.0 - s)
  {
  }

  /** Applied to a sigmoid OUTPUT, the derivative lies in (0, 1/4]. */
  lemma SigmoidDerivativeOfOutput(sigmoid: SigmoidFn, x: real)
    ensures 0.0 < SigmoidDerivative(sigmoid(x)) <= 0.25
  {
  }

  /** `tanh_derivative(t) = 1 - t**2`, where `t` is a tanh output. */
  function TanhDerivative(t: real): (r: real)
    ensures -1.0 < t < 1.0 ==> 0.0 < r <= 1.0
    ensures t == 0.0 ==> r == 1.0
  {
    TanhSlopeBounds(t);
    1.0 - t * t
  }

  /** Applied to a tanh OUTPUT, the derivative lies in (0, 1]. */
  lemma TanhDerivativeOfOutput(tanh: TanhFn, x: real)
    ensures 0.0 < TanhDerivative(tanh(x)) <= 1.0
  {
  }

  /** `relu(x) = max(0, x)`. */
  function Relu(x: real): (r: real)
    ensures r >= 0.0
    ensures x >= 0.0 ==> r == x
    ensures x < 0.0 ==> r == 0.0
  {
    if x > 0.0 then x else 0.0
  }

  lemma ReluIdempotent(x: real)
    ensures Relu(Relu(x)) == Relu(x)
  {
  }

  /** `relu_derivative(x)`: 1 exactly when `x > 0`, so 0 at `x = 0`. */
  function ReluDerivative(x: real): (r: real)
    ensures r == 0.0 || r == 1.0
    ensures r == 1.0 <==> x > 0.0
  {
    if x > 0.0 then 1.0 else 0.0
  }

  lemma SigmoidSlopeBounds(s: real)
    ensures 0.0 <= s <= 1.0 ==> 0.0 <= s * (1.0 - s) <= 0.25
    ensures 0.0 < s < 1.0 ==> 0.0 < s * (1.0 - s)
  {
    var d := s - 0.5;
    assert s * (1.0 - s) == 0.25 - d * d;
    assert d * d >= 0.0;
    if 0.0 < s < 1.0 {
      assert 0.0 < 1.0 - s;
    }
  }

  lemma TanhSlopeBounds(t: real)
    ensures t * t >= 0.0
    ensures -1.0 < t < 1.0 ==> t * t < 1.0
  {
    if t >= 0.0 {
      if t < 1.0 {
        MulMonotone(t, t, 1.0);
      }
    } else {
      var u := -t;
      assert t * t == u * u;
      if u < 1.0 {
        MulMonotone(u, u, 1.0);
      }
    }
  }

  lemma MulPositive(a: real, b: real)
    requires a > 0.0 && b > 0.0
    ensures a * b > 0.0
  {
  }

  lemma MulMonotone(a: real, b: real, c: real)
    requires a >= 0.0 && b <= c
    ensures a * b <= a * c
  {
  }
}
