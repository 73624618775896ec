/**
 The controller-output simulation app.py draws under its analysis
 (lines 71-78). It walks the Feedback column once, measuring every row
 against the FIRST row's setpoint, accumulates `Ki * E / 60` into an
 integral clipped to [-100, 100] (starting from 0), and appends
 `Kp * E + I + 50` to the output list.
 */
module OutputSimulation {
  import opened Numeric

  /** The symmetric clip applied to the running integral. */
  const INTEGRAL_LIMIT: real := 100.0

  /** The fixed mid-scale bias added to every output. */
  const OUTPUT_BIAS: real := 50.0

  /** `E_step` at row `k`: the first row's setpoint minus that row's feedback. */
  function StepError(feedback: seq<real>, setpoint: seq<real>, k: nat): real
    requires |feedback| == |setpoint|
    requires k < |feedback|
  {
    setpoint[0] - feedback[k]
  }

  /** `I_inc` at row `k`: the per-minute gain applied over one second. */
  function Increment(feedback: seq<real>, setpoint: seq<real>, ki: real, k: nat): real
    requires |feedback| == |setpoint|
    requires k < |feedback|
  {
    (ki * StepError(feedback, setpoint, k)) / 60.0
  }

  /** `I_sim[k]`: the clipped integral once `k` rows have been processed. */
  function IntegralAt(feedback: seq<real>, setpoint: seq<real>, ki: real, k: nat): (i: real)
    requires |feedback| == |setpoint|
    requires k <= |feedback|
    ensures -INTEGRAL_LIMIT <= i <= INTEGRAL_LIMIT
  {
    if k == 0 then 0.0
    else
      Clip(IntegralAt(feedback, setpoint, ki, k - 1) + Increment(feedback, setpoint, ki, k - 1),
           -INTEGRAL_LIMIT, INTEGRAL_LIMIT)
  }

  /** `Output_sim[k]`: proportional part, clipped integral after row `k`, bias. */
  function OutputAt(feedback: seq<real>, setpoint: seq<real>, kp: real, ki: real, k: nat): real
    requires |feedback| == |setpoint|
    requires k < |feedback|
  {
    kp * StepError(feedback, setpoint, k) + IntegralAt(feedback, setpoint, ki, k + 1) + OUTPUT_BIAS
  }

  /** The running sum of the increments, with no clipping. */
  function UnclippedIntegral(feedback: seq<real>, setpoint: seq<real>, ki: real, k: nat): real
    requires |feedback| == |setpoint|
    requires k <= |feedback|
  {
    if k == 0 then 0.0
    else UnclippedIntegral(feedback, setpoint, ki, k - 1) + Increment(feedback, setpoint, ki, k - 1)
  }

  /**
   The loop of app.py lines 71-78: one integral per row on top of the initial
   0, one output per row, each integral inside the clip.
   */
  method Simulate(feedback: seq<real>, setpoint: seq<real>, kp: real, ki: real)
    returns (integrals: seq<real>, outputs: seq<real>)
    requires |feedback| == |setpoint|
    ensures |integrals| == |feedback| + 1
    ensures |outputs| == |feedback|
    ensures integrals[0] == 0.0
    ensures forall k :: 0 <= k <= |feedback| ==> integrals[k] == IntegralAt(feedback, setpoint, ki, k)
    ensures forall k :: 0 <= k <= |feedback| ==> -INTEGRAL_LIMIT <= integrals[k] <= INTEGRAL_LIMIT
    ensures forall k :: 0 <= k < |feedback| ==> outputs[k] == OutputAt(feedback, setpoint, kp, ki, k)
    ensures ki == 0.0 ==> forall k :: 0 <= k <= |feedback| ==> integrals[k] == 0.0
  {
    integrals := [0.0];
    outputs := [];
    var n := 0;
    while n < |feedback|
      invariant 0 <= n <= |feedback|
      invariant |integrals| == n + 1
      invariant |outputs| == n
      invariant forall k :: 0 <= k <= n ==> integrals[k] == IntegralAt(feedback, setpoint, ki, k)
      invariant forall k :: 0 <= k < n ==> outputs[k] == OutputAt(feedback, setpoint, kp, ki, k)
    {
      var fb := feedback[n];
      var eStep := setpoint[0] - fb;
      var iInc := (ki * eStep) / 60.0;
      var iNew := Clip(integrals[|integrals| - 1] + iInc, -INTEGRAL_LIMIT, INTEGRAL_LIMIT);
      var out := kp * eStep + iNew + OUTPUT_BIAS;
      StepUnfolds(feedback, setpoint, kp, ki, n, eStep);
      integrals := integrals + [iNew];
      outputs := outputs + [out];
      n := n + 1;
    }
    if ki == 0.0 {
      forall k | 0 <= k <= |feedback|
        ensures integrals[k] == 0.0
      {
        IntegralWithoutKi(feedback, setpoint, k);
      }
    }
  }

  /** One pass of the loop body, in the terms of the specification functions. */
  lemma StepUnfolds(feedback: seq<real>, setpoint: seq<real>, kp: real, ki: real, n: nat, e: real)
    requires |feedback| == |setpoint|
    requires n < |feedback|
    requires e == setpoint[0] - feedback[n]
    ensures IntegralAt(feedback, setpoint, ki, n + 1)
         == Clip(IntegralAt(feedback, setpoint, ki, n) + (ki * e) / 60.0, -INTEGRAL_LIMIT, INTEGRAL_LIMIT)
    ensures OutputAt(feedback, setpoint, kp, ki, n)
         == kp * e + IntegralAt(feedback, setpoint, ki, n + 1) + OUTPUT_BIAS
  {
  }

  /** With integral action off, the integral never leaves 0. */
  lemma {:induction false} IntegralWithoutKi(feedback: seq<real>, setpoint: seq<real>, k: nat)
    requires |feedback| == |setpoint|
    requires k <= |feedback|
    ensures IntegralAt(feedback, setpoint, 0.0, k) == 0.0
  {
    if k > 0 {
      IntegralWithoutKi(feedback, setpoint, k - 1);
    }
  }

  /**
   When every feedback sample sits on the first setpoint, the integral stays
   0 and every output is exactly the bias, whatever the gains.
   */
  lemma {:induction false} ZeroErrorHoldsBias(feedback: seq<real>, setpoint: seq<real>, kp: real, ki: real, k: nat)
    requires |feedback| == |setpoint|
    requires forall j :: 0 <= j < |feedback| ==> feedback[j] == setpoint[0]
    requires k < |feedback|
    ensures IntegralAt(feedback, setpoint, ki, k + 1) == 0.0
    ensures OutputAt(feedback, setpoint, kp, ki, k) == OUTPUT_BIAS
  {
    if k > 0 {
      ZeroErrorHoldsBias(feedback, setpoint, kp, ki, k - 1);
    }
  }

  /**
   As long as the unclipped running sum stays inside [-100, 100], the clip
   never acts and the integral is exactly the running sum of the increments.
   */
  lemma {:induction false} ClipInactive(feedback: seq<real>, setpoint: seq<real>, ki: real, k: nat)
    requires |feedback| == |setpoint|
    requires k <= |feedback|
    requires forall j :: 0 <= j <= k ==>
               -INTEGRAL_LIMIT <= UnclippedIntegral(feedback, setpoint, ki, j) <= INTEGRAL_LIMIT
    ensures IntegralAt(feedback, setpoint, ki, k) == UnclippedIntegral(feedback, setpoint, ki, k)
  {
    if k > 0 {
      ClipInactive(feedback, setpoint, ki, k - 1);
    }
  }

  /**
   With a non-negative gain and every row at or below the first setpoint,
   the integral never decreases from one row to the next.
   */
  lemma IntegralNonDecreasing(feedback: seq<real>, setpoint: seq<real>, ki: real, k: nat)
    requires |feedback| == |setpoint|
    requires ki >= 0.0
    requires k < |feedback|
    requires feedback[k] <= setpoint[0]
    ensures IntegralAt(feedback, setpoint, ki, k) <= IntegralAt(feedback, setpoint, ki, k + 1)
  {
    assert Increment(feedback, setpoint, ki, k) >= 0.0 by {
      assert StepError(feedback, setpoint, k) >= 0.0;
      NonNegativeProduct(ki, StepError(feedback, setpoint, k));
    }
  }

  lemma NonNegativeProduct(a: real, b: real)
    requires a >= 0.0 && b >= 0.0
    ensures a * b >= 0.0
  {
  }
}
