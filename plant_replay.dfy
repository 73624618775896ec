/**
 The first-order plant replay appr1.py plots against the log (lines 46-55).
 Starting from the first logged feedback with a zero integral term, every
 row's setpoint drives one step of a simple loop: the error against the
 simulated feedback, an unscaled and unclamped integral `I += Ki * e`, and a
 plant that moves by a tenth of `Kp * e + I`. The list built this way has one
 entry more than the log and is cut back to the log's length.
 */
module PlantReplay {
  import opened Numeric

  /** What the replay loop carries from one row to the next. */
  datatype PlantState = PlantState(feedback: real, iTerm: real)

  /**
   One pass of the loop body against setpoint `sp`; the plant moves by a
   fixed tenth of the controller effort.
   */
  function Step(s: PlantState, sp: real, kp: real, ki: real): PlantState {
    var e := sp - s.feedback;
    var iTerm := s.iTerm + ki * e;
    PlantState(s.feedback + 0.1 * (kp * e + iTerm), iTerm)
  }

  /** The state after the first `k` setpoints, starting from feedback `start`. */
  function StateAt(setpoint: seq<real>, kp: real, ki: real, start: real, k: nat): PlantState
    requires k <= |setpoint|
  {
    if k == 0 then PlantState(start, 0.0)
    else Step(StateAt(setpoint, kp, ki, start, k - 1), setpoint[k - 1], kp, ki)
  }

  /** The error `e` the loop computes at row `k`. */
  function ErrorAt(setpoint: seq<real>, kp: real, ki: real, start: real, k: nat): real
    requires k < |setpoint|
  {
    setpoint[k] - StateAt(setpoint, kp, ki, start, k).feedback
  }

  /** The errors of the first `k` rows. */
  function ErrorsUpTo(setpoint: seq<real>, kp: real, ki: real, start: real, k: nat): (es: seq<real>)
    requires k <= |setpoint|
    ensures |es| == k
    ensures forall j :: 0 <= j < k ==> es[j] == ErrorAt(setpoint, kp, ki, start, j)
  {
    seq(k, j requires 0 <= j < k => ErrorAt(setpoint, kp, ki, start, j))
  }

  /** One pass of the loop body, in the terms the method computes them. */
  lemma StepUnfolds(setpoint: seq<real>, kp: real, ki: real, start: real, n: nat, e: real)
    requires n < |setpoint|
    requires e == setpoint[n] - StateAt(setpoint, kp, ki, start, n).feedback
    ensures StateAt(setpoint, kp, ki, start, n + 1).iTerm
         == StateAt(setpoint, kp, ki, start, n).iTerm + ki * e
    ensures StateAt(setpoint, kp, ki, start, n + 1).feedback
         == StateAt(setpoint, kp, ki, start, n).feedback
            + 0.1 * (kp * e + StateAt(setpoint, kp, ki, start, n + 1).iTerm)
  {
  }

  /**
   The replay of appr1.py lines 46-55. An empty log has no first feedback
   (`iloc[0]` raises), which is `None`. Otherwise the loop runs once per row,
   since `zip` pairs the setpoints with a list as long as the log whose
   elements it never reads, and the result keeps the first `|feedback|`
   simulated values, the first being the logged one.
   */
  method Replay(feedback: seq<real>, setpoint: seq<real>, kp: real, ki: real)
    returns (simulated: Option<seq<real>>)
    requires |feedback| == |setpoint|
    ensures simulated.None? <==> |feedback| == 0
    ensures simulated.Some? ==> |simulated.value| == |feedback|
    ensures simulated.Some? ==> simulated.value[0] == feedback[0]
    ensures simulated.Some? ==>
              forall k :: 0 <= k < |feedback| ==>
                simulated.value[k] == StateAt(setpoint, kp, ki, feedback[0], k).feedback
  {
    if |feedback| == 0 {
      return None;
    }
    var simFeedback := [feedback[0]];
    var iTerm := 0.0;
    var paired := simFeedback[|simFeedback| - 1..] + feedback[1..];
    var steps := if |setpoint| < |paired| then |setpoint| else |paired|;
    var n := 0;
    while n < steps
      invariant steps == |feedback|
      invariant 0 <= n <= steps
      invariant |simFeedback| == n + 1
      invariant forall k :: 0 <= k <= n ==>
                  simFeedback[k] == StateAt(setpoint, kp, ki, feedback[0], k).feedback
      invariant iTerm == StateAt(setpoint, kp, ki, feedback[0], n).iTerm
    {
      var sp := setpoint[n];
      var e := sp - simFeedback[|simFeedback| - 1];
      var p := kp * e;
      iTerm := iTerm + ki * e;
      var newFb := simFeedback[|simFeedback| - 1] + 0.1 * (p + iTerm);
      StepUnfolds(setpoint, kp, ki, feedback[0], n, e);
      simFeedback := simFeedback + [newFb];
      n := n + 1;
    }
    simulated := Some(simFeedback[..|feedback|]);
  }

  /** One row adds `Ki * e` to the replay's integral term. */
  lemma IntegralStep(setpoint: seq<real>, kp: real, ki: real, start: real, j: nat)
    requires j < |setpoint|
    ensures StateAt(setpoint, kp, ki, start, j + 1).iTerm
         == StateAt(setpoint, kp, ki, start, j).iTerm + ki * ErrorAt(setpoint, kp, ki, start, j)
  {
    StepUnfolds(setpoint, kp, ki, start, j, ErrorAt(setpoint, kp, ki, start, j));
  }

  /** The amounts `Ki * e` the first `k` rows add to the integral term. */
  function IncrementsUpTo(setpoint: seq<real>, kp: real, ki: real, start: real, k: nat): (incs: seq<real>)
    requires k <= |setpoint|
    ensures |incs| == k
    ensures forall j :: 0 <= j < k ==> incs[j] == ki * ErrorAt(setpoint, kp, ki, start, j)
  {
    seq(k, j requires 0 <= j < k => ki * ErrorAt(setpoint, kp, ki, start, j))
  }

  /** The increments of `j + 1` rows are those of `j` rows and one more. */
  lemma IncrementsUpToAppend(setpoint: seq<real>, kp: real, ki: real, start: real, j: nat)
    requires j < |setpoint|
    ensures IncrementsUpTo(setpoint, kp, ki, start, j + 1)
         == IncrementsUpTo(setpoint, kp, ki, start, j) + [ki * ErrorAt(setpoint, kp, ki, start, j)]
  {
  }

  /** Summing the increments is summing the errors and scaling by Ki. */
  lemma IncrementSumIsScaledErrorSum(setpoint: seq<real>, kp: real, ki: real, start: real, k: nat)
    requires k <= |setpoint|
    ensures Sum(IncrementsUpTo(setpoint, kp, ki, start, k)) == ki * Sum(ErrorsUpTo(setpoint, kp, ki, start, k))
  {
    var es := ErrorsUpTo(setpoint, kp, ki, start, k);
    var incs := IncrementsUpTo(setpoint, kp, ki, start, k);
    assert forall j :: 0 <= j < k ==> incs[j] == ki * es[j];
    SumScaled(es, incs, ki);
  }

  /** The replay's integral term is the plain sum of the increments so far. */
  lemma {:induction false} IntegralIsIncrementSum(setpoint: seq<real>, kp: real, ki: real, start: real, k: nat)
    requires k <= |setpoint|
    ensures StateAt(setpoint, kp, ki, start, k).iTerm == Sum(IncrementsUpTo(setpoint, kp, ki, start, k))
  {
    if k > 0 {
      IntegralIsIncrementSum(setpoint, kp, ki, start, k - 1);
      IncrementsUpToAppend(setpoint, kp, ki, start, k - 1);
      SumAppend(IncrementsUpTo(setpoint, kp, ki, start, k - 1), ki * ErrorAt(setpoint, kp, ki, start, k - 1));
      IntegralStep(setpoint, kp, ki, start, k - 1);
    }
  }

  /**
   The replay's integral term is Ki times the sum of the errors seen so far:
   it is neither divided by 60 nor clamped.
   */
  lemma IntegralIsScaledErrorSum(setpoint: seq<real>, kp: real, ki: real, start: real, k: nat)
    requires k <= |setpoint|
    ensures StateAt(setpoint, kp, ki, start, k).iTerm == ki * Sum(ErrorsUpTo(setpoint, kp, ki, start, k))
  {
    IntegralIsIncrementSum(setpoint, kp, ki, start, k);
    IncrementSumIsScaledErrorSum(setpoint, kp, ki, start, k);
  }

  /**
   A log whose every setpoint equals its first feedback is an equilibrium:
   the replay stays on that value and the integral term stays 0.
   */
  lemma {:induction false} SetpointAtStartIsEquilibrium(setpoint: seq<real>, kp: real, ki: real, start: real, k: nat)
    requires forall j :: 0 <= j < |setpoint| ==> setpoint[j] == start
    requires k <= |setpoint|
    ensures StateAt(setpoint, kp, ki, start, k) == PlantState(start, 0.0)
  {
    if k > 0 {
      SetpointAtStartIsEquilibrium(setpoint, kp, ki, start, k - 1);
    }
  }
}
