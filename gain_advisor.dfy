/**
 The gain-suggestion heuristic and the advisory text that follows it. Both
 tuning scripts carry this code word for word (app.py lines 36-67 and
 appr1.py lines 9-40): from the logged Feedback and Setpoint columns they
 derive the error, the mean absolute change of feedback and of error, a
 suggested Kp (their ratio, guarded by an epsilon) and Ki (a tenth of Kp),
 the average absolute error, and three banded classifications.

 A pandas NaN is a `Scalar.NaN`: with fewer than two rows the means of the
 differenced columns are NaN, and so are both suggested gains.
 */
module GainAdvisor {
  import opened Numeric

  /** The guard added to the Kp denominator. */
  const EPSILON: real := 0.000001

  /** `error = Setpoint - Feedback`, row by row. */
  function Errors(feedback: seq<real>, setpoint: seq<real>): (e: seq<real>)
    requires |feedback| == |setpoint|
    ensures |e| == |feedback|
    ensures forall i :: 0 <= i < |e| ==> e[i] == setpoint[i] - feedback[i]
  {
    seq(|feedback|, i requires 0 <= i < |feedback| => setpoint[i] - feedback[i])
  }

  /**
   `column.diff().abs().mean()`: the mean absolute change between consecutive
   rows, NaN when there is no pair of rows.
   */
  function MeanAbsChange(column: seq<real>): (m: Scalar)
    ensures m.Num? <==> |column| >= 2
    ensures m.Num? ==> m.value >= 0.0
  {
    Mean(AbsAll(Diff(column)))
  }

  /** `delta_error / (delta_fb + 1e-6)`, the suggested Kp before rounding. */
  function RawKp(feedback: seq<real>, setpoint: seq<real>): (r: real)
    requires |feedback| == |setpoint| >= 2
    ensures r >= 0.0
  {
    var deltaFb := MeanAbsChange(feedback).value;
    var deltaError := MeanAbsChange(Errors(feedback, setpoint)).value;
    deltaError / (deltaFb + EPSILON)
  }

  /**
   `suggested_Kp = round(delta_error / (delta_fb + 1e-6), 2)`. Below two rows
   both deltas are NaN, and so is every step after them.
   */
  function SuggestedKp(feedback: seq<real>, setpoint: seq<real>): (kp: Scalar)
    requires |feedback| == |setpoint|
    ensures kp.Num? <==> |feedback| >= 2
    ensures kp.Num? ==> kp.value >= 0.0
    ensures kp.Num? ==> -0.005 <= kp.value - RawKp(feedback, setpoint) <= 0.005
  {
    if |feedback| < 2 then NaN
    else
      RoundTwoDigits(RawKp(feedback, setpoint));
      Num(Round(RawKp(feedback, setpoint), 2))
  }

  /** `suggested_Ki = round(suggested_Kp / 10, 3)`: NaN stays NaN. */
  function SuggestedKi(kp: Scalar): (ki: Scalar)
    ensures ki.Num? <==> kp.Num?
    ensures ki.Num? ==> -0.0005 <= ki.value - kp.value / 10.0 <= 0.0005
  {
    match kp
    case NaN => NaN
    case Num(v) =>
      RoundThreeDigits(v / 10.0);
      Num(Round(v / 10.0, 3))
  }

  /**
   A Kp already rounded to hundredths, divided by ten, lies on the grid of
   thousandths, so the second rounding changes nothing: the suggested Ki is
   exactly a tenth of the suggested Kp.
   */
  lemma KiIsTenthOfKp(feedback: seq<real>, setpoint: seq<real>)
    requires |feedback| == |setpoint| >= 2
    ensures SuggestedKi(SuggestedKp(feedback, setpoint)) == Num(SuggestedKp(feedback, setpoint).value / 10.0)
  {
    var raw := RawKp(feedback, setpoint);
    var kp := Round(raw, 2);
    RoundTwoDigits(raw);
    var m := RoundHalfEven(raw * 100.0);
    assert kp / 10.0 == m as real / 1000.0;
    RoundThreeOnGrid(m);
  }

  /**
   When every row has the same setpoint, each change of the error is the
   negated change of feedback, so both deltas agree and the raw Kp is
   `delta_fb / (delta_fb + 1e-6)`, strictly below one.
   */
  lemma ConstantSetpoint(feedback: seq<real>, setpoint: seq<real>)
    requires |feedback| == |setpoint| >= 2
    requires forall i :: 0 <= i < |setpoint| ==> setpoint[i] == setpoint[0]
    ensures MeanAbsChange(Errors(feedback, setpoint)) == MeanAbsChange(feedback)
    ensures RawKp(feedback, setpoint)
         == MeanAbsChange(feedback).value / (MeanAbsChange(feedback).value + EPSILON)
    ensures RawKp(feedback, setpoint) < 1.0
  {
    var e := Errors(feedback, setpoint);
    var de := AbsAll(Diff(e));
    var df := AbsAll(Diff(feedback));
    assert |de| == |df|;
    forall i | 0 <= i < |df|
      ensures de[i] == df[i]
    {
      assert Diff(e)[i] == -Diff(feedback)[i];
    }
    assert de == df;
    var d := MeanAbsChange(feedback).value;
    RatioBelowOne(d, d + EPSILON);
  }

  lemma RatioBelowOne(a: real, b: real)
    requires 0.0 <= a < b
    ensures a / b < 1.0
  {
  }

  /** `avg_error = error.abs().mean()`: NaN only for an empty log. */
  function AverageError(feedback: seq<real>, setpoint: seq<real>): (avg: Scalar)
    requires |feedback| == |setpoint|
    ensures avg.Num? <==> |feedback| >= 1
    ensures avg.Num? ==> avg.value >= 0.0
  {
    Mean(AbsAll(Errors(feedback, setpoint)))
  }

  /** The three messages about the average error. */
  datatype ErrorBand = Stable | Moderate | LargeError

  /**
   The `if / elif / else` on the average error. A NaN average fails both
   comparisons and lands in the last branch.
   */
  function Band(avgError: Scalar): (b: ErrorBand)
    ensures b == Stable <==> avgError.Num? && avgError.value < 0.5
    ensures b == Moderate <==> avgError.Num? && 0.5 <= avgError.value < 2.0
    ensures b == LargeError <==> avgError.NaN? || avgError.value >= 2.0
  {
    if Below(avgError, 0.5) then Stable
    else if Below(avgError, 2.0) then Moderate
    else LargeError
  }

  function BandRank(b: ErrorBand): nat {
    match b
    case Stable => 0
    case Moderate => 1
    case LargeError => 2
  }

  /** A larger average error never earns a calmer message. */
  lemma BandMonotone(x: real, y: real)
    requires x <= y
    ensures BandRank(Band(Num(x))) <= BandRank(Band(Num(y)))
  {
  }

  /** The optional message about one gain: too strong, too small, or none. */
  datatype GainAdvice = Strong | Small | NoAdvice

  /** `if suggested_Kp > 5 ... elif suggested_Kp < 0.5 ...` */
  function KpAdvice(kp: Scalar): (a: GainAdvice)
    ensures a == Strong <==> kp.Num? && kp.value > 5.0
    ensures a == Small <==> kp.Num? && kp.value < 0.5
    ensures a == NoAdvice <==> kp.NaN? || 0.5 <= kp.value <= 5.0
  {
    if Above(kp, 5.0) then Strong
    else if Below(kp, 0.5) then Small
    else NoAdvice
  }

  /** `if suggested_Ki > 1 ... elif suggested_Ki < 0.05 ...` */
  function KiAdvice(ki: Scalar): (a: GainAdvice)
    ensures a == Strong <==> ki.Num? && ki.value > 1.0
    ensures a == Small <==> ki.Num? && ki.value < 0.05
    ensures a == NoAdvice <==> ki.NaN? || 0.05 <= ki.value <= 1.0
  {
    if Above(ki, 1.0) then Strong
    else if Below(ki, 0.05) then Small
    else NoAdvice
  }

  /** Everything the analysis section of a script derives from one log. */
  datatype Analysis = Analysis(
    kp: Scalar,
    ki: Scalar,
    avgError: Scalar,
    band: ErrorBand,
    kpAdvice: GainAdvice,
    kiAdvice: GainAdvice)

  /**
   The whole analysis section. Because Ki is exactly Kp / 10, the two gain
   messages are tied: Ki is flagged small exactly when Kp is, and a strong Ki
   (Kp above 10) always comes with a strong Kp.
   */
  function Analyze(feedback: seq<real>, setpoint: seq<real>): (a: Analysis)
    requires |feedback| == |setpoint|
    ensures a.kp.Num? <==> |feedback| >= 2
    ensures a.ki.Num? <==> |feedback| >= 2
    ensures a.kp.Num? ==> a.kp.value >= 0.0 && a.ki.value == a.kp.value / 10.0
    ensures a.kiAdvice == Small <==> a.kpAdvice == Small
    ensures a.kiAdvice == Strong ==> a.kpAdvice == Strong
    ensures a.avgError.NaN? <==> |feedback| == 0
    ensures |feedback| == 0 ==> a.band == LargeError
  {
    var kp := SuggestedKp(feedback, setpoint);
    var ki := SuggestedKi(kp);
    var avg := AverageError(feedback, setpoint);
    assert kp.Num? ==> ki == Num(kp.value / 10.0) by {
      if kp.Num? {
        KiIsTenthOfKp(feedback, setpoint);
      }
    }
    Analysis(kp, ki, avg, Band(avg), KpAdvice(kp), KiAdvice(ki))
  }

  /**
   The CSV template app.py offers for download: feedback 22.0, 22.1, 22.3
   against a setpoint of 24.0. Both deltas are 0.15, Kp rounds to 1.0, Ki is
   0.1, the average error 28/15 is moderate and neither gain is flagged.
   */
  lemma TemplateAnalysis()
    ensures Analyze([22.0, 22.1, 22.3], [24.0, 24.0, 24.0])
         == Analysis(Num(1.0), Num(0.1), Num(28.0 / 15.0), Moderate, NoAdvice, NoAdvice)
  {
    var fb := [22.0, 22.1, 22.3];
    var sp := [24.0, 24.0, 24.0];
    assert Diff(fb) == [0.1, 0.2];
    assert AbsAll(Diff(fb)) == [0.1, 0.2];
    assert Sum([0.1, 0.2]) == 0.3 by {
      assert [0.1, 0.2][..1] == [0.1];
      assert [0.1][..0] == [];
    }
    assert MeanAbsChange(fb) == Num(0.15);
    ConstantSetpoint(fb, sp);
    var raw := RawKp(fb, sp);
    assert raw == 0.15 / 0.150001;
    RoundTwoDigits(raw);
    assert (raw * 100.0).Floor == 99;
    assert Round(raw, 2) == 1.0;
    RoundThreeOnGrid(100);
    assert SuggestedKi(Num(1.0)) == Num(0.1);
    var e := Errors(fb, sp);
    assert AbsAll(e) == [2.0, 1.9, 1.7];
    assert Sum([2.0, 1.9, 1.7]) == 5.6 by {
      assert [2.0, 1.9, 1.7][..2] == [2.0, 1.9];
      assert [2.0, 1.9][..1] == [2.0];
      assert [2.0][..0] == [];
    }
  }
}
