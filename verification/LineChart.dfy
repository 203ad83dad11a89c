/**
 * The integer logic of the line chart: the text shown for the smallest and
 * largest value, the scale derived from the values, and which x-axis
 * labels are drawn at a given chart width.
 */
module LineChart {
  import opened Js
  import Arith

  /** `q` is `a / b` rounded to the nearest integer, halves rounded up. */
  predicate Nearest(q: int, a: int, b: int) {
    q * (2 * b) - b <= 2 * a < q * (2 * b) + b
  }

  /** A decimal number followed by `unit`, and that number. */
  predicate HasUnit(r: string, unit: string) {
    |r| > |unit| && r[|r| - |unit|..] == unit && AllDigits(r[..|r| - |unit|])
  }

  function NumberPart(r: string, unit: string): nat
    requires HasUnit(r, unit)
  {
    DigitsValue(r[..|r| - |unit|])
  }

  /** `formatValue`: minutes from one minute on, seconds from one second on, the bare number below. */
  function FormatValue(value: int): (r: string)
    ensures value >= 60000 ==> HasUnit(r, " min") && Nearest(NumberPart(r, " min"), value, 60000)
    ensures 1000 <= value < 60000 ==>
              HasUnit(r, " sec") && Nearest(NumberPart(r, " sec"), value, 1000) && 1 <= NumberPart(r, " sec") <= 60
    ensures 0 <= value < 1000 ==> AllDigits(r) && DigitsValue(r) == value
    ensures value < 0 ==> |r| >= 2 && r[0] == '-'
  {
    if value >= 60000 then
      var s := NatToString(Round(value, 60000));
      var r := s + " min";
      assert r[..|r| - 4] == s;
      r
    else if value >= 1000 then
      var s := NatToString(Round(value, 1000));
      var r := s + " sec";
      assert r[..|r| - 4] == s;
      r
    else IntToString(value)
  }

  lemma FormatValueExamples()
    ensures FormatValue(59_999) == "60 sec"
    ensures FormatValue(90_000) == "2 min"
    ensures FormatValue(999) == "999"
  {
    assert Round(59_999, 1000) == 60;
    assert NatToString(6) == "6";
    assert NatToString(60) == "60";
    assert Round(90_000, 60000) == 2;
    assert NatToString(2) == "2";
    assert NatToString(9) == "9";
    assert NatToString(99) == "99";
    assert NatToString(999) == "999";
  }

  // ---------------------------------------------------------------------
  // Scale

  function SeqMin(s: seq<int>): (m: int)
    requires |s| > 0
    ensures m in s && forall i :: 0 <= i < |s| ==> m <= s[i]
  {
    if |s| == 1 then s[0]
    else
      var rest := SeqMin(s[..|s| - 1]);
      assert forall i :: 0 <= i < |s| - 1 ==> s[..|s| - 1][i] == s[i];
      Min(rest, s[|s| - 1])
  }

  function SeqMax(s: seq<int>): (m: int)
    requires |s| > 0
    ensures m in s && forall i :: 0 <= i < |s| ==> s[i] <= m
  {
    if |s| == 1 then s[0]
    else
      var rest := SeqMax(s[..|s| - 1]);
      assert forall i :: 0 <= i < |s| - 1 ==> s[..|s| - 1][i] == s[i];
      Max(rest, s[|s| - 1])
  }

  datatype Scale =
    | NoData
    | Scaled(min: int, max: int, range: int, showMaxLabel: bool)

  /**
   * No values: the "No data available" branch. Otherwise the smallest and
   * largest value, their distance (1 when they coincide, so that it can be
   * divided by), and whether the largest gets a label of its own.
   */
  function ScaleOf(values: seq<int>): (sc: Scale)
    ensures sc.NoData? <==> values == []
    ensures sc.Scaled? ==>
              && sc.min in values && sc.max in values
              && (forall i :: 0 <= i < |values| ==> sc.min <= values[i] <= sc.max)
              && sc.range == (if sc.max == sc.min then 1 else sc.max - sc.min)
              && (sc.showMaxLabel <==> exists i :: 0 <= i < |values| && values[i] != values[0])
  {
    if values == [] then NoData
    else
      var lo, hi := SeqMin(values), SeqMax(values);
      assert hi == lo ==> forall i :: 0 <= i < |values| ==> values[i] == values[0];
      assert hi != lo ==> exists i :: 0 <= i < |values| && values[i] != values[0] by {
        if hi != lo {
          var i :| 0 <= i < |values| && values[i] == hi;
          var j :| 0 <= j < |values| && values[j] == lo;
          assert values[i] != values[0] || values[j] != values[0];
        }
      }
      Scaled(lo, hi, if hi - lo == 0 then 1 else hi - lo, hi != lo)
  }

  // ---------------------------------------------------------------------
  // X-axis labels

  /** `Math.min(7, Math.floor(width / 40))`: how many labels fit at `width` pixels. */
  function VisibleLabels(width: int): (v: int)
    ensures v <= 7
    ensures v == 7 <==> width >= 280
    ensures v < 7 ==> v * 40 <= width < v * 40 + 40
  {
    Min(7, width / 40)
  }

  /**
   * Whether label `i` of `len` is drawn at `width` pixels. When no label
   * fits, `len / visible` is Infinity and `i % Infinity` is `i`, so only
   * the first is drawn; for a negative count the ceiling of the negative
   * quotient is used, and `i % -0` is NaN, which draws nothing.
   */
  function LabelShown(i: nat, len: nat, width: int): (shown: bool)
    ensures len <= VisibleLabels(width) ==> shown
    ensures 0 < VisibleLabels(width) < len ==> (shown <==> i % Arith.CeilDiv(len, VisibleLabels(width)) == 0)
    ensures VisibleLabels(width) == 0 < len ==> (shown <==> i == 0)
    ensures VisibleLabels(width) < 0 && len < -VisibleLabels(width) ==> !shown
  {
    var visible := VisibleLabels(width);
    if len <= visible then true
    else if visible > 0 then i % Arith.CeilDiv(len, visible) == 0
    else if visible == 0 then i == 0
    else
      var k := len / (-visible);
      k != 0 && i % k == 0
  }

  /** How many of the labels `0 .. n - 1` are drawn. */
  function ShownBelow(n: nat, len: nat, width: int): nat {
    if n == 0 then 0 else ShownBelow(n - 1, len, width) + (if LabelShown(n - 1, len, width) then 1 else 0)
  }

  function MultiplesBelow(n: nat, k: int): nat
    requires k >= 1
  {
    if n == 0 then 0 else MultiplesBelow(n - 1, k) + (if (n - 1) % k == 0 then 1 else 0)
  }

  lemma {:induction false} MultiplesBelowCount(n: nat, k: int)
    requires k >= 1
    ensures MultiplesBelow(n, k) == Arith.CeilDiv(n, k)
  {
    if n > 0 {
      MultiplesBelowCount(n - 1, k);
      Arith.CeilDivStep(n - 1, k);
    }
  }

  lemma {:induction false} ShownAreMultiples(n: nat, len: nat, width: int)
    requires 0 < VisibleLabels(width) < len
    ensures ShownBelow(n, len, width) == MultiplesBelow(n, Arith.CeilDiv(len, VisibleLabels(width)))
  {
    if n > 0 {
      ShownAreMultiples(n - 1, len, width);
    }
  }

  lemma {:induction false} AllShown(n: nat, len: nat, width: int)
    requires len <= VisibleLabels(width)
    ensures ShownBelow(n, len, width) == n
  {
    if n > 0 {
      AllShown(n - 1, len, width);
    }
  }

  /** Spacing labels `ceil(len / visible)` apart keeps at most `visible` of them. */
  lemma CeilOfCeil(len: nat, v: int)
    requires v >= 1 && len > v
    ensures Arith.CeilDiv(len, Arith.CeilDiv(len, v)) <= v
  {
    var k := Arith.CeilDiv(len, v);
    var c := Arith.CeilDiv(len, k);
    assert len <= k * v;
    assert (c - 1) * k < len;
    assert (c - 1) * k == (c - v) * k + v * k - k;
    assert (c - v) * k < k;
    Arith.MulMonotone(c - v, k);
  }

  /**
   * The first label is drawn whenever at least one fits (and also when none
   * does), every label is drawn when they all fit, and never more labels
   * are drawn than fit.
   */
  lemma LabelThinning(len: nat, width: int)
    ensures len > 0 && VisibleLabels(width) >= 0 ==> LabelShown(0, len, width)
    ensures len <= VisibleLabels(width) ==> forall i: nat :: i < len ==> LabelShown(i, len, width)
    ensures VisibleLabels(width) >= 1 ==> ShownBelow(len, len, width) <= VisibleLabels(width)
  {
    var v := VisibleLabels(width);
    if v >= 1 {
      if len <= v {
        AllShown(len, len, width);
      } else {
        var k := Arith.CeilDiv(len, v);
        ShownAreMultiples(len, len, width);
        MultiplesBelowCount(len, k);
        CeilOfCeil(len, v);
      }
    }
  }
}
