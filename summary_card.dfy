/** The end-of-session card: the mean score rounded to one decimal place, the verdict and
    its colour derived from that rounded mean, and one breakdown row per score. */
module SummaryCard {
  import opened Protocol

  const Outstanding := "Outstanding"
  const SolidPerformance := "Solid Performance"
  const NeedsPractice := "Needs Practice"
  const KeepGrinding := "Keep Grinding"

  const Verdicts := {Outstanding, SolidPerformance, NeedsPractice, KeepGrinding}

  const Green := "bg-green-100 text-green-800 border-green-200"
  const Blue := "bg-blue-100 text-blue-800 border-blue-200"
  const Yellow := "bg-yellow-100 text-yellow-800 border-yellow-200"
  const Red := "bg-red-100 text-red-800 border-red-200"

  /** `scores.reduce((a, b) => a + b, 0)`: a left fold. Scores on the 0 to 10 scale add
      up to at most ten per score. */
  function Sum(scores: seq<int>): (total: int)
    ensures (forall i :: 0 <= i < |scores| ==> 0 <= scores[i] <= 10) ==> 0 <= total <= 10 * |scores|
  {
    if scores == [] then 0 else Sum(scores[..|scores| - 1]) + scores[|scores| - 1]
  }

  lemma {:induction false} SumBounds(scores: seq<int>, lo: int, hi: int)
    requires forall i :: 0 <= i < |scores| ==> lo <= scores[i] <= hi
    ensures lo * |scores| <= Sum(scores) <= hi * |scores|
  {
    if scores != [] {
      var n := |scores|;
      var init := scores[..n - 1];
      assert forall i :: 0 <= i < |init| ==> init[i] == scores[i];
      SumBounds(init, lo, hi);
      MulStep(lo, n);
      MulStep(hi, n);
    }
  }

  lemma MulStep(x: int, n: int)
    ensures x * n == x * (n - 1) + x
  {
  }

  /** The tenths of `Number.prototype.toFixed(1)` applied to `num / den` (section
      21.1.3.3 of ECMA-262): the magnitude is rounded to the nearest tenth with ties going
      up, and the sign is put back, so negative ties go away from zero. */
  function RoundTenths(num: int, den: int): (t: int)
    requires den > 0
    ensures num >= 0 ==> 0 <= t && 2 * t * den - den <= 20 * num < 2 * t * den + den
    ensures num < 0 ==> t <= 0 && 2 * t * den - den < 20 * num <= 2 * t * den + den
  {
    if num >= 0 then HalfUpTenths(num, den) else -(HalfUpTenths(-num, den) as int)
  }

  function HalfUpTenths(num: nat, den: int): (t: nat)
    requires den > 0
    ensures 2 * t * den - den <= 20 * num < 2 * t * den + den
  {
    var q := (20 * num + den) / (2 * den);
    assert q * (2 * den) <= 20 * num + den < q * (2 * den) + 2 * den;
    q
  }

  /** The displayed average in tenths; None stands for NaN, the value `0 / 0` gives
      when there are no scores. */
  function AverageTenths(scores: seq<int>): (avg: Option<int>)
    ensures avg.None? <==> scores == []
    ensures avg.Some? ==> avg.value == RoundTenths(Sum(scores), |scores|)
  {
    if scores == [] then None else Some(RoundTenths(Sum(scores), |scores|))
  }

  /** `avg >= 8 ? ... : avg >= 6 ? ... : avg >= 4 ? ... : ...`; every comparison with NaN
      is false. */
  function Verdict(avg: Option<int>): (v: string)
    ensures v == Outstanding <==> avg.Some? && avg.value >= 80
    ensures v == SolidPerformance <==> avg.Some? && 60 <= avg.value < 80
    ensures v == NeedsPractice <==> avg.Some? && 40 <= avg.value < 60
    ensures v == KeepGrinding <==> avg.None? || avg.value < 40
  {
    if avg.Some? && avg.value >= 80 then Outstanding
    else if avg.Some? && avg.value >= 60 then SolidPerformance
    else if avg.Some? && avg.value >= 40 then NeedsPractice
    else KeepGrinding
  }

  /** The badge colour, computed from its own copy of the verdict's comparisons; it is
      always the colour of the verdict. */
  function VerdictColor(avg: Option<int>): (c: string)
    ensures c == ColorOf(Verdict(avg))
  {
    if avg.Some? && avg.value >= 80 then Green
    else if avg.Some? && avg.value >= 60 then Blue
    else if avg.Some? && avg.value >= 40 then Yellow
    else Red
  }

  function ColorOf(verdict: string): string {
    if verdict == Outstanding then Green
    else if verdict == SolidPerformance then Blue
    else if verdict == NeedsPractice then Yellow
    else Red
  }

  function VerdictRank(verdict: string): nat {
    if verdict == Outstanding then 3
    else if verdict == SolidPerformance then 2
    else if verdict == NeedsPractice then 1
    else 0
  }

  /** Each verdict comes with exactly one colour, and the four colours differ. */
  lemma ColorFollowsVerdict(avg: Option<int>)
    ensures VerdictColor(avg) == ColorOf(Verdict(avg))
    ensures forall v, w | v in Verdicts && w in Verdicts :: ColorOf(v) == ColorOf(w) ==> v == w
  {
  }

  /** A larger average never gets a lower verdict. */
  lemma VerdictMonotone(a: int, b: int)
    requires a <= b
    ensures VerdictRank(Verdict(Some(a))) <= VerdictRank(Verdict(Some(b)))
  {
  }

  /** Cancels a positive factor from both sides of an inequality. */
  lemma {:induction false} CancelFactor(a: int, b: int, n: int)
    requires n > 0 && a * n <= b * n
    ensures a <= b
  {
  }

  /** Scores on the 0 to 10 scale give an average on the same scale. */
  lemma AverageWithinScale(scores: seq<int>)
    requires scores != []
    requires forall i :: 0 <= i < |scores| ==> 0 <= scores[i] <= 10
    ensures AverageTenths(scores).Some? && 0 <= AverageTenths(scores).value <= 100
  {
    var n, s := |scores|, Sum(scores);
    SumBounds(scores, 0, 10);
    var t := RoundTenths(s, n);
    assert (2 * t - 1) * n == 2 * t * n - n;
    assert 201 * n == 200 * n + n;
    CancelFactor(2 * t - 1, 201, n);
  }

  /** [7, 9, 5] averages to 7.0: "Solid Performance", blue. */
  lemma SolidExample()
    ensures AverageTenths([7, 9, 5]) == Some(70)
    ensures Verdict(AverageTenths([7, 9, 5])) == SolidPerformance
    ensures VerdictColor(AverageTenths([7, 9, 5])) == Blue
  {
    assert [7, 9, 5][..2] == [7, 9] && [7, 9][..1] == [7] && [7][..0] == [];
  }

  /** [8, 8, 8] averages to 8.0: "Outstanding", the inclusive lower bound. */
  lemma OutstandingExample()
    ensures AverageTenths([8, 8, 8]) == Some(80)
    ensures Verdict(AverageTenths([8, 8, 8])) == Outstanding
  {
    assert [8, 8, 8][..2] == [8, 8] && [8, 8][..1] == [8] && [8][..0] == [];
  }

  /** The tier is read off the rounded average, not the raw mean: whenever the scores sum
      to one point below an all-8 session of twenty or more rounds, the raw mean is below
      8 but the verdict is "Outstanding". */
  lemma RoundedMeanDecidesTier(scores: seq<int>)
    requires |scores| >= 20 && Sum(scores) == 8 * |scores| - 1
    ensures Sum(scores) < 8 * |scores|
    ensures AverageTenths(scores) == Some(80)
    ensures Verdict(AverageTenths(scores)) == Outstanding
  {
    NearEightRoundsToEight(Sum(scores), |scores|, RoundTenths(Sum(scores), |scores|));
  }

  /** The arithmetic of `RoundedMeanDecidesTier`: (8n - 1) / n lies within half a tenth
      of 8 once n >= 20. */
  lemma NearEightRoundsToEight(s: int, n: int, t: int)
    requires n >= 20 && s == 8 * n - 1
    requires 2 * t * n - n <= 20 * s < 2 * t * n + n
    ensures t == 80
  {
    assert (2 * t - 1) * n == 2 * t * n - n && (2 * t + 1) * n == 2 * t * n + n;
    assert 161 * n - 20 == 20 * s + n;
    CancelFactor(2 * t - 1, 161, n);
    CancelFactor(159, 2 * t + 1, n);
  }

  /** The decimal digits of `n`, as template-literal interpolation writes them. */
  function Decimal(n: nat): (digits: string)
    ensures digits != []
    ensures forall i :: 0 <= i < |digits| ==> '0' <= digits[i] <= '9'
  {
    if n < 10 then [Digit(n)] else Decimal(n / 10) + [Digit(n % 10)]
  }

  function Digit(d: nat): (c: char)
    requires d < 10
    ensures '0' <= c <= '9' && c as int - '0' as int == d
  {
    (d + '0' as int) as char
  }

  /** Reads a string of decimal digits back into a number. */
  function ParseDecimal(digits: string): nat
    requires forall i :: 0 <= i < |digits| ==> '0' <= digits[i] <= '9'
  {
    if digits == [] then 0
    else 10 * ParseDecimal(digits[..|digits| - 1]) + (digits[|digits| - 1] as int - '0' as int)
  }

  lemma {:induction false} DecimalRoundTrip(n: nat)
    ensures ParseDecimal(Decimal(n)) == n
  {
    if n >= 10 {
      var d := Decimal(n);
      assert d[..|d| - 1] == Decimal(n / 10);
      DecimalRoundTrip(n / 10);
    }
  }

  /** One line of the per-question breakdown. */
  datatype Row = Row(caption: string, barValue: int, score: int)

  /** `scores.map((s, i) => Q{i + 1}, a bar of value s * 10, "s/10")`. */
  function Breakdown(scores: seq<int>): (rows: seq<Row>)
    ensures |rows| == |scores|
    ensures forall i :: 0 <= i < |rows| ==>
      rows[i] == Row("Q" + Decimal(i + 1), scores[i] * 10, scores[i])
  {
    seq(|scores|, i requires 0 <= i < |scores| => Row("Q" + Decimal(i + 1), scores[i] * 10, scores[i]))
  }

  /** The breakdown keeps the input order and its captions tell the rounds apart: the caption
      of row `i` reads back as round `i + 1`. */
  lemma BreakdownLabelsNumberRounds(scores: seq<int>, i: nat, j: nat)
    requires i < |scores| && j < |scores|
    ensures Breakdown(scores)[i].caption[1..] == Decimal(i + 1)
    ensures ParseDecimal(Breakdown(scores)[i].caption[1..]) == i + 1
    ensures Breakdown(scores)[i].caption == Breakdown(scores)[j].caption ==> i == j
  {
    var rows := Breakdown(scores);
    assert rows[i].caption[1..] == Decimal(i + 1);
    assert rows[j].caption[1..] == Decimal(j + 1);
    DecimalRoundTrip(i + 1);
    DecimalRoundTrip(j + 1);
  }
}
