/**
 * The pure helpers of the results page that turn an analysis report into
 * what is displayed: the score label and colour ladders, the badge colour
 * lookup, the pie-chart slices of the CO2 breakdown and the bar-chart items
 * built from the recommendations (a truncated title and a savings figure
 * read out of the savings text).
 */
module ResultsPage {
  import opened Wrappers
  import opened AnalyzeRoute

  // ---------------------------------------------------------------------
  // Score label and colour

  /** `getScoreColor`: green, primary, yellow and red on the bands below 20, 40, 60 and above. */
  function ScoreColor(score: int): (color: string)
    ensures color == "text-green-600" <==> score < 20
    ensures color == "text-primary-600" <==> 20 <= score < 40
    ensures color == "text-yellow-600" <==> 40 <= score < 60
    ensures color == "text-red-600" <==> 60 <= score
  {
    if score < 20 then "text-green-600"
    else if score < 40 then "text-primary-600"
    else if score < 60 then "text-yellow-600"
    else "text-red-600"
  }

  /** `getScoreLabel`: Excellent, Good, Moderate and Poor on the same bands. */
  function ScoreLabel(score: int): (name: string)
    ensures name == "Excellent" <==> score < 20
    ensures name == "Good" <==> 20 <= score < 40
    ensures name == "Moderate" <==> 40 <= score < 60
    ensures name == "Poor" <==> 60 <= score
  {
    if score < 20 then "Excellent"
    else if score < 40 then "Good"
    else if score < 60 then "Moderate"
    else "Poor"
  }

  /** Label and colour use the same thresholds: equal labels exactly when equal colours. */
  lemma LabelAndColorAgree(a: int, b: int)
    ensures ScoreLabel(a) == ScoreLabel(b) <==> ScoreColor(a) == ScoreColor(b)
  {
  }

  /** The four footprint buckets get four distinct labels, in severity order. */
  lemma BucketLabels()
    ensures ScoreLabel(15) == "Excellent" && ScoreLabel(30) == "Good"
    ensures ScoreLabel(50) == "Moderate" && ScoreLabel(75) == "Poor"
    ensures ScoreColor(15) == "text-green-600" && ScoreColor(30) == "text-primary-600"
    ensures ScoreColor(50) == "text-yellow-600" && ScoreColor(75) == "text-red-600"
  {
  }

  /** The label shown for a computed score, by CO2 per employee. */
  lemma LabelOfComputedScore(co2PerEmployee: real)
    ensures ScoreLabel(ScoreOf(co2PerEmployee)) == "Excellent" <==> co2PerEmployee < 10.0
    ensures ScoreLabel(ScoreOf(co2PerEmployee)) == "Good" <==> 10.0 <= co2PerEmployee < 20.0
    ensures ScoreLabel(ScoreOf(co2PerEmployee)) == "Moderate" <==> 20.0 <= co2PerEmployee < 30.0
    ensures ScoreLabel(ScoreOf(co2PerEmployee)) == "Poor" <==> 30.0 <= co2PerEmployee
  {
  }

  // ---------------------------------------------------------------------
  // Badge colours

  const BadgeColors: map<string, string> :=
    map["Bronze" := "#CD7F32", "Silver" := "#C0C0C0", "Gold" := "#FFD700", "Platinum" := "#E5E4E2"]

  /** `BADGE_COLORS[badge] || BADGE_COLORS.Bronze`. */
  function BadgeColor(badge: string): (color: string)
    ensures badge !in BadgeColors ==> color == "#CD7F32"
    ensures badge in BadgeColors ==> color == BadgeColors[badge]
  {
    if badge in BadgeColors && BadgeColors[badge] != "" then BadgeColors[badge] else BadgeColors["Bronze"]
  }

  /** Each tier shows its own colour; any other string shows Bronze's. */
  lemma BadgeColorOfTier(b: Badge)
    ensures BadgeColor(BadgeName(b)) == match b
      case Bronze => "#CD7F32"
      case Silver => "#C0C0C0"
      case Gold => "#FFD700"
      case Platinum => "#E5E4E2"
  {
  }

  // ---------------------------------------------------------------------
  // Breakdown pie chart

  datatype Slice = Slice(name: string, value: real, color: string)

  /** The chart entries in their fixed order, before filtering. */
  function BreakdownSlices(b: Breakdown): (r: seq<Slice>)
    ensures |r| == 4
    ensures forall i, j :: 0 <= i < j < |r| ==> r[i].name != r[j].name
    ensures r[0].name == "Electricity" && r[0].value == b.electricity
    ensures r[1].name == "Waste" && r[1].value == b.waste
    ensures r[2].name == "Fuel" && r[2].value == b.fuel
    ensures r[3].name == "Water" && r[3].value == b.water
  {
    [ Slice("Electricity", b.electricity, "#3B82F6"),
      Slice("Waste", b.waste, "#EF4444"),
      Slice("Fuel", b.fuel, "#F59E0B"),
      Slice("Water", b.water, "#10B981") ]
  }

  /** `r` is `s` with some elements left out and the rest in their original order. */
  predicate IsSubsequence<T(==)>(r: seq<T>, s: seq<T>)
    decreases |s|
  {
    if r == [] then true
    else if s == [] then false
    else if r[0] == s[0] then IsSubsequence(r[1..], s[1..])
    else IsSubsequence(r, s[1..])
  }

  /** `.filter((item) => item.value > 0)`. */
  function FilterPositive(s: seq<Slice>): (r: seq<Slice>)
    ensures forall x :: x in r <==> x in s && x.value > 0.0
    ensures forall x :: multiset(r)[x] == if x.value > 0.0 then multiset(s)[x] else 0
    ensures IsSubsequence(r, s)
    ensures |r| <= |s|
  {
    if s == [] then []
    else
      assert s == [s[0]] + s[1..];
      if s[0].value > 0.0 then [s[0]] + FilterPositive(s[1..])
      else FilterPositive(s[1..])
  }

  function BreakdownData(b: Breakdown): (r: seq<Slice>)
    ensures forall x :: x in r <==> x in BreakdownSlices(b) && x.value > 0.0
    ensures IsSubsequence(r, BreakdownSlices(b))
  {
    FilterPositive(BreakdownSlices(b))
  }

  /** A resource has a slice exactly when its quantity is positive, and the slice carries its CO2. */
  lemma SliceForPositiveQuantity(data: BusinessData, parseFloat: FloatParser)
    ensures var f := CalculateCarbonFootprint(data, parseFloat);
            var q := ReadQuantities(data, parseFloat);
            (Slice("Electricity", f.breakdown.electricity, "#3B82F6") in BreakdownData(f.breakdown) <==> q.electricity > 0.0) &&
            (Slice("Waste", f.breakdown.waste, "#EF4444") in BreakdownData(f.breakdown) <==> q.waste > 0.0) &&
            (Slice("Fuel", f.breakdown.fuel, "#F59E0B") in BreakdownData(f.breakdown) <==> q.fuel > 0.0) &&
            (Slice("Water", f.breakdown.water, "#10B981") in BreakdownData(f.breakdown) <==> q.water > 0.0)
  {
  }

  /** A positive total always leaves at least one slice to draw. */
  lemma PositiveTotalHasSlice(f: Footprint)
    requires f.totalCO2 > 0.0
    requires f.totalCO2 == f.breakdown.electricity + f.breakdown.water + f.breakdown.waste + f.breakdown.fuel
    ensures |BreakdownData(f.breakdown)| > 0
  {
  }

  // ---------------------------------------------------------------------
  // Recommendations bar chart

  datatype ChartItem = ChartItem(name: string, savings: real)

  /** `title.substring(0, 20) + "..."`. */
  function ChartName(title: string): (name: string)
    ensures |name| == (if |title| < 20 then |title| else 20) + 3
    ensures name[..|name| - 3] <= title
    ensures name[|name| - 3..] == "..."
  {
    var end := if |title| < 20 then |title| else 20;
    title[..end] + "..."
  }

  predicate IsDigit(c: char)
  {
    '0' <= c <= '9'
  }

  /** The character class `[\d,]`. */
  predicate InRunClass(c: char)
  {
    IsDigit(c) || c == ','
  }

  /** The first index at or after `i` whose character is in `[\d,]`, or `|s|`. */
  function RunStart(s: string, i: nat): (k: nat)
    requires i <= |s|
    ensures i <= k <= |s|
    ensures forall m :: i <= m < k ==> !InRunClass(s[m])
    ensures k < |s| ==> InRunClass(s[k])
    decreases |s| - i
  {
    if i == |s| || InRunClass(s[i]) then i else RunStart(s, i + 1)
  }

  /** The first index at or after `i` whose character is not in `[\d,]`, or `|s|`. */
  function RunEnd(s: string, i: nat): (k: nat)
    requires i <= |s|
    ensures i <= k <= |s|
    ensures forall m :: i <= m < k ==> InRunClass(s[m])
    ensures k < |s| ==> !InRunClass(s[k])
    decreases |s| - i
  {
    if i == |s| || !InRunClass(s[i]) then i else RunEnd(s, i + 1)
  }

  /** The bounds of the match `/[\d,]+/` finds: the first maximal run of digits and commas. */
  function FirstRun(s: string): (r: Option<(nat, nat)>)
    ensures r.None? <==> forall m :: 0 <= m < |s| ==> !InRunClass(s[m])
    ensures r.Some? ==>
              var (i, j) := r.value;
              i < j <= |s| &&
              (forall m :: 0 <= m < i ==> !InRunClass(s[m])) &&
              (forall m :: i <= m < j ==> InRunClass(s[m])) &&
              (j == |s| || !InRunClass(s[j]))
  {
    var i := RunStart(s, 0);
    if i == |s| then None else Some((i, RunEnd(s, i)))
  }

  /** `.replace(/,/g, "")`. */
  function RemoveCommas(s: string): (r: string)
    ensures ',' !in r
    ensures |r| <= |s|
    ensures (forall m :: 0 <= m < |s| ==> InRunClass(s[m])) ==> forall m :: 0 <= m < |r| ==> IsDigit(r[m])
  {
    if s == [] then []
    else (if s[0] == ',' then [] else [s[0]]) + RemoveCommas(s[1..])
  }

  /**
   * Exactly the commas go: the result keeps every other character in order
   * (a subsequence without commas) and is shorter by the number of commas.
   */
  lemma {:induction false} RemoveCommasRemovesExactlyCommas(s: string)
    ensures ',' !in RemoveCommas(s)
    ensures IsSubsequence(RemoveCommas(s), s)
    ensures |RemoveCommas(s)| == |s| - multiset(s)[',']
  {
    if s != [] {
      RemoveCommasRemovesExactlyCommas(s[1..]);
      assert s == [s[0]] + s[1..];
      var rest := RemoveCommas(s[1..]);
      if s[0] == ',' {
        assert RemoveCommas(s) == rest;
        if rest != [] {
          assert rest[0] != s[0];
        }
      } else {
        assert RemoveCommas(s) == [s[0]] + rest;
        assert ([s[0]] + rest)[1..] == rest;
      }
    }
  }

  lemma {:induction false} RemoveCommasAppend(a: string, b: string)
    ensures RemoveCommas(a + b) == RemoveCommas(a) + RemoveCommas(b)
  {
    if a == [] {
      assert a + b == b;
    } else {
      assert (a + b)[1..] == a[1..] + b;
      RemoveCommasAppend(a[1..], b);
    }
  }

  /** Text without commas passes through the replacement unchanged. */
  lemma {:induction false} RemoveCommasKeepsCommaFree(s: string)
    requires forall m :: 0 <= m < |s| ==> s[m] != ','
    ensures RemoveCommas(s) == s
  {
    if s != [] {
      RemoveCommasKeepsCommaFree(s[1..]);
    }
  }

  function Pow10(n: nat): (p: nat)
    ensures p >= 1
  {
    if n == 0 then 1 else 10 * Pow10(n - 1)
  }

  function DigitValue(c: char): (v: nat)
    requires IsDigit(c)
    ensures v <= 9
  {
    (c as int) - ('0' as int)
  }

  /** `parseFloat` of a string of decimal digits: the number it denotes. */
  function DecimalValue(d: string): (v: nat)
    requires forall m :: 0 <= m < |d| ==> IsDigit(d[m])
    ensures v < Pow10(|d|)
    decreases |d|
  {
    if d == [] then 0
    else DecimalValue(d[..|d| - 1]) * 10 + DigitValue(d[|d| - 1])
  }

  /** Reading digits one string after another: the first part shifted by the length of the second. */
  lemma {:induction false} DecimalValueAppend(a: string, b: string)
    requires forall m :: 0 <= m < |a| ==> IsDigit(a[m])
    requires forall m :: 0 <= m < |b| ==> IsDigit(b[m])
    ensures forall m :: 0 <= m < |a + b| ==> IsDigit((a + b)[m])
    ensures DecimalValue(a + b) == DecimalValue(a) * Pow10(|b|) + DecimalValue(b)
    decreases |b|
  {
    if b == [] {
      assert a + b == a;
    } else {
      var b' := b[..|b| - 1];
      var ab := a + b;
      assert ab[..|ab| - 1] == a + b';
      assert ab[|ab| - 1] == b[|b| - 1];
      DecimalValueAppend(a, b');
      var d := DigitValue(b[|b| - 1]);
      var x, p, y := DecimalValue(a), Pow10(|b'|), DecimalValue(b');
      assert DecimalValue(ab) == (x * p + y) * 10 + d;
      ShiftOneDigit(x, p, y, d);
      assert Pow10(|b|) == p * 10 && DecimalValue(b) == y * 10 + d;
    }
  }

  /** One more digit on the right multiplies the part read before it by ten. */
  lemma ShiftOneDigit(x: int, p: int, y: int, d: int)
    ensures (x * p + y) * 10 + d == x * (p * 10) + (y * 10 + d)
  {
  }

  /** Leading zeros do not change the number. */
  lemma LeadingZeros(z: string, d: string)
    requires forall m :: 0 <= m < |z| ==> z[m] == '0'
    requires forall m :: 0 <= m < |d| ==> IsDigit(d[m])
    ensures forall m :: 0 <= m < |z + d| ==> IsDigit((z + d)[m])
    ensures DecimalValue(z + d) == DecimalValue(d)
  {
    DecimalValueAppend(z, d);
    ZerosAreZero(z);
  }

  lemma {:induction false} ZerosAreZero(z: string)
    requires forall m :: 0 <= m < |z| ==> z[m] == '0'
    ensures DecimalValue(z) == 0
  {
    if z != [] {
      ZerosAreZero(z[..|z| - 1]);
    }
  }

  /**
   * `parseFloat(savings.match(/[\d,]+/)?.[0]?.replace(/,/g, "") || "0")`:
   * the first run of digits and commas, without its commas, read as a number.
   */
  function SavingsValue(savings: string): (v: real)
    ensures v >= 0.0
    ensures FirstRun(savings).None? ==> v == 0.0
  {
    match FirstRun(savings)
    case None => 0.0
    case Some((i, j)) =>
      var digits := RemoveCommas(savings[i..j]);
      if digits == "" then 0.0 else DecimalValue(digits) as real
  }

  /** One bar: `{ name: title.substring(0, 20) + "...", savings: ... }`. */
  function ChartItemOf(r: Recommendation): (item: ChartItem)
    ensures 3 <= |item.name| <= 23 && item.name[..|item.name| - 3] <= r.title
    ensures item.savings >= 0.0
  {
    ChartItem(ChartName(r.title), SavingsValue(r.savings))
  }

  function ChartItems(rs: seq<Recommendation>): (items: seq<ChartItem>)
    ensures |items| == |rs|
    ensures forall k :: 0 <= k < |rs| ==> items[k] == ChartItemOf(rs[k])
  {
    seq(|rs|, k requires 0 <= k < |rs| => ChartItemOf(rs[k]))
  }

  /** `[...energy.map(...), ...waste.map(...)]`. */
  function RecommendationsData(recs: Recommendations): (items: seq<ChartItem>)
    ensures |items| == |recs.energy| + |recs.waste|
    ensures forall k :: 0 <= k < |recs.energy| ==> items[k] == ChartItemOf(recs.energy[k])
    ensures forall k :: 0 <= k < |recs.waste| ==> items[|recs.energy| + k] == ChartItemOf(recs.waste[k])
    ensures forall k :: 0 <= k < |items| ==> |items[k].name| <= 23 && items[k].savings >= 0.0
  {
    ChartItems(recs.energy) + ChartItems(recs.waste)
  }

  /** A savings text whose first maximal run of digits and commas is `savings[i..j]` is read as that run. */
  lemma SavingsOfFirstRun(savings: string, i: nat, j: nat)
    requires i < j <= |savings|
    requires forall m :: 0 <= m < i ==> !InRunClass(savings[m])
    requires forall m :: i <= m < j ==> InRunClass(savings[m])
    requires j == |savings| || !InRunClass(savings[j])
    ensures var digits := RemoveCommas(savings[i..j]);
            SavingsValue(savings) == if digits == "" then 0.0 else DecimalValue(digits) as real
  {
    assert InRunClass(savings[i]);
    assert FirstRun(savings) == Some((i, j));
  }

  /** The first run of digits and commas in `"₹2,000-5,000/month"` is `"2,000"`, at 1..6. */
  lemma ExampleSavingsRun()
    ensures var s := "₹2,000-5,000/month";
            s[1..6] == "2,000" && !InRunClass(s[0]) && !InRunClass(s[6]) &&
            forall m :: 1 <= m < 6 ==> InRunClass(s[m])
  {
  }

  lemma ExampleSavingsDigits()
    ensures RemoveCommas("2,000") == "2000"
  {
  }

  lemma ExampleSavingsNumber()
    ensures DecimalValue("2000") == 2000
  {
    assert "2000"[..3] == "200" && "200"[..2] == "20" && "20"[..1] == "2";
  }

  /** The lower end of `"₹2,000-5,000/month"` is read: 2000. */
  lemma SavingsExample()
    ensures SavingsValue("₹2,000-5,000/month") == 2000.0
  {
    ExampleSavingsRun();
    SavingsOfFirstRun("₹2,000-5,000/month", 1, 6);
    ExampleSavingsDigits();
    ExampleSavingsNumber();
  }

  lemma FallbackChartNames()
    ensures ChartName("Switch to LED Lighting") == "Switch to LED Lighti..."
    ensures ChartName("Optimize HVAC System") == "Optimize HVAC System..."
    ensures ChartName("Implement Waste Segregation") == "Implement Waste Segr..."
  {
  }

  /** The bar chart of the fallback reply: three bars, energy first, the LED bar at 2000. */
  lemma FallbackChart(footprintScore: int)
    ensures var items := RecommendationsData(FallbackRecommendations(footprintScore));
            |items| == 3 &&
            items[0] == ChartItem("Switch to LED Lighti...", 2000.0) &&
            items[1].name == "Optimize HVAC System..." &&
            items[2].name == "Implement Waste Segr..."

  {
    SavingsExample();
    FallbackChartNames();
    var recs := FallbackRecommendations(footprintScore);
    assert recs.energy[0].title == "Switch to LED Lighting" && recs.energy[0].savings == "₹2,000-5,000/month";
    assert recs.energy[1].title == "Optimize HVAC System" && recs.energy[1].savings == "₹3,000-8,000/month";
    assert recs.waste[0].title == "Implement Waste Segregation" && recs.waste[0].savings == "₹500-1,500/month";
  }

  /** Savings text without any digit or comma is read as 0. */
  lemma SavingsWithoutDigits(savings: string)
    requires forall m :: 0 <= m < |savings| ==> !InRunClass(savings[m])
    ensures SavingsValue(savings) == 0.0
  {
  }
}
