/**
 * The analysis engine of the `/api/analyze` endpoint: the emission model,
 * the footprint scorer, the reduction-potential clamp, the badge ladder and
 * the "extract the JSON object from the AI reply, else fall back" rule.
 *
 * Numbers are `real`: the engine only multiplies, adds and divides, so the
 * model computes exactly what IEEE doubles approximate. Two foreign calls are
 * parameters: JavaScript's `parseFloat` (a `FloatParser`, `None` standing for
 * NaN) and `JSON.parse` (a `JsonParser`, `None` standing for a thrown error).
 */
module AnalyzeRoute {
  import opened Wrappers

  type FloatParser = string -> Option<real>

  // Emission factors, kg CO2 per unit.
  const ElectricityFactor: real := 0.82  // per kWh
  const WasteFactor: real := 1.9         // per kg of waste
  const FuelFactor: real := 2.31         // per litre of fuel
  const WaterFactor: real := 0.0003      // per litre of water

  /** The request body: every field is a string as typed into the form. */
  datatype BusinessData = BusinessData(
    businessType: string,
    employees: string,
    yearlyRevenue: string,
    electricityUsage: string,
    waterUsage: string,
    wasteGenerated: string,
    fuelUsed: string)

  /** kg CO2 per resource. */
  datatype Breakdown = Breakdown(electricity: real, water: real, waste: real, fuel: real)

  datatype Footprint = Footprint(totalCO2: real, breakdown: Breakdown, footprintScore: int)

  /** The four usage quantities after `parseFloat(...) || 0`. */
  datatype Quantities = Quantities(electricity: real, water: real, waste: real, fuel: real)

  function Min(a: real, b: real): real { if a <= b then a else b }

  function MinInt(a: int, b: int): int { if a <= b then a else b }

  function MaxInt(a: int, b: int): int { if a >= b then a else b }

  /** JavaScript's `x || d` on a number: NaN and zero are falsy and give `d`. */
  function OrDefault(x: Option<real>, d: real): (r: real)
    ensures x.Some? && x.value != 0.0 ==> r == x.value
    ensures x.None? || x.value == 0.0 ==> r == d
    ensures r == 0.0 ==> d == 0.0
  {
    if x.Some? && x.value != 0.0 then x.value else d
  }

  /** JavaScript's `Math.round`: the nearest integer, halves rounded up. */
  function MathRound(x: real): (n: int)
    ensures n as real <= x + 0.5 < n as real + 1.0
  {
    (x + 0.5).Floor
  }

  // ---------------------------------------------------------------------
  // Emission model

  /** A form field read with `parseFloat(...) || 0`: NaN reads as 0, any number as itself. */
  predicate ReadsAs(reading: Option<real>, quantity: real)
  {
    quantity == if reading.Some? then reading.value else 0.0
  }

  /** Reads the four quantities; a missing, unparsable or zero field reads as 0. */
  function ReadQuantities(data: BusinessData, parseFloat: FloatParser): (q: Quantities)
    ensures ReadsAs(parseFloat(data.electricityUsage), q.electricity)
    ensures ReadsAs(parseFloat(data.waterUsage), q.water)
    ensures ReadsAs(parseFloat(data.wasteGenerated), q.waste)
    ensures ReadsAs(parseFloat(data.fuelUsed), q.fuel)
  {
    Quantities(
      OrDefault(parseFloat(data.electricityUsage), 0.0),
      OrDefault(parseFloat(data.waterUsage), 0.0),
      OrDefault(parseFloat(data.wasteGenerated), 0.0),
      OrDefault(parseFloat(data.fuelUsed), 0.0))
  }

  /** The employee count used as divisor: `parseFloat(employees) || 1`. */
  function Employees(data: BusinessData, parseFloat: FloatParser): (n: real)
    ensures n != 0.0
    ensures parseFloat(data.employees).None? ==> n == 1.0
    ensures parseFloat(data.employees).Some? ==>
              n == if parseFloat(data.employees).value == 0.0 then 1.0 else parseFloat(data.employees).value
  {
    OrDefault(parseFloat(data.employees), 1.0)
  }

  /** Each resource's quantity times its fixed factor. */
  function Emissions(q: Quantities): Breakdown
  {
    Breakdown(
      q.electricity * ElectricityFactor,
      q.water * WaterFactor,
      q.waste * WasteFactor,
      q.fuel * FuelFactor)
  }

  function Total(b: Breakdown): real
  {
    b.electricity + b.water + b.waste + b.fuel
  }

  // ---------------------------------------------------------------------
  // Footprint scorer

  /** The continuous score: CO2 per employee as a percentage of 50 kg, capped at 100. */
  function RawScore(co2PerEmployee: real): (raw: real)
    ensures raw <= 100.0
    ensures co2PerEmployee <= 50.0 ==> raw == 2.0 * co2PerEmployee
    ensures co2PerEmployee >= 50.0 ==> raw == 100.0
  {
    Min(100.0, (co2PerEmployee / 50.0) * 100.0)
  }

  /** The if/else chain that replaces the raw score by one of four buckets. */
  function Bucket(raw: real): (b: real)
    ensures b == 15.0 || b == 30.0 || b == 50.0 || b == 75.0
    ensures b < 20.0 <==> raw < 20.0
    ensures b < 40.0 <==> raw < 40.0
    ensures b < 60.0 <==> raw < 60.0
  {
    if raw < 20.0 then 15.0
    else if raw < 40.0 then 30.0
    else if raw < 60.0 then 50.0
    else 75.0
  }

  /** The score reported for a given amount of CO2 per employee. */
  function ScoreOf(co2PerEmployee: real): (score: int)
    ensures IsBucketScore(score)
    ensures score as real == Bucket(RawScore(co2PerEmployee))
  {
    MathRound(Bucket(RawScore(co2PerEmployee)))
  }

  predicate IsBucketScore(score: int)
  {
    score == 15 || score == 30 || score == 50 || score == 75
  }

  function CalculateCarbonFootprint(data: BusinessData, parseFloat: FloatParser): (f: Footprint)
    ensures var q := ReadQuantities(data, parseFloat);
            f.breakdown.electricity == q.electricity * 0.82 &&
            f.breakdown.water == q.water * 0.0003 &&
            f.breakdown.waste == q.waste * 1.9 &&
            f.breakdown.fuel == q.fuel * 2.31
    ensures f.totalCO2 == f.breakdown.electricity + f.breakdown.water + f.breakdown.waste + f.breakdown.fuel
    ensures IsBucketScore(f.footprintScore)
    ensures f.footprintScore == ScoreOf(f.totalCO2 / Employees(data, parseFloat))
  {
    var breakdown := Emissions(ReadQuantities(data, parseFloat));
    var totalCO2 := Total(breakdown);
    var employees := Employees(data, parseFloat);
    Footprint(totalCO2, breakdown, ScoreOf(totalCO2 / employees))
  }

  /** `Math.round` leaves every bucket value unchanged. */
  lemma RoundKeepsBucket(raw: real)
    ensures MathRound(Bucket(raw)) as real == Bucket(raw)
  {
  }

  /** Every amount of CO2 per employee, negative included, gets one of the four bucket scores. */
  lemma ScoreIsBucket(co2PerEmployee: real)
    ensures IsBucketScore(ScoreOf(co2PerEmployee))
  {
  }

  /** The `min(100, ...)` cap never moves a raw score to another bucket. */
  lemma CapKeepsBucket(raw: real)
    ensures Bucket(Min(100.0, raw)) == Bucket(raw)
  {
  }

  /** The bucket boundaries are 10, 20 and 30 kg CO2 per employee. */
  lemma ScoreThresholds(x: real)
    ensures ScoreOf(x) == 15 <==> x < 10.0
    ensures ScoreOf(x) == 30 <==> 10.0 <= x < 20.0
    ensures ScoreOf(x) == 50 <==> 20.0 <= x < 30.0
    ensures ScoreOf(x) == 75 <==> 30.0 <= x
  {
  }

  /** More CO2 per employee never gives a lower score. */
  lemma ScoreMonotone(x: real, y: real)
    requires x <= y
    ensures ScoreOf(x) <= ScoreOf(y)
  {
  }

  /** With a positive headcount, more total CO2 never gives a lower score. */
  lemma ScoreMonotoneInTotal(t1: real, t2: real, employees: real)
    requires t1 <= t2 && employees > 0.0
    ensures ScoreOf(t1 / employees) <= ScoreOf(t2 / employees)
  {
    assert t1 / employees <= t2 / employees by {
      assert t2 / employees - t1 / employees == (t2 - t1) / employees;
    }
    ScoreMonotone(t1 / employees, t2 / employees);
  }

  /** What one reading contributes: nothing when NaN or zero, else the value times the factor. */
  predicate Contributes(reading: Option<real>, entry: real, factor: real)
  {
    (reading.None? ==> entry == 0.0) &&
    (reading.Some? && reading.value == 0.0 ==> entry == 0.0) &&
    (reading.Some? && reading.value != 0.0 ==> entry == reading.value * factor)
  }

  /** A missing, unparsable or zero quantity contributes 0; any other reading its value times its factor. */
  lemma QuantityContributions(data: BusinessData, parseFloat: FloatParser)
    ensures var b := CalculateCarbonFootprint(data, parseFloat).breakdown;
            Contributes(parseFloat(data.electricityUsage), b.electricity, 0.82) &&
            Contributes(parseFloat(data.waterUsage), b.water, 0.0003) &&
            Contributes(parseFloat(data.wasteGenerated), b.waste, 1.9) &&
            Contributes(parseFloat(data.fuelUsed), b.fuel, 2.31)
  {
  }

  predicate NonNegativeReadings(data: BusinessData, parseFloat: FloatParser)
  {
    (parseFloat(data.electricityUsage).Some? ==> parseFloat(data.electricityUsage).value >= 0.0) &&
    (parseFloat(data.waterUsage).Some? ==> parseFloat(data.waterUsage).value >= 0.0) &&
    (parseFloat(data.wasteGenerated).Some? ==> parseFloat(data.wasteGenerated).value >= 0.0) &&
    (parseFloat(data.fuelUsed).Some? ==> parseFloat(data.fuelUsed).value >= 0.0)
  }

  /** Non-negative readings give non-negative entries and a non-negative total. */
  lemma NonNegativeFootprint(data: BusinessData, parseFloat: FloatParser)
    requires NonNegativeReadings(data, parseFloat)
    ensures var f := CalculateCarbonFootprint(data, parseFloat);
            f.breakdown.electricity >= 0.0 && f.breakdown.water >= 0.0 &&
            f.breakdown.waste >= 0.0 && f.breakdown.fuel >= 0.0 &&
            f.totalCO2 >= 0.0
  {
  }

  // ---------------------------------------------------------------------
  // Reduction potential and badge

  /** `Math.min(50, Math.max(10, 100 - footprintScore))`. */
  function ReductionPotential(footprintScore: int): (rp: int)
    ensures 10 <= rp <= 50
    ensures 10 <= 100 - footprintScore <= 50 ==> rp == 100 - footprintScore
    ensures 100 - footprintScore < 10 ==> rp == 10
    ensures 100 - footprintScore > 50 ==> rp == 50
  {
    MinInt(50, MaxInt(10, 100 - footprintScore))
  }

  /** On the four buckets the clamp gives 50, 50, 50 and 25. */
  lemma ReductionOfBuckets(score: int)
    requires IsBucketScore(score)
    ensures ReductionPotential(score) == if score == 75 then 25 else 50
  {
  }

  datatype Badge = Bronze | Silver | Gold | Platinum

  /** Position in the tier order Bronze < Silver < Gold < Platinum. */
  function Rank(b: Badge): nat
  {
    match b
    case Bronze => 0
    case Silver => 1
    case Gold => 2
    case Platinum => 3
  }

  function BadgeName(b: Badge): string
  {
    match b
    case Bronze => "Bronze"
    case Silver => "Silver"
    case Gold => "Gold"
    case Platinum => "Platinum"
  }

  /**
   * The badge ladder; the first argument is accepted and not used. The
   * potential is a JavaScript number, `None` standing for NaN, which fails
   * every comparison and so falls through to Bronze.
   */
  function GetBadge(footprintScore: int, reductionPotential: Option<real>): (b: Badge)
    ensures b == Platinum <==> reductionPotential.Some? && 50.0 <= reductionPotential.value
    ensures b == Gold <==> reductionPotential.Some? && 30.0 <= reductionPotential.value < 50.0
    ensures b == Silver <==> reductionPotential.Some? && 20.0 <= reductionPotential.value < 30.0
    ensures b == Bronze <==> reductionPotential.None? || reductionPotential.value < 20.0
  {
    if reductionPotential.Some? && reductionPotential.value >= 50.0 then Platinum
    else if reductionPotential.Some? && reductionPotential.value >= 30.0 then Gold
    else if reductionPotential.Some? && reductionPotential.value >= 20.0 then Silver
    else Bronze
  }

  /** A larger reduction potential never gives a lower tier. */
  lemma BadgeMonotone(s1: int, s2: int, r1: real, r2: real)
    requires r1 <= r2
    ensures Rank(GetBadge(s1, Some(r1))) <= Rank(GetBadge(s2, Some(r2)))
  {
  }

  /** The tier names are distinct. */
  lemma BadgeNamesDistinct(a: Badge, b: Badge)
    ensures BadgeName(a) == BadgeName(b) <==> a == b
  {
  }

  // ---------------------------------------------------------------------
  // The AI reply: JSON substring extraction and all-or-nothing fallback

  datatype Recommendation = Recommendation(title: string, description: string, savings: string, impact: string)

  datatype CostSavings = CostSavings(monthly: string, yearly: string, breakdown: string)

  /**
   * The reply's `reductionPotential` as the badge code sees it: a falsy JSON
   * value (missing, `null`, `false`, `""` or the number 0), a truthy value
   * whose conversion to a number is `x` (`35`, `"35"`, `true`, `"0"`), or a
   * truthy value that converts to NaN (`"high"`, `{}`).
   */
  datatype Potential = Falsy | Num(x: real) | NotANumber

  /** The parsed reply. */
  datatype Recommendations = Recommendations(
    energy: seq<Recommendation>,
    waste: seq<Recommendation>,
    costSavings: CostSavings,
    reductionPotential: Potential)

  /** `JSON.parse` followed by reading the reply's fields; `None` when it throws. */
  type JsonParser = string -> Option<Recommendations>

  /** `completion.choices[0]?.message?.content || "{}"`. */
  function AiResponse(content: Option<string>): (text: string)
    ensures text != ""
    ensures content.Some? && content.value != "" ==> text == content.value
    ensures content.None? || content.value == "" ==> text == "{}"
  {
    if content.Some? && content.value != "" then content.value else "{}"
  }

  function FirstIndexOf(s: string, c: char): (r: Option<nat>)
    ensures r.None? <==> c !in s
    ensures r.Some? ==> r.value < |s| && s[r.value] == c && c !in s[..r.value]
  {
    if |s| == 0 then None
    else if s[0] == c then Some(0)
    else match FirstIndexOf(s[1..], c)
      case None => None
      case Some(i) =>
        assert s[..i + 1] == [s[0]] + s[1..][..i];
        Some(i + 1)
  }

  function LastIndexOf(s: string, c: char): (r: Option<nat>)
    ensures r.None? <==> c !in s
    ensures r.Some? ==> r.value < |s| && s[r.value] == c && c !in s[r.value + 1..]
  {
    if |s| == 0 then None
    else if s[|s| - 1] == c then Some(|s| - 1)
    else
      var init := s[..|s| - 1];
      assert s == init + [s[|s| - 1]];
      match LastIndexOf(init, c)
      case None => None
      case Some(i) =>
        assert s[i + 1..] == init[i + 1..] + [s[|s| - 1]];
        Some(i)
  }

  /** `s[i..j]` is a match of the pattern `\{[\s\S]*\}`. */
  predicate IsMatch(s: string, i: int, j: int)
  {
    0 <= i && i + 2 <= j <= |s| && s[i] == '{' && s[j - 1] == '}'
  }

  /** The bounds of the match `/\{[\s\S]*\}/` finds: the leftmost start, then the longest. */
  function JsonMatch(s: string): (r: Option<(nat, nat)>)
    ensures r.Some? ==> IsMatch(s, r.value.0, r.value.1)
    ensures r.Some? ==> forall i, j :: IsMatch(s, i, j) ==> r.value.0 < i || (r.value.0 == i && j <= r.value.1)
    ensures r.None? ==> forall i, j :: !IsMatch(s, i, j)
  {
    var open := FirstIndexOf(s, '{');
    var close := LastIndexOf(s, '}');
    if open.Some? && close.Some? && open.value < close.value then
      assert forall i, j :: IsMatch(s, i, j) ==> open.value <= i && j <= close.value + 1 by {
        forall i, j | IsMatch(s, i, j) ensures open.value <= i && j <= close.value + 1 {
        }
      }
      Some((open.value, close.value + 1))
    else
      assert forall i, j :: !IsMatch(s, i, j) by {
        forall i, j | IsMatch(s, i, j) ensures false {
        }
      }
      None
  }

  /** `jsonMatch ? jsonMatch[0] : aiResponse`. */
  function ExtractJson(text: string): (r: string)
    ensures JsonMatch(text).None? ==> r == text
    ensures JsonMatch(text).Some? ==> r == text[JsonMatch(text).value.0..JsonMatch(text).value.1]
  {
    match JsonMatch(text)
    case None => text
    case Some((i, j)) => text[i..j]
  }

  /** The extracted string runs from the first `{` to the last `}`, both included. */
  lemma ExtractJsonFirstToLast(text: string, i: nat, j: nat)
    requires i < j < |text| && text[i] == '{' && text[j] == '}'
    requires '{' !in text[..i] && '}' !in text[j + 1..]
    ensures ExtractJson(text) == text[i..j + 1]
  {
  }

  /** Without a `{` followed later by a `}` the whole text is handed to the parser. */
  lemma ExtractJsonWithoutBraces(text: string)
    requires forall i, j :: 0 <= i < j < |text| ==> !(text[i] == '{' && text[j] == '}')
    ensures ExtractJson(text) == text
  {
  }

  /** The text with no reply, or an empty one, is the empty object `"{}"`. */
  lemma EmptyReplyIsEmptyObject(content: Option<string>)
    requires content.None? || content.value == ""
    ensures ExtractJson(AiResponse(content)) == "{}"
  {
  }

  const FallbackEnergy: seq<Recommendation> :=
    [ Recommendation(
        "Switch to LED Lighting",
        "Replace all incandescent and fluorescent bulbs with LED lights. LEDs use 75% less energy and last 25 times longer.",
        "₹2,000-5,000/month",
        "50-100 kg CO2/month"),
      Recommendation(
        "Optimize HVAC System",
        "Regular maintenance, programmable thermostats, and proper insulation can reduce energy consumption by 20-30%.",
        "₹3,000-8,000/month",
        "100-200 kg CO2/month") ]

  const FallbackWaste: seq<Recommendation> :=
    [ Recommendation(
        "Implement Waste Segregation",
        "Separate recyclable materials to reduce landfill waste and potentially earn from recycling programs.",
        "₹500-1,500/month",
        "30-50 kg CO2/month") ]

  const FallbackCostSavings: CostSavings :=
    CostSavings(
      "₹5,500-14,500",
      "₹66,000-174,000",
      "Combined savings from energy optimization and waste reduction")

  /** The canned reply used whenever parsing throws. */
  function FallbackRecommendations(footprintScore: int): (r: Recommendations)
    ensures |r.energy| == 2 && |r.waste| == 1
    ensures r.reductionPotential == Num(ReductionPotential(footprintScore) as real)
  {
    Recommendations(FallbackEnergy, FallbackWaste, FallbackCostSavings, Num(ReductionPotential(footprintScore) as real))
  }

  /** The try/catch around extraction and `JSON.parse`: all of the reply or all of the fallback. */
  function ParseRecommendations(content: Option<string>, parseJson: JsonParser, footprintScore: int): (r: Recommendations)
    ensures parseJson(ExtractJson(AiResponse(content))).Some? ==>
              r == parseJson(ExtractJson(AiResponse(content))).value
    ensures parseJson(ExtractJson(AiResponse(content))).None? ==>
              r == FallbackRecommendations(footprintScore)
  {
    match parseJson(ExtractJson(AiResponse(content)))
    case Some(parsed) => parsed
    case None => FallbackRecommendations(footprintScore)
  }

  datatype Report = Report(footprint: Footprint, recommendations: Recommendations, badge: Badge)

  /** `reductionPotential || 20` as the number `getBadge` compares, `None` standing for NaN. */
  function BadgeInput(p: Potential): (n: Option<real>)
    ensures p.Falsy? ==> n == Some(20.0)
    ensures p.Num? ==> n == Some(p.x)
    ensures p.NotANumber? ==> n.None?
  {
    match p
    case Falsy => Some(20.0)
    case Num(x) => Some(x)
    case NotANumber => None
  }

  /** The body of the POST handler, without the request and response plumbing. */
  function Analyze(data: BusinessData, parseFloat: FloatParser, content: Option<string>, parseJson: JsonParser): (r: Report)
    ensures r.footprint == CalculateCarbonFootprint(data, parseFloat)
    ensures r.recommendations == ParseRecommendations(content, parseJson, r.footprint.footprintScore)
    ensures r.badge == GetBadge(r.footprint.footprintScore, BadgeInput(r.recommendations.reductionPotential))
    ensures r.recommendations.reductionPotential.Falsy? ==> r.badge == Silver
    ensures r.recommendations.reductionPotential.NotANumber? ==> r.badge == Bronze
    ensures parseJson(ExtractJson(AiResponse(content))).None? ==>
              r.badge == if r.footprint.footprintScore == 75 then Silver else Platinum
  {
    var footprint := CalculateCarbonFootprint(data, parseFloat);
    var recommendations := ParseRecommendations(content, parseJson, footprint.footprintScore);
    ReductionOfBuckets(footprint.footprintScore);
    Report(footprint, recommendations,
           GetBadge(footprint.footprintScore, BadgeInput(recommendations.reductionPotential)))
  }

  /** A falsy reduction potential in the reply (missing, null, 0) defaults to 20, that is Silver. */
  lemma MissingReductionIsSilver(footprintScore: int, reductionPotential: Potential)
    requires reductionPotential.Falsy?
    ensures GetBadge(footprintScore, BadgeInput(reductionPotential)) == Silver
  {
  }

  /** A truthy reduction potential is compared as it is: 35 or `"35"` gives Gold, `"high"` Bronze. */
  lemma PresentReductionBadge(footprintScore: int, reductionPotential: Potential)
    requires !reductionPotential.Falsy?
    ensures reductionPotential.NotANumber? ==> GetBadge(footprintScore, BadgeInput(reductionPotential)) == Bronze
    ensures reductionPotential.Num? && 30.0 <= reductionPotential.x < 50.0 ==>
              GetBadge(footprintScore, BadgeInput(reductionPotential)) == Gold
    ensures reductionPotential.Num? && reductionPotential.x < 20.0 ==>
              GetBadge(footprintScore, BadgeInput(reductionPotential)) == Bronze
  {
  }

  /**
   * A missing or empty reply is the text `"{}"`, which `JSON.parse` accepts:
   * whenever the parser accepts it, the route uses that parse and never the
   * fallback, and an absent potential gives Silver.
   */
  lemma EmptyReplyNeverFallsBack(data: BusinessData, parseFloat: FloatParser, content: Option<string>, parseJson: JsonParser)
    requires content.None? || content.value == ""
    requires parseJson("{}").Some?
    ensures var r := Analyze(data, parseFloat, content, parseJson);
            r.recommendations == parseJson("{}").value &&
            (parseJson("{}").value.reductionPotential.Falsy? ==> r.badge == Silver)
  {
    EmptyReplyIsEmptyObject(content);
  }

  // ---------------------------------------------------------------------
  // Worked example

  function ExampleData(): BusinessData
  {
    BusinessData("Restaurant", "10", "", "1500", "5000", "200", "100")
  }

  /** `parseFloat` on the strings of the worked example. */
  function ExampleParseFloat(s: string): Option<real>
  {
    if s == "10" then Some(10.0)
    else if s == "1500" then Some(1500.0)
    else if s == "5000" then Some(5000.0)
    else if s == "200" then Some(200.0)
    else if s == "100" then Some(100.0)
    else None
  }

  /** 1500 kWh, 5000 l water, 200 kg waste, 100 l fuel, 10 employees: 1842.5 kg, score 75, Silver. */
  lemma WorkedExample(content: Option<string>, parseJson: JsonParser)
    requires parseJson(ExtractJson(AiResponse(content))).None?
    ensures var r := Analyze(ExampleData(), ExampleParseFloat, content, parseJson);
            r.footprint.totalCO2 == 1842.5 &&
            r.footprint.breakdown == Breakdown(1230.0, 1.5, 380.0, 231.0) &&
            r.footprint.footprintScore == 75 &&
            r.recommendations.reductionPotential == Num(25.0) &&
            r.badge == Silver
  {
  }
}
