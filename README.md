# GreenTrack analysis engine in Dafny

This project models the logic of GreenTrack, a small-business carbon-footprint
report. It covers the `/api/analyze` route and the pure helpers of the results
page that display what the route returns.

- **Emission model.** Four usage quantities are read with `parseFloat(...) || 0`.
  Each is multiplied by its fixed emission factor: 0.82 per kWh, 0.0003 per litre
  of water, 1.9 per kg of waste and 2.31 per litre of fuel. The total is the sum
  of the four products.
- **Footprint scorer.** The total is divided by `parseFloat(employees) || 1`.
  The result is scaled to a raw score capped at 100. That score is replaced by
  one of four buckets (15, 30, 50, 75) and passed through `Math.round`.
- **Reduction potential.** It is `min(50, max(10, 100 - score))`.
- **Badge ladder.** The first match wins: at least 50 gives Platinum, at least
  30 gives Gold, at least 20 gives Silver, anything else gives Bronze.
- **AI reply.**
  - The reply text defaults to `"{}"` when it is missing or empty.
  - The regex `/\{[\s\S]*\}/` picks the substring from the first `{` to the last `}`.
  - `JSON.parse` either yields the whole reply, or a failure makes the route
    use a fixed fallback reply in its place.
  - The badge is computed from the reply's `reductionPotential || 20`.
- **Results page.**
  - The score label and score colour ladders.
  - `BADGE_COLORS` with its Bronze default.
  - The pie-chart filter that keeps the positive breakdown entries.
  - The bar-chart items: each title cut to 20 characters plus `"..."`. The
    savings figure is the first run of digits and commas in the savings text,
    commas removed, read as a number.

All of it is pure. It is written as Dafny functions and lemmas in three
modules:

- `Wrappers` (wrappers.dfy) holds `Option`.
- `AnalyzeRoute` (analyze_route.dfy) models app/api/analyze/route.ts.
- `ResultsPage` (results_page.dfy) models the helpers of app/results/page.tsx.

Foreign calls are parameters:

- `parseFloat` on the form's strings is a `FloatParser = string -> Option<real>`.
  `None` stands for NaN. JavaScript's `x || d` on a number is `OrDefault`: NaN
  and 0 give `d`.
- `JSON.parse` (plus reading the typed fields of the result) is a
  `JsonParser = string -> Option<Recommendations>`. `None` stands for a thrown error.
- The OpenAI call is the `content: Option<string>` argument of `Analyze`.

Quantities are `real`, so the arithmetic is exact. The worked example comes out
exactly: 1500 kWh, 5000 l of water, 200 kg of waste, 100 l of fuel and 10
employees give 1842.5 kg, score 75, reduction potential 25 and badge Silver.

Four behaviours of the code are worth spelling out:

- A reply that cannot be parsed is replaced as a whole by the fallback reply.
- Extraction is greedy. It takes the text from the first `{` to the last `}`,
  which need not be one balanced object.
- Negative quantities are kept. `parseFloat("-5") || 0` is -5
  (`QuantityContributions`).
- The headcount divisor is `parseFloat(employees) || 1`. A negative or
  fractional count is kept, and only NaN and 0 become 1.

## Model

| member | source | states |
|---|---|---|
| `AnalyzeRoute.CalculateCarbonFootprint` | app/api/analyze/route.ts:26-61 | each breakdown entry is its quantity times its fixed factor (0.82, 0.0003, 1.9, 2.31); the total is the sum of the four entries; the score is one of 15/30/50/75 and is the score of total CO2 per employee |
| `AnalyzeRoute.Employees` | app/api/analyze/route.ts:41 | the divisor is never 0; NaN or 0 becomes 1; any other reading, negative included, is kept |
| `AnalyzeRoute.OrDefault` | app/api/analyze/route.ts:27-30 | JavaScript's or-default on a number: a non-zero number is kept, NaN and 0 give `d`, so the result is 0 only when `d` is |
| `AnalyzeRoute.ReadQuantities` | app/api/analyze/route.ts:27-30 | each usage field reads as its number, and as 0 when it is NaN |
| `AnalyzeRoute.QuantityContributions` | app/api/analyze/route.ts:27-37 | a missing/unparsable (NaN) or zero reading contributes 0 and never fails; any other reading contributes its value times its factor |
| `AnalyzeRoute.NonNegativeFootprint` | app/api/analyze/route.ts:32-37 | non-negative readings give non-negative breakdown entries and a non-negative total |
| `AnalyzeRoute.RawScore` | app/api/analyze/route.ts:45 | the raw score is CO2 per employee as a percentage of 50 kg: twice the value up to 50 kg, then 100, never above 100 |
| `AnalyzeRoute.Bucket` | app/api/analyze/route.ts:46-49 | the bucket is one of 15, 30, 50, 75 and lies in the same band (below 20, 40, 60 or above) as the raw score |
| `AnalyzeRoute.MathRound` | app/api/analyze/route.ts:59 | `Math.round` gives the integer n with n <= x + 0.5 < n + 1 |
| `AnalyzeRoute.ScoreOf` | app/api/analyze/route.ts:42-59 | the score is a bucket score and equals the bucket of the raw score, unchanged by rounding |
| `AnalyzeRoute.RoundKeepsBucket` | app/api/analyze/route.ts:45-59 | the final `Math.round` leaves every bucket value unchanged |
| `AnalyzeRoute.ScoreIsBucket` | app/api/analyze/route.ts:45-59 | every CO2-per-employee value gets a score in {15, 30, 50, 75} |
| `AnalyzeRoute.CapKeepsBucket` | app/api/analyze/route.ts:45-49 | the `min(100, ...)` cap never moves a raw score to another bucket |
| `AnalyzeRoute.ScoreThresholds` | app/api/analyze/route.ts:42-49 | score 15 iff below 10 kg per employee, 30 iff in [10, 20), 50 iff in [20, 30), 75 iff at least 30 (raw 20/40/60) |
| `AnalyzeRoute.ScoreMonotone` | app/api/analyze/route.ts:42-49 | the score is non-decreasing in CO2 per employee |
| `AnalyzeRoute.ScoreMonotoneInTotal` | app/api/analyze/route.ts:37-49 | with a positive headcount, the score is non-decreasing in total CO2 |
| `AnalyzeRoute.ReductionPotential` | app/api/analyze/route.ts:170 | the clamp always lies in [10, 50]; it equals `100 - score` inside that range, 10 below it and 50 above it |
| `AnalyzeRoute.ReductionOfBuckets` | app/api/analyze/route.ts:111 | on the buckets the reduction potential is 50 for 15, 30 and 50, and 25 for 75 |
| `AnalyzeRoute.GetBadge` | app/api/analyze/route.ts:63-68 | Platinum exactly at 50 or above, Gold exactly on [30, 50), Silver exactly on [20, 30), Bronze exactly below 20 or on NaN; the footprint-score argument is ignored |
| `AnalyzeRoute.BadgeMonotone` | app/api/analyze/route.ts:64-67 | a larger reduction potential never gives a lower tier, whatever the score arguments |
| `AnalyzeRoute.BadgeNamesDistinct` | app/api/analyze/route.ts:64-67 | the four badge strings are pairwise distinct |
| `AnalyzeRoute.AiResponse` | app/api/analyze/route.ts:132 | the reply text is never empty; a non-empty content is used as is; a missing or empty content gives `"{}"` |
| `AnalyzeRoute.FirstIndexOf` | app/api/analyze/route.ts:137 | returns an index exactly when the character occurs, and then it is the first occurrence |
| `AnalyzeRoute.LastIndexOf` | app/api/analyze/route.ts:137 | returns an index exactly when the character occurs, and then it is the last occurrence |
| `AnalyzeRoute.JsonMatch` | app/api/analyze/route.ts:137 | the regex match: when it exists it is a `{...}` substring with the leftmost start and, for that start, the longest end; no match means no `{` is followed later by a `}` |
| `AnalyzeRoute.ExtractJson` | app/api/analyze/route.ts:137-138 | the matched substring when there is a match, else the whole text |
| `AnalyzeRoute.ExtractJsonFirstToLast` | app/api/analyze/route.ts:137-138 | with a first `{` at i before a last `}` at j, the extracted string is `text[i..j+1]` |
| `AnalyzeRoute.ExtractJsonWithoutBraces` | app/api/analyze/route.ts:138 | without a `{` before a later `}`, the whole text is handed to the parser |
| `AnalyzeRoute.EmptyReplyIsEmptyObject` | app/api/analyze/route.ts:132-138 | missing or empty content is parsed as `"{}"` |
| `AnalyzeRoute.FallbackRecommendations` | app/api/analyze/route.ts:142-171 | the fallback has 2 energy items, 1 waste item and, as a number, the clamped reduction potential of the score |
| `AnalyzeRoute.ParseRecommendations` | app/api/analyze/route.ts:135-172 | all or nothing: a successful parse is used unchanged, and any parse failure replaces the whole reply by the fallback |
| `AnalyzeRoute.Analyze` | app/api/analyze/route.ts:75-174 | the report holds the footprint and the parsed or fallback reply; the badge is the ladder applied to the reply's potential defaulted to 20: a falsy potential gives Silver, a potential that is not a number gives Bronze, a numeric one its tier; on a parse failure the badge is Silver for score 75 and Platinum otherwise |
| `AnalyzeRoute.MissingReductionIsSilver` | app/api/analyze/route.ts:174 | a falsy reduction potential (missing, null, 0) defaults to 20, that is Silver |
| `AnalyzeRoute.BadgeInput` | app/api/analyze/route.ts:174 | the potential defaulted to 20, as a number: 20 for a falsy value, the converted number for a truthy one, NaN for one that does not convert |
| `AnalyzeRoute.PresentReductionBadge` | app/api/analyze/route.ts:63-68 | a truthy potential is compared as it is: one that is not a number gives Bronze, a number in [30, 50) Gold, a number below 20 Bronze |
| `AnalyzeRoute.EmptyReplyNeverFallsBack` | app/api/analyze/route.ts:132-174 | for a missing or empty reply the route uses the parse of `"{}"` whenever the parser accepts it, never the fallback, and an absent potential then gives Silver |
| `AnalyzeRoute.WorkedExample` | app/api/analyze/route.ts:26-68 | 1500 kWh, 5000 l, 200 kg, 100 l, 10 employees give breakdown 1230/1.5/380/231, total 1842.5, score 75, reduction potential 25 and Silver (on the fallback path) |
| `ResultsPage.ScoreColor` | app/results/page.tsx:95-100 | green exactly below 20, primary exactly on [20, 40), yellow exactly on [40, 60), red exactly from 60 |
| `ResultsPage.ScoreLabel` | app/results/page.tsx:102-107 | Excellent exactly below 20, Good exactly on [20, 40), Moderate exactly on [40, 60), Poor exactly from 60 |
| `ResultsPage.LabelAndColorAgree` | app/results/page.tsx:95-107 | label and colour use the same 20/40/60 bands: two scores share a label exactly when they share a colour |
| `ResultsPage.BucketLabels` | app/results/page.tsx:95-107 | scores 15, 30, 50, 75 show Excellent, Good, Moderate, Poor, with green, primary, yellow and red colours |
| `ResultsPage.LabelOfComputedScore` | app/results/page.tsx:102-107 | for a computed score: Excellent iff below 10 kg CO2 per employee, Good iff [10, 20), Moderate iff [20, 30), Poor iff at least 30 |
| `ResultsPage.BadgeColor` | app/results/page.tsx:242-246 | any string not in the colour table shows the Bronze colour; a table key shows its own colour |
| `ResultsPage.BadgeColorOfTier` | app/results/page.tsx:50-55 | each of the four tiers shows its own colour from the table |
| `ResultsPage.BreakdownSlices` | app/results/page.tsx:166-170 | four entries with distinct names, Electricity, Waste, Fuel, Water in that order, each carrying its resource's CO2 |
| `ResultsPage.FilterPositive` | app/results/page.tsx:171 | keeps exactly the entries with value > 0, each as many times as it occurs, in their original order (a subsequence) |
| `ResultsPage.BreakdownData` | app/results/page.tsx:166-171 | the chart entries are exactly the positive ones among Electricity, Waste, Fuel, Water, in that order |
| `ResultsPage.SliceForPositiveQuantity` | app/results/page.tsx:166-171 | a resource has a pie slice, carrying its CO2, exactly when its read quantity is positive |
| `ResultsPage.PositiveTotalHasSlice` | app/results/page.tsx:166-171 | a positive total always leaves at least one slice |
| `ResultsPage.ChartName` | app/results/page.tsx:175 | the name is the first min(20, length of the title) characters of the title followed by `"..."`, so at most 23 characters |
| `ResultsPage.RunStart` | app/results/page.tsx:176 | the first position at or after i holding a digit or comma, or the end |
| `ResultsPage.RunEnd` | app/results/page.tsx:176 | the first position at or after i not holding a digit or comma, or the end |
| `ResultsPage.FirstRun` | app/results/page.tsx:176 | the match of `/[\d,]+/`: none exactly when no digit or comma occurs; otherwise a non-empty run of digits and commas, preceded by none and not extendable to the right |
| `ResultsPage.RemoveCommas` | app/results/page.tsx:176 | no comma is left; the text never gets longer; a run of digits and commas becomes digits only |
| `ResultsPage.RemoveCommasRemovesExactlyCommas` | app/results/page.tsx:176 | exactly the commas are removed: the result has no comma, keeps every other character in order, and is shorter by the number of commas |
| `ResultsPage.RemoveCommasAppend` | app/results/page.tsx:176 | comma removal distributes over concatenation |
| `ResultsPage.RemoveCommasKeepsCommaFree` | app/results/page.tsx:176 | text without commas is unchanged |
| `ResultsPage.DecimalValue` | app/results/page.tsx:176 | `parseFloat` of n decimal digits: a natural number below 10^n |
| `ResultsPage.DecimalValueAppend` | app/results/page.tsx:176 | reading `a` then `b` gives the value of `a` times 10^len(b) plus the value of `b` |
| `ResultsPage.LeadingZeros` | app/results/page.tsx:176 | leading zeros do not change the number read |
| `ResultsPage.SavingsValue` | app/results/page.tsx:176 | the savings figure is never negative, and it is 0 when no digit or comma appears |
| `ResultsPage.SavingsOfFirstRun` | app/results/page.tsx:176 | the figure is the first maximal run of digits and commas, with commas removed, read as a number (0 if only commas) |
| `ResultsPage.SavingsExample` | app/results/page.tsx:176 | `"₹2,000-5,000/month"` reads as 2000 |
| `ResultsPage.SavingsWithoutDigits` | app/results/page.tsx:176 | a savings text without digits or commas reads as 0 |
| `ResultsPage.ChartItemOf` | app/results/page.tsx:174-177 | one bar: a name of 3 to 23 characters that starts with a prefix of the title, and a non-negative savings figure |
| `ResultsPage.ChartItems` | app/results/page.tsx:174-177 | one chart item per recommendation, in order |
| `ResultsPage.RecommendationsData` | app/results/page.tsx:173-182 | the length is the number of energy items plus the number of waste items; energy items come first, then waste items, each in order; every name has at most 23 characters and every savings figure is non-negative |
| `ResultsPage.FallbackChart` | app/results/page.tsx:173-182 | the fallback reply draws three bars, energy first: "Switch to LED Lighti..." at 2000, then "Optimize HVAC System..." and "Implement Waste Segr..." |

## Left out

- The OpenAI call, the prompt text and the `POST` request/response plumbing:
  network and framework code.
  - The reply's content is an argument.
  - The 500 error path is not modelled.
- `JSON.parse` internals: a foreign library. It is a parameter returning the
  typed reply or `None`.
  - A parse that succeeds always returns `Some`, whatever the shape of the
    value. The reply `"{}"` that a missing or empty answer becomes is such a
    parse, so it never falls back (`EmptyReplyNeverFallsBack`).
  - The typed reply always has `energy` and `waste` arrays of records with
    string fields. A parsed value that lacks `energy`, `waste`, a `title` or a
    `savings` makes the results page throw at app/results/page.tsx:174-181.
    That throw is not modelled: `RecommendationsData` always yields the items.
  - `reductionPotential` is kept as the JavaScript value the badge code sees:
    falsy, a truthy value with its numeric conversion, or a truthy value that
    converts to NaN (`Potential`).
- `parseFloat` on the form strings: a foreign library, modelled as a parameter.
  On the savings digits, `parseFloat` is modelled as the exact decimal value
  (`DecimalValue`), because its argument there is always a string of ASCII digits.
- IEEE doubles: all quantities are exact `real`s (and naturals for the savings
  figure).
  - Rounding: the model gives 1842.5 where a double may differ in the last bit.
    Digit strings longer than a double can hold exactly are not rounded.
  - Infinities: a `FloatParser` returns a finite number or NaN. So
    `parseFloat("Infinity")` and `parseFloat("1e999")`, which give Infinity,
    are not modelled. In the program, such a usage reading makes the total
    Infinity and the score 75. An Infinity and a -Infinity reading together make
    the total NaN, and `Math.min(100, NaN)` fails every bucket test, so the
    score is again 75. An `"Infinity"` headcount makes the CO2 per employee 0,
    so the score is 15.
- `ChartName`: Dafny characters are Unicode scalar values. JavaScript's
  `substring` counts UTF-16 code units. A title with characters outside the
  Basic Multilingual Plane is cut at a different place.
- `BadgeColor`: inherited object keys (`"toString"`, `"constructor"`) are not modelled.
  Looked up in a JavaScript object they yield a truthy function. The model treats
  them like any other unknown string.
- The PDF download (html2canvas/jsPDF and its page loop), React state, effects,
  routing and the charts' rendering: presentation code.
- app/api/scenario-insights/route.ts, app/analyze/page.tsx, app/page.tsx and
  tailwind.config.ts are not part of this model.
  - They hold an SDK wrapper, form UI and styling.
  - The form's required-field rule is not needed by the engine, which accepts any strings.
