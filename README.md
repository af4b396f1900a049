# go-tvscanner signal engine in Dafny

This project models the decision logic of the `tvscanner` Go client library. The library sends a
scan request to a remote technical-analysis scanner and gets back one row of numbers per symbol.
It then turns that row into trading signals.

- `analysis.dfy` (module `Analysis`) models `analysis.go`. Each classifier compares indicator
  readings with each other or with fixed thresholds. It returns BUY, SELL or NEUTRAL.
  `ComputeRecommend` maps a score in [-1, 1] to one of five grades and fails on any other score.
- `scanner.dfy` (module `Scanner`) models `scanner.go`:
  - `ConcatAppend` builds the column list from the four indicator lists.
  - `PrepareData` maps the interval to a column suffix and builds the request columns.
  - The class `Scanner` keeps the last response and the recommendation summary between calls.
    Its `PrepareRecommendations` fills the three recommendation strings in turn.
  - `GetRecommendations`, `GetIchimoku` and `GetAnalysis` are modelled from the point where the
    response arrives. The counting part of `GetAnalysis` is `CountOscillators` and
    `CountMovingAverages`.
- `wrappers.dfy` holds `Option` (nil or an error) and `Result` (a value or an error).

Readings are `float64` in Go. They are only compared, never combined, so they are Dafny `real`s.
Labels are the datatype `Analysis.Label`. `Analysis.Text` gives the Go string of each label.
A response row is a `seq<real>`.

Behaviour of the code worth noting:
- `GetAnalysis` reads row indices up to 47 unconditionally (scanner.go:269-333), and `GetIchimoku`
  reads indices 0 and 1 (scanner.go:218-219). A shorter row panics in Go, so the model makes these
  lengths preconditions. `PrepareRecommendations` reads row[1] only once row[0] is accepted and row[2]
  only once row[1] is (scanner.go:146-157). So `GetRecommendations` on the row [2.0] does not panic,
  and the model's precondition `RecommendsReadable` asks for exactly the readings that are read.
- A recommendation score outside [-1, 1] does not abort `GetAnalysis` or `GetRecommendations`
  (scanner.go:183-186, 253-256). The error is only logged. The counts are still computed and the
  error returned is nil.
- `ComputeAO` tests the prior reading with the strict `ao1 < 0` and `ao1 > 0` (analysis.go:99-101).
  So a prior reading of exactly 0 never gives BUY or SELL.
- `ComputeRSI` gives BUY only when the prior reading is above the current one, and SELL only when
  it is below (analysis.go:58-61). So `ComputeRSI(25, 20)` and `ComputeRSI(75, 80)` are NEUTRAL
  (`Analysis.RsiExamples`).
- When `ComputeRecommend` fails, Go's `field, err = c.ComputeRecommend(v)` still stores `""` into
  the field (scanner.go:146, 151, 156). The fields after it keep the values of an earlier call.

## Model

| member | source | states |
|---|---|---|
| Analysis.TextInjective | analysis.go:7-13 | the five label strings are pairwise distinct, so a counter keyed by label text is keyed by label |
| Analysis.ComputeRecommend | analysis.go:17-31 | it succeeds exactly when -1 <= v <= 1, and otherwise fails with "Failed ComputeRecommend "; NEUTRAL iff v = 0; a selling grade iff v < 0; a buying grade iff v > 0 |
| Analysis.RecommendBandsPartition | analysis.go:18-30 | the five half-open bands cover exactly [-1, 1] and are pairwise disjoint; the result is the band the score lies in |
| Analysis.RecommendBoundaries | analysis.go:19-28 | -1 gives STRONG_SELL, -0.5 SELL, 0 NEUTRAL, 0.5 BUY, 1 STRONG_BUY; 1.5 and -2 fail |
| Analysis.RecommendMonotone | analysis.go:18-28 | a higher accepted score never gives a lower grade |
| Analysis.RecommendMirror | analysis.go:18-28 | negating the score mirrors the grade, and it keeps whether the call succeeds |
| Analysis.ComputeSimple | analysis.go:35-44 | SELL iff v = -1, BUY iff v = 1, NEUTRAL for every other value |
| Analysis.ComputeMA | analysis.go:47-54 | one of BUY/SELL/NEUTRAL, and NEUTRAL iff the average equals the close |
| Analysis.ComputeRSI | analysis.go:57-65 | three-way; BUY only under 30, SELL only over 70, NEUTRAL when the reading did not change |
| Analysis.RsiExclusive | analysis.go:58-61 | the BUY and SELL conditions never both hold; BUY iff rsi < 30 and the prior reading is higher, SELL iff rsi > 70 and the prior reading is lower |
| Analysis.RsiExamples | analysis.go:57-65 | (50,50), (25,20) and (75,80) are NEUTRAL; (25,28) is BUY; (75,72) is SELL |
| Analysis.ComputeStoch | analysis.go:68-75 | three-way; BUY only with %K under 20 above %D, SELL only with %K over 80 under %D, NEUTRAL for %K in [20, 80] |
| Analysis.StochExclusive | analysis.go:69-71 | the BUY and SELL conditions never both hold, and each label occurs exactly when its condition holds |
| Analysis.ComputeCCI20 | analysis.go:78-85 | three-way; NEUTRAL whenever the reading is in [-100, 100] or unchanged |
| Analysis.CciExclusive | analysis.go:79-81 | the BUY and SELL conditions never both hold, and each label occurs exactly when its condition holds |
| Analysis.ComputeADX | analysis.go:88-95 | three-way; NEUTRAL whenever ADX <= 20 or either pair of directional indicators is level |
| Analysis.AdxExclusive | analysis.go:89-91 | the BUY and SELL conditions never both hold, and each label occurs exactly when its condition holds |
| Analysis.ComputeAO | analysis.go:98-105 | three-way; BUY only when ao > 0, SELL only when ao < 0, NEUTRAL when ao = 0 or the prior reading is 0 |
| Analysis.AoExclusive | analysis.go:99-101 | the BUY and SELL conditions never both hold; BUY iff the oscillator crosses above zero from a negative prior or rises further above zero, SELL symmetrically below zero |
| Analysis.AoZeroPrior | analysis.go:99-101 | a prior reading of exactly 0, or a current reading of 0, gives NEUTRAL |
| Analysis.ComputeMOM | analysis.go:108-115 | three-way, and NEUTRAL iff momentum is unchanged |
| Analysis.ComputeMACD | analysis.go:118-125 | three-way, and NEUTRAL iff the MACD line equals the signal line |
| Analysis.ComputeBBBuy | analysis.go:128-133 | never SELL; BUY iff the close is under the lower band |
| Analysis.ComputeBBSell | analysis.go:136-141 | never BUY; SELL iff the close is over the upper band |
| Analysis.ComputePSAR | analysis.go:144-151 | three-way, and NEUTRAL iff the SAR equals the open |
| Analysis.ComparatorsTrichotomy | analysis.go:47-151 | MA and PSAR buy iff first < second, MOM and MACD iff first > second; PSAR equals MA and MACD equals MOM; swapping the readings mirrors the label |
| Analysis.ClassifiersMirror | analysis.go:35-141 | reflecting the readings about the middle of their scale (v to -v, or x to 100 - x, or +DI swapped with -DI) mirrors the label of each threshold classifier |
| Scanner.ConcatAppend | scanner.go:92-98 | the result is the in-order concatenation of the inputs, and its length is the sum of their lengths |
| Scanner.FlattenAppend | scanner.go:92-98 | concatenating two lists of inputs concatenates their results and adds their lengths |
| Scanner.FlattenLayout | scanner.go:92-98 | element j of input i sits at the position after all earlier inputs, so order is kept |
| Scanner.AnalysisColumns | scanner.go:229 | GetAnalysis requests the 49 columns of the four lists in turn |
| Scanner.OscillatorColumnWiring | scanner.go:269-310 | the row positions read for RSI (3,4), Stoch (5-8), CCI (9,10), ADX (11-15), AO (16,17), Mom (18,19), MACD (20,21) and the four simple codes (22,24,26,28) are the columns of those indicators |
| Scanner.MovingAverageColumnWiring | scanner.go:313-334 | position 30 is the close, 31-42 are the twelve averages in order, and 43, 45, 47 are the Ichimoku, VWMA and HullMA codes |
| Scanner.IntervalSuffix | scanner.go:103-132 | the suffix is empty exactly for intervals outside the seven known ones, and otherwise starts with "\|" |
| Scanner.IntervalSuffixTable | scanner.go:103-132 | 1m gives \|1, 5m \|5, 15m \|15, 1h \|60, 4h \|240, 1W \|1W, 1M \|1M; 1d and unknown intervals give "" |
| Scanner.IntervalSuffixInjective | scanner.go:105-125 | distinct known intervals get distinct suffixes |
| Scanner.PrepareData | scanner.go:101-142 | one ticker; as many columns as indicators; column i is indicator i followed by the interval's suffix |
| Scanner.CountTotal | scanner.go:246-247 | the BUY, SELL and NEUTRAL counts of a list of three-way signals add up to its length |
| Scanner.CountAppend | scanner.go:270 | counting one more signal adds one to that signal's count only |
| Scanner.TallyStep | scanner.go:270 | `counter[label] += 1` on the tally of the first n signals gives the tally of the first n + 1 |
| Scanner.Record | scanner.go:269-270 | incrementing signal k's key turns the tally of the signals before k into the tally up to k |
| Scanner.OscillatorSignal | scanner.go:269-310 | each of the eleven oscillator calls gives a BUY/SELL/NEUTRAL label |
| Scanner.OscillatorSignals | scanner.go:269-310 | eleven oscillator signals, all three-way |
| Scanner.MaCrossSignals | scanner.go:313-321 | twelve moving-average signals, all three-way |
| Scanner.MovingAverageSignals | scanner.go:313-334 | fifteen moving-average signals, all three-way |
| Scanner.CountOscillators | scanner.go:246-310 | the oscillator counter holds, for each label, how often that label occurs among the eleven oscillator signals |
| Scanner.CountMovingAverages | scanner.go:247-334 | the moving-average counter holds the label counts of the twelve crossings against the close and the three simple codes |
| Scanner.AnalysisSummary | scanner.go:359-364 | each returned count is the oscillator count plus the moving-average count of that label |
| Scanner.AnalysisCountsTotal | scanner.go:359-364 | BUY + SELL + NEUTRAL = 26, and each count lies in [0, 26] |
| Scanner.RecommendText | scanner.go:146 | the stored string is empty exactly when the score is outside [-1, 1], and otherwise the text of the score's grade |
| Scanner.Prepared | scanner.go:144-163 | all scores accepted: Oscillators is the grade of row[0], Summary of row[1], MovingAverages of row[2]; otherwise the first failing field becomes "", the fields before it hold their grades' texts and the fields after it keep their previous values; only the readings that are read need to exist |
| Scanner.PreparedStaleOnFailure | scanner.go:144-163 | on success the result does not depend on the previous fields; when row[0] or row[1] fails, MovingAverages is left over from before |
| Scanner.Scanner.PrepareRecommendations | scanner.go:144-163 | the new fields are `Prepared` of the old ones; nil error iff all three scores are accepted, otherwise "Failed ComputeRecommend "; counts and data unchanged; row[1] and row[2] need to exist only when read |
| Scanner.Scanner.GetRecommendations | scanner.go:165-198 | requests the three recommendation columns; on a response it prepares the fields and returns them with zero counts and a nil error, even when preparing failed |
| Scanner.Scanner.GetIchimoku | scanner.go:200-226 | requests Rec.Ichimoku and Ichimoku.BLine; returns the simple code of row[0] and the value row[1], or "" and 0 with the transport's error |
| Scanner.Scanner.GetAnalysis | scanner.go:228-365 | requests the 49 columns with the interval suffix; on a response it prepares the fields and returns `AnalysisSummary` of the fields it now holds and the row, with a nil error; on a transport error it returns the zero summary and leaves the state alone |

## Left out

- client.go is not part of this model. It holds the HTTP request, the timeout race between a goroutine and a timer, and body reading. `GetAnalysis`, `GetRecommendations` and `GetIchimoku` take the outcome of the transport and `json.Unmarshal` as a `Result` parameter.
- JSON: `PrepareData` returns the request as a `Data` value, not as marshalled bytes. `json.Unmarshal` becomes plain assignment of the response. A field missing from the JSON would keep its old value in Go; the model does not capture that.
- Logging through `ContextLogger`, the debug printing, and the "Interval is empty or not valid" message are left out. The `computedOscillators` and `computedMa` maps and the `maListCounter` index only feed that printing, so they are left out too.
- Float64 behaviour (NaN, infinities, rounding of the literal thresholds) is not modelled. Readings are reals.
- Short rows and an empty response panic in Go. The model states the readings that are read as a precondition: `HasRow(response, 48)` for `GetAnalysis`, `HasRow(response, 2)` for `GetIchimoku`, `HasRecommendRow(response)` for `GetRecommendations`.
- The unused `pivots` list, the commented-out indicator list, the unused `Error` constant and the unused `screener` parameter are left out.
- The constructors `New` and `NewWithCustomHttpClient` and `SetDebug` are left out: they only set up the transport.
- Scanner.CountOscillators: the source makes the eleven classifier calls as eleven statements. The model runs the same calls, with the same arguments and in the same order, as a loop over the table `OscillatorSignal`.
- Scanner.CountOscillators: the counter maps are keyed by `Label`, not by the label's string. The keys are the label constants, and `TextInjective` shows the two keyings are the same.
- Go's `int` counters cannot overflow here, since no count exceeds 26.
