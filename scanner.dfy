/**
 * The request shaping and the aggregation of scanner.go. A scan request
 * names one column per indicator; the scanner answers with one row of
 * numbers per symbol, in the same order, and GetAnalysis classifies that row
 * position by position and tallies the signals.
 *
 * The HTTP transport and JSON (un)marshalling are not modelled: the
 * request is returned as a Data value, and what the transport and
 * json.Unmarshal produced is passed in as a Result.
 */
module Scanner {
  import opened Wrappers
  import opened Analysis

  // ---------------------------------------------------------------------
  // Data model (scanner.go:40-75)

  /** One entry of the response: a symbol and its row of readings. */
  datatype SymbolData = SymbolData(symbol: string, values: seq<real>)

  /** The unmarshalled response body. */
  datatype DataResponse = DataResponse(data: seq<SymbolData>, totalCount: int)

  /** The request body: tickers, query types (never set) and columns. */
  datatype Data = Data(tickers: seq<string>, types: seq<string>, columns: seq<string>)

  /** The three recommendation strings; "" is Go's zero value and what a failed ComputeRecommend leaves. */
  datatype Recommend = Recommend(summary: string, oscillators: string, movingAverages: string)

  datatype RecommendSummary = RecommendSummary(recommend: Recommend, buyCount: int, sellCount: int, neutralCount: int)

  /** Go's zero RecommendSummary{}, returned on every error path. */
  const EmptySummary: RecommendSummary := RecommendSummary(Recommend("", "", ""), 0, 0, 0)

  /** The response holds a first symbol whose row has at least n readings (Go panics otherwise). */
  predicate HasRow(response: DataResponse, n: nat) {
    |response.data| >= 1 && |response.data[0].values| >= n
  }

  /** The response holds a first symbol whose row has the readings PrepareRecommendations reads. */
  predicate HasRecommendRow(response: DataResponse) {
    |response.data| >= 1 && RecommendsReadable(response.data[0].values)
  }

  // ---------------------------------------------------------------------
  // Column vocabulary (scanner.go:16-35)

  const Interval1Minute: string := "1m"
  const Interval5Minutes: string := "5m"
  const Interval15Minutes: string := "15m"
  const Interval1Hour: string := "1h"
  const Interval4Hours: string := "4h"
  const Interval1Day: string := "1d"
  const Interval1Week: string := "1W"
  const Interval1Month: string := "1M"

  const RecommendsList: seq<string> := ["Recommend.Other", "Recommend.All", "Recommend.MA"]
  const OscillatorsList: seq<string> :=
    ["RSI", "RSI[1]", "Stoch.K", "Stoch.D", "Stoch.K[1]", "Stoch.D[1]", "CCI20", "CCI20[1]",
     "ADX", "ADX+DI", "ADX-DI", "ADX+DI[1]", "ADX-DI[1]", "AO", "AO[1]", "Mom", "Mom[1]",
     "MACD.macd", "MACD.signal", "Rec.Stoch.RSI", "Stoch.RSI.K", "Rec.WR", "W.R",
     "Rec.BBPower", "BBPower", "Rec.UO", "UO", "close"]
  const MaList: seq<string> :=
    ["EMA10", "SMA10", "EMA20", "SMA20", "EMA30", "SMA30", "EMA50", "SMA50",
     "EMA100", "SMA100", "EMA200", "SMA200"]
  const MaSimpleList: seq<string> :=
    ["Rec.Ichimoku", "Ichimoku.BLine", "Rec.VWMA", "VWMA", "Rec.HullMA9", "HullMA9"]

  // ---------------------------------------------------------------------
  // concatAppend (scanner.go:92-98)

  /** The lists one after another. */
  function Flatten(slices: seq<seq<string>>): seq<string> {
    if slices == [] then [] else Flatten(slices[..|slices| - 1]) + slices[|slices| - 1]
  }

  /** Sum of the lengths of the lists. */
  function TotalLength(slices: seq<seq<string>>): nat {
    if slices == [] then 0 else TotalLength(slices[..|slices| - 1]) + |slices[|slices| - 1]|
  }

  /** Flattening distributes over concatenation of the list of lists. */
  lemma {:induction false} FlattenAppend(a: seq<seq<string>>, b: seq<seq<string>>)
    ensures Flatten(a + b) == Flatten(a) + Flatten(b)
    ensures TotalLength(a + b) == TotalLength(a) + TotalLength(b)
    decreases |b|
  {
    if b == [] {
      assert a + b == a;
    } else {
      var b' := b[..|b| - 1];
      assert (a + b)[..|a + b| - 1] == a + b';
      FlattenAppend(a, b');
    }
  }

  /**
   * The flattened list is as long as all inputs together, and element j of
   * input i sits after everything of the inputs before it.
   */
  lemma {:induction false} FlattenLayout(slices: seq<seq<string>>, i: nat, j: nat)
    requires i < |slices| && j < |slices[i]|
    ensures |Flatten(slices)| == TotalLength(slices)
    ensures TotalLength(slices[..i]) + j < |Flatten(slices)|
    ensures Flatten(slices)[TotalLength(slices[..i]) + j] == slices[i][j]
  {
    var pre, post := slices[..i], slices[i + 1..];
    assert slices == pre + [slices[i]] + post;
    FlattenAppend(pre + [slices[i]], post);
    FlattenAppend(pre, [slices[i]]);
    assert [slices[i]][..0] == [];
    assert Flatten([slices[i]]) == slices[i];
    FlattenLength(slices);
    FlattenLength(pre);
  }

  lemma {:induction false} FlattenLength(slices: seq<seq<string>>)
    ensures |Flatten(slices)| == TotalLength(slices)
  {
    if slices != [] {
      FlattenLength(slices[..|slices| - 1]);
    }
  }

  /** concatAppend: the slices appended to an initially empty list, in order. */
  method ConcatAppend(slices: seq<seq<string>>) returns (tmp: seq<string>)
    ensures tmp == Flatten(slices)
    ensures |tmp| == TotalLength(slices)
  {
    tmp := [];
    for i := 0 to |slices|
      invariant tmp == Flatten(slices[..i])
    {
      assert slices[..i + 1][..i] == slices[..i];
      tmp := tmp + slices[i];
    }
    assert slices[..|slices|] == slices;
    FlattenLength(slices);
  }

  lemma FlattenFour(a: seq<string>, b: seq<string>, c: seq<string>, d: seq<string>)
    ensures Flatten([a, b, c, d]) == a + b + c + d
  {
    assert [a, b, c, d][..3] == [a, b, c];
    assert [a, b, c][..2] == [a, b];
    assert [a, b][..1] == [a];
    assert [a][..0] == [];
    assert Flatten([a]) == a;
    assert Flatten([a, b]) == a + b;
    assert Flatten([a, b, c]) == a + b + c;
  }

  /** The column list GetAnalysis requests. */
  function AnalysisIndicators(): seq<string> {
    Flatten([RecommendsList, OscillatorsList, MaList, MaSimpleList])
  }

  /** GetAnalysis requests 49 columns: the recommendation, oscillator, moving-average and simple lists in turn. */
  lemma AnalysisColumns()
    ensures AnalysisIndicators() == RecommendsList + OscillatorsList + MaList + MaSimpleList
    ensures |AnalysisIndicators()| == 49
  {
    FlattenFour(RecommendsList, OscillatorsList, MaList, MaSimpleList);
  }

  /**
   * The columns the oscillator classifiers read are the ones they expect:
   * row index i of the response holds the indicator of column i.
   */
  lemma OscillatorColumnWiring()
    ensures var c := AnalysisIndicators();
      |c| == 49
      && c[0] == "Recommend.Other" && c[1] == "Recommend.All" && c[2] == "Recommend.MA"
      && c[3] == "RSI" && c[4] == "RSI[1]"
      && c[5] == "Stoch.K" && c[6] == "Stoch.D" && c[7] == "Stoch.K[1]" && c[8] == "Stoch.D[1]"
      && c[9] == "CCI20" && c[10] == "CCI20[1]"
      && c[11] == "ADX" && c[12] == "ADX+DI" && c[13] == "ADX-DI" && c[14] == "ADX+DI[1]" && c[15] == "ADX-DI[1]"
      && c[16] == "AO" && c[17] == "AO[1]"
      && c[18] == "Mom" && c[19] == "Mom[1]"
      && c[20] == "MACD.macd" && c[21] == "MACD.signal"
      && c[22] == "Rec.Stoch.RSI" && c[24] == "Rec.WR" && c[26] == "Rec.BBPower" && c[28] == "Rec.UO"
  {
    AnalysisColumns();
  }

  /** The moving-average classifiers read the close, the twelve averages and the three simple codes. */
  lemma MovingAverageColumnWiring()
    ensures var c := AnalysisIndicators();
      |c| == 49
      && c[30] == "close"
      && (forall i :: 31 <= i < 43 ==> c[i] == MaList[i - 31])
      && c[43] == "Rec.Ichimoku" && c[45] == "Rec.VWMA" && c[47] == "Rec.HullMA9"
  {
    AnalysisColumns();
  }

  // ---------------------------------------------------------------------
  // PrepareData (scanner.go:101-142)

  /** The intervals with a column suffix of their own. */
  predicate IsKnownInterval(interval: string) {
    interval in {Interval1Minute, Interval5Minutes, Interval15Minutes, Interval1Hour,
                 Interval4Hours, Interval1Week, Interval1Month}
  }

  /** The column suffix of an interval; every other interval, "1d" included, has none (scanner.go:103-132). */
  function IntervalSuffix(interval: string): (suffix: string)
    ensures suffix == "" <==> !IsKnownInterval(interval)
    ensures suffix != "" ==> suffix[0] == '|' && |suffix| >= 2
  {
    if interval == Interval1Minute then "|1"
    else if interval == Interval5Minutes then "|5"
    else if interval == Interval15Minutes then "|15"
    else if interval == Interval1Hour then "|60"
    else if interval == Interval4Hours then "|240"
    else if interval == Interval1Week then "|1W"
    else if interval == Interval1Month then "|1M"
    else ""
  }

  /** The suffix table of PrepareData; the daily interval and anything unknown request the default. */
  lemma IntervalSuffixTable()
    ensures IntervalSuffix("1m") == "|1" && IntervalSuffix("5m") == "|5" && IntervalSuffix("15m") == "|15"
    ensures IntervalSuffix("1h") == "|60" && IntervalSuffix("4h") == "|240"
    ensures IntervalSuffix("1W") == "|1W" && IntervalSuffix("1M") == "|1M"
    ensures IntervalSuffix(Interval1Day) == "" && IntervalSuffix("") == "" && IntervalSuffix("1D") == ""
  {
  }

  /** Distinct known intervals get distinct suffixes, so a request names its interval unambiguously. */
  lemma IntervalSuffixInjective(a: string, b: string)
    requires IsKnownInterval(a) && IsKnownInterval(b) && a != b
    ensures IntervalSuffix(a) != IntervalSuffix(b)
  {
  }

  /** The request for one symbol: each indicator name followed by the interval's suffix, in order. */
  method PrepareData(symbol: string, interval: string, indicators: seq<string>) returns (data: Data)
    ensures data.tickers == [symbol] && data.types == []
    ensures |data.columns| == |indicators|
    ensures forall i :: 0 <= i < |indicators| ==>
      data.columns[i] == indicators[i] + IntervalSuffix(interval)
  {
    var dataInterval := IntervalSuffix(interval);
    var columns: seq<string> := [];
    for i := 0 to |indicators|
      invariant |columns| == i
      invariant forall k :: 0 <= k < i ==> columns[k] == indicators[k] + dataInterval
    {
      columns := columns + [indicators[i] + dataInterval];
    }
    data := Data([symbol], [], columns);
  }

  // ---------------------------------------------------------------------
  // Signal counting (the body of GetAnalysis, scanner.go:246-334)

  /** How often a label occurs. */
  function Count(s: seq<Label>, l: Label): nat {
    if s == [] then 0 else (if s[0] == l then 1 else 0) + Count(s[1..], l)
  }

  /** Appending one signal adds one to its own count and nothing to the others. */
  lemma {:induction false} CountAppend(s: seq<Label>, x: Label, l: Label)
    ensures Count(s + [x], l) == Count(s, l) + (if x == l then 1 else 0)
  {
    if s != [] {
      assert (s + [x])[1..] == s[1..] + [x];
      CountAppend(s[1..], x, l);
    }
  }

  /** A list of three-way signals splits into its BUY, SELL and NEUTRAL counts. */
  lemma {:induction false} CountTotal(s: seq<Label>)
    requires forall i :: 0 <= i < |s| ==> IsSignal(s[i])
    ensures Count(s, Buy) + Count(s, Sell) + Count(s, Neutral) == |s|
  {
    if s != [] {
      CountTotal(s[1..]);
    }
  }

  /** Go's `counter[key] += 1`: a missing key starts at zero. */
  function Increment(counter: map<Label, int>, key: Label): map<Label, int> {
    counter[key := (if key in counter then counter[key] else 0) + 1]
  }

  /** The counter map of scanner.go:246-247 after counting the first n signals. */
  function Tally(s: seq<Label>, n: nat): map<Label, int>
    requires n <= |s|
  {
    map[Buy := Count(s[..n], Buy), Sell := Count(s[..n], Sell), Neutral := Count(s[..n], Neutral)]
  }

  /** The initial counter map {"BUY": 0, "SELL": 0, "NEUTRAL": 0}. */
  const ZeroCounter: map<Label, int> := map[Buy := 0, Sell := 0, Neutral := 0]

  /** Incrementing a signal's key counts one more occurrence of that signal. */
  lemma TallyStep(s: seq<Label>, n: nat)
    requires n < |s| && IsSignal(s[n])
    ensures Increment(Tally(s, n), s[n]) == Tally(s, n + 1)
  {
    assert s[..n + 1] == s[..n] + [s[n]];
    CountAppend(s[..n], s[n], Buy);
    CountAppend(s[..n], s[n], Sell);
    CountAppend(s[..n], s[n], Neutral);
  }

  /** Counts signal k of `signals` into a counter that holds the tally of the signals before it. */
  method Record(counter: map<Label, int>, ghost signals: seq<Label>, ghost k: nat, signal: Label)
    returns (next: map<Label, int>)
    requires k < |signals| && signals[k] == signal && IsSignal(signal)
    requires counter == Tally(signals, k)
    ensures next == Tally(signals, k + 1)
  {
    TallyStep(signals, k);
    next := Increment(counter, signal);
  }

  /** Oscillator signal k of a row: which classifier reads which row positions (scanner.go:269-310). */
  function OscillatorSignal(row: seq<real>, k: nat): (l: Label)
    requires |row| >= 29 && k < 11
    ensures IsSignal(l)
  {
    match k
    case 0 => ComputeRSI(row[3], row[4])
    case 1 => ComputeStoch(row[5], row[6], row[7], row[8])
    case 2 => ComputeCCI20(row[9], row[10])
    case 3 => ComputeADX(row[11], row[12], row[13], row[14], row[15])
    case 4 => ComputeAO(row[16], row[17])
    case 5 => ComputeMOM(row[18], row[19])
    case 6 => ComputeMACD(row[20], row[21])
    case 7 => ComputeSimple(row[22])  // Stoch.RSI
    case 8 => ComputeSimple(row[24])  // W%R
    case 9 => ComputeSimple(row[26])  // BBP
    case _ => ComputeSimple(row[28])  // UO
  }

  /** The eleven oscillator signals of a row, in the order GetAnalysis computes them. */
  function OscillatorSignals(row: seq<real>): (s: seq<Label>)
    requires |row| >= 29
    ensures |s| == 11
    ensures forall i :: 0 <= i < |s| ==> IsSignal(s[i])
  {
    seq(11, k requires 0 <= k < 11 => OscillatorSignal(row, k))
  }

  /** Each moving average of indices 31..42 against the close at index 30 (scanner.go:313-321). */
  function MaCrossSignals(row: seq<real>): (s: seq<Label>)
    requires |row| >= 43
    ensures |s| == 12
    ensures forall i :: 0 <= i < |s| ==> IsSignal(s[i])
  {
    seq(12, i requires 0 <= i < 12 => ComputeMA(row[31 + i], row[30]))
  }

  /** The moving-average signals: the twelve crossings, then Ichimoku, VWMA and HullMA (scanner.go:313-334). */
  function MovingAverageSignals(row: seq<real>): (s: seq<Label>)
    requires |row| >= 48
    ensures |s| == 15
    ensures forall i :: 0 <= i < |s| ==> IsSignal(s[i])
  {
    MaCrossSignals(row) + [ComputeSimple(row[43]), ComputeSimple(row[45]), ComputeSimple(row[47])]
  }

  /**
   * The oscillator counter of GetAnalysis over a row (scanner.go:246,
   * 269-310). The source makes the eleven classifier calls one after another;
   * here they are taken in the same order from the table OscillatorSignal.
   */
  method CountOscillators(row: seq<real>) returns (oscillatorsCounter: map<Label, int>)
    requires |row| >= 29
    ensures oscillatorsCounter == Tally(OscillatorSignals(row), 11)
  {
    ghost var signals := OscillatorSignals(row);
    oscillatorsCounter := ZeroCounter;
    for k := 0 to 11
      invariant oscillatorsCounter == Tally(signals, k)
    {
      var signal := OscillatorSignal(row, k);
      oscillatorsCounter := Record(oscillatorsCounter, signals, k, signal);
    }
  }

  /**
   * The moving-average counter of GetAnalysis over a row (scanner.go:247,
   * 313-334). Index 47 is read, so the row must have at least 48 readings.
   */
  method CountMovingAverages(row: seq<real>) returns (maCounter: map<Label, int>)
    requires |row| >= 48
    ensures maCounter == Tally(MovingAverageSignals(row), 15)
  {
    maCounter := ZeroCounter;

    // MOVING AVERAGES: the address test `&Data[index] != nil` always holds, so every index is compared.
    var close := row[30];
    ghost var signals := MovingAverageSignals(row);
    assert ZeroCounter == Tally(signals, 0);
    for index := 31 to 43
      invariant maCounter == Tally(signals, index - 31)
    {
      var ma := ComputeMA(row[index], close);
      maCounter := Record(maCounter, signals, index - 31, ma);
    }

    // MOVING AVERAGES, pt 2
    var ichimoku := ComputeSimple(row[43]);
    maCounter := Record(maCounter, signals, 12, ichimoku);
    var vwma := ComputeSimple(row[45]);
    maCounter := Record(maCounter, signals, 13, vwma);
    var hullMa := ComputeSimple(row[47]);
    maCounter := Record(maCounter, signals, 14, hullMa);
  }

  /** The summary GetAnalysis returns: the given recommendations and the per-label sums of both counters. */
  function AnalysisSummary(recommend: Recommend, row: seq<real>): (summary: RecommendSummary)
    requires |row| >= 48
    ensures summary.recommend == recommend
    ensures summary.buyCount == Count(OscillatorSignals(row), Buy) + Count(MovingAverageSignals(row), Buy)
    ensures summary.sellCount == Count(OscillatorSignals(row), Sell) + Count(MovingAverageSignals(row), Sell)
    ensures summary.neutralCount == Count(OscillatorSignals(row), Neutral) + Count(MovingAverageSignals(row), Neutral)
  {
    assert OscillatorSignals(row)[..11] == OscillatorSignals(row);
    assert MovingAverageSignals(row)[..15] == MovingAverageSignals(row);
    var oscillatorsCounter := Tally(OscillatorSignals(row), 11);
    var maCounter := Tally(MovingAverageSignals(row), 15);
    RecommendSummary(recommend,
      oscillatorsCounter[Buy] + maCounter[Buy],
      oscillatorsCounter[Sell] + maCounter[Sell],
      oscillatorsCounter[Neutral] + maCounter[Neutral])
  }

  /** Every one of the 26 classifications is counted exactly once: 11 oscillators, 12 crossings and 3 simple codes. */
  lemma AnalysisCountsTotal(recommend: Recommend, row: seq<real>)
    requires |row| >= 48
    ensures var s := AnalysisSummary(recommend, row);
      s.buyCount + s.sellCount + s.neutralCount == 26
      && 0 <= s.buyCount <= 26 && 0 <= s.sellCount <= 26 && 0 <= s.neutralCount <= 26
  {
    CountTotal(OscillatorSignals(row));
    CountTotal(MovingAverageSignals(row));
  }

  // ---------------------------------------------------------------------
  // Recommendations (scanner.go:144-163)

  /** The string Go's `field, err = c.ComputeRecommend(v)` stores: the label's text, or "" on failure. */
  function RecommendText(v: real): (s: string)
    ensures s == "" <==> !InRange(v)
    ensures InRange(v) ==> s == Text(ComputeRecommend(v).value)
  {
    match ComputeRecommend(v)
    case Success(l) => Text(l)
    case Failure(_) => ""
  }

  /**
   * The readings PrepareRecommendations reads exist: row[0] always, row[1]
   * only once row[0] is accepted, row[2] only once row[1] is (Go panics on a
   * missing one, and returns before reading the next after a failure).
   */
  predicate RecommendsReadable(row: seq<real>) {
    |row| >= 1
    && (InRange(row[0]) ==> |row| >= 2)
    && (InRange(row[0]) && InRange(row[1]) ==> |row| >= 3)
  }

  /** All three leading scores of a row are accepted by ComputeRecommend. */
  predicate RecommendsInRange(row: seq<real>)
    requires RecommendsReadable(row)
  {
    InRange(row[0]) && InRange(row[1]) && InRange(row[2])
  }

  /**
   * The Recommend fields after PrepareRecommendations: Oscillators from
   * row[0], then Summary from row[1], then MovingAverages from row[2],
   * stopping after the first score that fails.
   */
  function Prepared(prev: Recommend, row: seq<real>): (r: Recommend)
    requires RecommendsReadable(row)
    ensures RecommendsInRange(row) ==>
      r == Recommend(Text(ComputeRecommend(row[1]).value), Text(ComputeRecommend(row[0]).value),
                     Text(ComputeRecommend(row[2]).value))
    ensures !InRange(row[0]) ==> r == prev.(oscillators := "")
    ensures InRange(row[0]) && !InRange(row[1]) ==>
      r == prev.(oscillators := Text(ComputeRecommend(row[0]).value), summary := "")
    ensures InRange(row[0]) && InRange(row[1]) && !InRange(row[2]) ==>
      r == Recommend(Text(ComputeRecommend(row[1]).value), Text(ComputeRecommend(row[0]).value), "")
  {
    var afterOscillators := prev.(oscillators := RecommendText(row[0]));
    if !InRange(row[0]) then afterOscillators
    else
      var afterSummary := afterOscillators.(summary := RecommendText(row[1]));
      if !InRange(row[1]) then afterSummary
      else afterSummary.(movingAverages := RecommendText(row[2]))
  }

  /**
   * When all three scores are accepted the fields do not depend on their previous values; when the
   * first or second score fails, MovingAverages is whatever the scanner held before.
   */
  lemma PreparedStaleOnFailure(prev: Recommend, other: Recommend, row: seq<real>)
    requires RecommendsReadable(row)
    ensures RecommendsInRange(row) ==> Prepared(prev, row) == Prepared(other, row)
    ensures (!InRange(row[0]) || !InRange(row[1])) && prev.movingAverages != other.movingAverages ==>
      Prepared(prev, row) != Prepared(other, row)
  {
  }

  /** The scanner client's state: the last response and the recommendation summary it keeps between calls. */
  class Scanner {
    var data: DataResponse
    var recommendSummary: RecommendSummary

    /** scanner.go:144-163: sets the three fields in turn and returns at the first error. */
    method PrepareRecommendations() returns (err: Option<string>)
      requires HasRecommendRow(data)
      modifies this`recommendSummary
      ensures recommendSummary ==
        old(recommendSummary).(recommend := Prepared(old(recommendSummary.recommend), data.data[0].values))
      ensures err.None? <==> RecommendsInRange(data.data[0].values)
      ensures err.Some? ==> err.value == RecommendError
    {
      var row := data.data[0].values;
      var r := ComputeRecommend(row[0]);
      recommendSummary := recommendSummary.(recommend := recommendSummary.recommend.(oscillators := RecommendText(row[0])));
      if r.Failure? {
        return Some(r.error);
      }
      r := ComputeRecommend(row[1]);
      recommendSummary := recommendSummary.(recommend := recommendSummary.recommend.(summary := RecommendText(row[1])));
      if r.Failure? {
        return Some(r.error);
      }
      r := ComputeRecommend(row[2]);
      recommendSummary := recommendSummary.(recommend := recommendSummary.recommend.(movingAverages := RecommendText(row[2])));
      if r.Failure? {
        return Some(r.error);
      }
      return None;
    }

    /**
     * scanner.go:165-198 after the transport: the request asks for the three
     * recommendation columns; on a response the recommendations are prepared
     * and returned with zero counts and a nil error, even when preparing failed.
     */
    method GetRecommendations(exchange: string, symbol: string, interval: string,
                              response: Result<DataResponse, string>)
      returns (payload: Data, summary: RecommendSummary, err: Option<string>)
      requires response.Success? ==> HasRecommendRow(response.value)
      modifies this
      ensures payload.tickers == [exchange + ":" + symbol]
      ensures |payload.columns| == 3
      ensures forall i :: 0 <= i < 3 ==> payload.columns[i] == RecommendsList[i] + IntervalSuffix(interval)
      ensures response.Failure? ==>
        summary == EmptySummary && err == Some(response.error)
        && data == old(data) && recommendSummary == old(recommendSummary)
      ensures response.Success? ==>
        data == response.value
        && recommendSummary == old(recommendSummary).(recommend :=
             Prepared(old(recommendSummary.recommend), response.value.data[0].values))
        && summary == RecommendSummary(recommendSummary.recommend, 0, 0, 0)
        && err == None
    {
      var indicators := ConcatAppend([RecommendsList]);
      assert [RecommendsList][..0] == [];
      payload := PrepareData(exchange + ":" + symbol, interval, indicators);
      if response.Failure? {
        return payload, EmptySummary, Some(response.error);
      }
      data := response.value;
      var prepareErr := PrepareRecommendations();
      // the error is only logged
      summary := RecommendSummary(recommendSummary.recommend, 0, 0, 0);
      err := None;
    }

    /** scanner.go:200-226 after the transport: the Ichimoku code of row[0] and the base line row[1]. */
    method GetIchimoku(exchange: string, symbol: string, interval: string,
                       response: Result<DataResponse, string>)
      returns (payload: Data, ichimoku: string, value: real, err: Option<string>)
      requires response.Success? ==> HasRow(response.value, 2)
      modifies this`data
      ensures payload.tickers == [exchange + ":" + symbol]
      ensures |payload.columns| == 2
      ensures payload.columns[0] == "Rec.Ichimoku" + IntervalSuffix(interval)
      ensures payload.columns[1] == "Ichimoku.BLine" + IntervalSuffix(interval)
      ensures response.Failure? ==>
        ichimoku == "" && value == 0.0 && err == Some(response.error) && data == old(data)
      ensures response.Success? ==>
        data == response.value
        && ichimoku == Text(ComputeSimple(response.value.data[0].values[0]))
        && value == response.value.data[0].values[1]
        && err == None
    {
      payload := PrepareData(exchange + ":" + symbol, interval, ["Rec.Ichimoku", "Ichimoku.BLine"]);
      if response.Failure? {
        return payload, "", 0.0, Some(response.error);
      }
      data := response.value;
      ichimoku := Text(ComputeSimple(data.data[0].values[0]));
      value := data.data[0].values[1];
      err := None;
    }

    /**
     * scanner.go:228-365 after the transport: requests all 49 columns, then
     * prepares the recommendations (a failure is only logged), counts the 26
     * signals of the row and returns the counts with the Recommend fields
     * the scanner now holds, and a nil error.
     */
    method GetAnalysis(exchange: string, symbol: string, interval: string,
                       response: Result<DataResponse, string>)
      returns (payload: Data, summary: RecommendSummary, err: Option<string>)
      requires response.Success? ==> HasRow(response.value, 48)
      modifies this
      ensures payload.tickers == [exchange + ":" + symbol]
      ensures |payload.columns| == |AnalysisIndicators()|
      ensures forall i :: 0 <= i < |AnalysisIndicators()| ==>
        payload.columns[i] == AnalysisIndicators()[i] + IntervalSuffix(interval)
      ensures response.Failure? ==>
        summary == EmptySummary && err == Some(response.error)
        && data == old(data) && recommendSummary == old(recommendSummary)
      ensures response.Success? ==>
        data == response.value
        && recommendSummary == old(recommendSummary).(recommend :=
             Prepared(old(recommendSummary.recommend), response.value.data[0].values))
        && summary == AnalysisSummary(recommendSummary.recommend, response.value.data[0].values)
        && err == None
    {
      var indicators := ConcatAppend([RecommendsList, OscillatorsList, MaList, MaSimpleList]);
      payload := PrepareData(exchange + ":" + symbol, interval, indicators);
      if response.Failure? {
        return payload, EmptySummary, Some(response.error);
      }
      data := response.value;

      // RECOMMENDATIONS: the error is only logged
      var prepareErr := PrepareRecommendations();

      var oscillatorsCounter := CountOscillators(data.data[0].values);
      var maCounter := CountMovingAverages(data.data[0].values);
      summary := RecommendSummary(recommendSummary.recommend,
        oscillatorsCounter[Buy] + maCounter[Buy],
        oscillatorsCounter[Sell] + maCounter[Sell],
        oscillatorsCounter[Neutral] + maCounter[Neutral]);
      err := None;
    }
  }
}
