/**
 * The signal classifiers of analysis.go. Every classifier compares one or
 * more indicator readings against each other or against fixed thresholds
 * and returns a label. Readings are float64 in Go; they are only compared,
 * so they are modelled as reals (NaN and the infinities are not modelled).
 */
module Analysis {
  import opened Wrappers

  /** The labels of analysis.go:7-14 (the unused "ERROR" constant is omitted). */
  datatype Label = StrongSell | Sell | Neutral | Buy | StrongBuy

  /** The string constant Go uses for each label. */
  function Text(l: Label): (s: string)
    ensures s != ""
  {
    match l
    case StrongSell => "STRONG_SELL"
    case Sell => "SELL"
    case Neutral => "NEUTRAL"
    case Buy => "BUY"
    case StrongBuy => "STRONG_BUY"
  }

  /** Distinct labels are distinct strings, so a label can be read back from its text. */
  lemma TextInjective(a: Label, b: Label)
    ensures Text(a) == Text(b) <==> a == b
  {
  }

  /** The three-way alphabet that every indicator classifier stays in. */
  predicate IsSignal(l: Label) {
    l == Buy || l == Sell || l == Neutral
  }

  /** The opposite label: buying and selling swap, NEUTRAL stays. */
  function Mirror(l: Label): (m: Label)
    ensures IsSignal(m) <==> IsSignal(l)
    ensures (m == Neutral) <==> (l == Neutral)
    ensures Rank(m) == -Rank(l)
  {
    match l
    case StrongSell => StrongBuy
    case Sell => Buy
    case Neutral => Neutral
    case Buy => Sell
    case StrongBuy => StrongSell
  }

  /** Position of a label on the sell-to-buy scale, -2 .. 2. */
  function Rank(l: Label): (k: int)
    ensures -2 <= k <= 2
    ensures (k == 0) <==> (l == Neutral)
  {
    match l
    case StrongSell => -2
    case Sell => -1
    case Neutral => 0
    case Buy => 1
    case StrongBuy => 2
  }

  /** The error ComputeRecommend returns for a score outside [-1, 1]. */
  const RecommendError: string := "Failed ComputeRecommend "

  /** A score ComputeRecommend accepts. */
  predicate InRange(v: real) {
    -1.0 <= v <= 1.0
  }

  /**
   * Five-way recommendation from a score (analysis.go:17-31): half-open
   * bands of [-1, 1] with 0 its own band, an error for any other score.
   */
  function ComputeRecommend(v: real): (r: Result<Label, string>)
    ensures r.Success? <==> InRange(v)
    ensures r.Failure? ==> r.error == RecommendError
    ensures r.Success? ==> (r.value == Neutral <==> v == 0.0)
    ensures r.Success? ==> (Rank(r.value) < 0 <==> v < 0.0)
    ensures r.Success? ==> (Rank(r.value) > 0 <==> v > 0.0)
  {
    if -1.0 <= v < -0.5 then Success(StrongSell)
    else if -0.5 <= v < 0.0 then Success(Sell)
    else if v == 0.0 then Success(Neutral)
    else if 0.0 < v <= 0.5 then Success(Buy)
    else if 0.5 < v <= 1.0 then Success(StrongBuy)
    else Failure(RecommendError)
  }

  /** The band of [-1, 1] that each five-way label stands for. */
  predicate InBand(v: real, l: Label) {
    match l
    case StrongSell => -1.0 <= v < -0.5
    case Sell => -0.5 <= v < 0.0
    case Neutral => v == 0.0
    case Buy => 0.0 < v <= 0.5
    case StrongBuy => 0.5 < v <= 1.0
  }

  /** The bands cover exactly [-1, 1] and do not overlap; ComputeRecommend picks the band the score lies in. */
  lemma RecommendBandsPartition(v: real)
    ensures InRange(v) <==> exists l :: InBand(v, l)
    ensures forall a, b :: InBand(v, a) && InBand(v, b) ==> a == b
    ensures forall l :: InBand(v, l) <==> ComputeRecommend(v) == Success(l)
  {
    if InRange(v) {
      var l := ComputeRecommend(v).value;
      assert InBand(v, l);
    }
  }

  /** The boundary scores: -0.5 is SELL, 0.5 is BUY, the ends of [-1, 1] are the strong labels. */
  lemma RecommendBoundaries()
    ensures ComputeRecommend(-1.0) == Success(StrongSell)
    ensures ComputeRecommend(-0.5) == Success(Sell)
    ensures ComputeRecommend(0.0) == Success(Neutral)
    ensures ComputeRecommend(0.5) == Success(Buy)
    ensures ComputeRecommend(1.0) == Success(StrongBuy)
    ensures ComputeRecommend(1.5).Failure? && ComputeRecommend(-2.0).Failure?
  {
  }

  /** A higher score never gives a lower recommendation. */
  lemma RecommendMonotone(v: real, w: real)
    requires InRange(v) && InRange(w) && v <= w
    ensures Rank(ComputeRecommend(v).value) <= Rank(ComputeRecommend(w).value)
  {
  }

  /** Negating the score mirrors the recommendation. */
  lemma RecommendMirror(v: real)
    ensures ComputeRecommend(-v).Success? <==> ComputeRecommend(v).Success?
    ensures ComputeRecommend(v).Success? ==>
      ComputeRecommend(-v).value == Mirror(ComputeRecommend(v).value)
  {
  }

  /** The ±1 code of the scanner's "Rec." columns (analysis.go:35-44). */
  function ComputeSimple(v: real): (r: Label)
    ensures IsSignal(r)
    ensures (r == Sell) <==> v == -1.0
    ensures (r == Buy) <==> v == 1.0
  {
    if v == -1.0 then Sell
    else if v == 1.0 then Buy
    else Neutral
  }

  /** A moving average below the close is BUY, above it SELL (analysis.go:47-54). */
  function ComputeMA(ma: real, close: real): (r: Label)
    ensures IsSignal(r)
    ensures (r == Neutral) <==> ma == close
  {
    if ma < close then Buy
    else if ma > close then Sell
    else Neutral
  }

  predicate RsiBuy(rsi: real, rsi1: real) {
    rsi < 30.0 && rsi1 > rsi
  }

  predicate RsiSell(rsi: real, rsi1: real) {
    rsi > 70.0 && rsi1 < rsi
  }

  /** RSI: BUY when under 30 and the prior reading is higher, SELL when over 70 and the prior reading is lower (analysis.go:57-65). */
  function ComputeRSI(rsi: real, rsi1: real): (r: Label)
    ensures IsSignal(r)
    ensures r == Buy ==> rsi < 30.0
    ensures r == Sell ==> rsi > 70.0
    ensures rsi1 == rsi ==> r == Neutral
  {
    if RsiBuy(rsi, rsi1) then Buy
    else if RsiSell(rsi, rsi1) then Sell
    else Neutral
  }

  /** The BUY and SELL conditions of the RSI classifier exclude each other. */
  lemma RsiExclusive(rsi: real, rsi1: real)
    ensures !(RsiBuy(rsi, rsi1) && RsiSell(rsi, rsi1))
    ensures ComputeRSI(rsi, rsi1) == Buy <==> RsiBuy(rsi, rsi1)
    ensures ComputeRSI(rsi, rsi1) == Sell <==> RsiSell(rsi, rsi1)
  {
  }

  predicate StochBuy(k: real, d: real, k1: real, d1: real) {
    k < 20.0 && d < 20.0 && k > d && k1 < d1
  }

  predicate StochSell(k: real, d: real, k1: real, d1: real) {
    k > 80.0 && d > 80.0 && k < d && k1 > d1
  }

  /** Stochastic %K/%D crossover inside the oversold or overbought zone (analysis.go:68-75). */
  function ComputeStoch(k: real, d: real, k1: real, d1: real): (r: Label)
    ensures IsSignal(r)
    ensures r == Buy ==> k < 20.0 && d < k
    ensures r == Sell ==> k > 80.0 && k < d
    ensures 20.0 <= k <= 80.0 ==> r == Neutral
  {
    if StochBuy(k, d, k1, d1) then Buy
    else if StochSell(k, d, k1, d1) then Sell
    else Neutral
  }

  /** The BUY and SELL conditions of the stochastic classifier exclude each other. */
  lemma StochExclusive(k: real, d: real, k1: real, d1: real)
    ensures !(StochBuy(k, d, k1, d1) && StochSell(k, d, k1, d1))
    ensures ComputeStoch(k, d, k1, d1) == Buy <==> StochBuy(k, d, k1, d1)
    ensures ComputeStoch(k, d, k1, d1) == Sell <==> StochSell(k, d, k1, d1)
  {
  }

  predicate CciBuy(cci20: real, cci201: real) {
    cci20 < -100.0 && cci20 > cci201
  }

  predicate CciSell(cci20: real, cci201: real) {
    cci20 > 100.0 && cci20 < cci201
  }

  /** CCI(20): rising below -100 is BUY, falling above 100 is SELL (analysis.go:78-85). */
  function ComputeCCI20(cci20: real, cci201: real): (r: Label)
    ensures IsSignal(r)
    ensures -100.0 <= cci20 <= 100.0 ==> r == Neutral
    ensures cci20 == cci201 ==> r == Neutral
  {
    if CciBuy(cci20, cci201) then Buy
    else if CciSell(cci20, cci201) then Sell
    else Neutral
  }

  /** The BUY and SELL conditions of the CCI classifier exclude each other. */
  lemma CciExclusive(cci20: real, cci201: real)
    ensures !(CciBuy(cci20, cci201) && CciSell(cci20, cci201))
    ensures ComputeCCI20(cci20, cci201) == Buy <==> CciBuy(cci20, cci201)
    ensures ComputeCCI20(cci20, cci201) == Sell <==> CciSell(cci20, cci201)
  {
  }

  predicate AdxBuy(adx: real, pdi: real, ndi: real, pdi1: real, ndi1: real) {
    adx > 20.0 && pdi1 < ndi1 && pdi > ndi
  }

  predicate AdxSell(adx: real, pdi: real, ndi: real, pdi1: real, ndi1: real) {
    adx > 20.0 && pdi1 > ndi1 && pdi < ndi
  }

  /** ADX: with a trend (ADX over 20), a +DI/-DI crossover gives the signal (analysis.go:88-95). */
  function ComputeADX(adx: real, pdi: real, ndi: real, pdi1: real, ndi1: real): (r: Label)
    ensures IsSignal(r)
    ensures adx <= 20.0 ==> r == Neutral
    ensures pdi == ndi || pdi1 == ndi1 ==> r == Neutral
  {
    if AdxBuy(adx, pdi, ndi, pdi1, ndi1) then Buy
    else if AdxSell(adx, pdi, ndi, pdi1, ndi1) then Sell
    else Neutral
  }

  /** The BUY and SELL conditions of the ADX classifier exclude each other. */
  lemma AdxExclusive(adx: real, pdi: real, ndi: real, pdi1: real, ndi1: real)
    ensures !(AdxBuy(adx, pdi, ndi, pdi1, ndi1) && AdxSell(adx, pdi, ndi, pdi1, ndi1))
    ensures ComputeADX(adx, pdi, ndi, pdi1, ndi1) == Buy <==> AdxBuy(adx, pdi, ndi, pdi1, ndi1)
    ensures ComputeADX(adx, pdi, ndi, pdi1, ndi1) == Sell <==> AdxSell(adx, pdi, ndi, pdi1, ndi1)
  {
  }

  /**
   * Awesome Oscillator (analysis.go:98-105): crossing zero, or moving further
   * from zero on the same side. Both zero tests on the prior reading are strict.
   */
  function ComputeAO(ao: real, ao1: real): (r: Label)
    ensures IsSignal(r)
    ensures r == Buy ==> ao > 0.0
    ensures r == Sell ==> ao < 0.0
    ensures ao == 0.0 || ao1 == 0.0 ==> r == Neutral
  {
    if AoBuy(ao, ao1) then Buy
    else if AoSell(ao, ao1) then Sell
    else Neutral
  }

  /** Crossing above zero from below, or rising further above zero. */
  predicate AoBuy(ao: real, ao1: real) {
    (ao > 0.0 && ao1 < 0.0) || (ao > 0.0 && ao1 > 0.0 && ao > ao1)
  }

  /** Crossing below zero from above, or falling further below zero. */
  predicate AoSell(ao: real, ao1: real) {
    (ao < 0.0 && ao1 > 0.0) || (ao < 0.0 && ao1 < 0.0 && ao < ao1)
  }

  /** The BUY and SELL conditions of the awesome oscillator exclude each other. */
  lemma AoExclusive(ao: real, ao1: real)
    ensures !(AoBuy(ao, ao1) && AoSell(ao, ao1))
    ensures ComputeAO(ao, ao1) == Buy <==> AoBuy(ao, ao1)
    ensures ComputeAO(ao, ao1) == Sell <==> AoSell(ao, ao1)
  {
  }

  /** Momentum rising is BUY, falling SELL (analysis.go:108-115). */
  function ComputeMOM(mom: real, mom1: real): (r: Label)
    ensures IsSignal(r)
    ensures (r == Neutral) <==> mom == mom1
  {
    if mom > mom1 then Buy
    else if mom < mom1 then Sell
    else Neutral
  }

  /** MACD line above its signal line is BUY, below SELL (analysis.go:118-125). */
  function ComputeMACD(macd: real, signal: real): (r: Label)
    ensures IsSignal(r)
    ensures (r == Neutral) <==> macd == signal
  {
    if macd > signal then Buy
    else if macd < signal then Sell
    else Neutral
  }

  /** A close under the lower Bollinger band is BUY; this classifier never sells (analysis.go:128-133). */
  function ComputeBBBuy(close: real, bblower: real): (r: Label)
    ensures r == Buy || r == Neutral
    ensures (r == Buy) <==> close < bblower
  {
    if close < bblower then Buy else Neutral
  }

  /** A close over the upper Bollinger band is SELL; this classifier never buys (analysis.go:136-141). */
  function ComputeBBSell(close: real, bbupper: real): (r: Label)
    ensures r == Sell || r == Neutral
    ensures (r == Sell) <==> close > bbupper
  {
    if close > bbupper then Sell else Neutral
  }

  /** A parabolic SAR under the open is BUY, over it SELL (analysis.go:144-151). */
  function ComputePSAR(psar: real, open: real): (r: Label)
    ensures IsSignal(r)
    ensures (r == Neutral) <==> psar == open
  {
    if psar < open then Buy
    else if psar > open then Sell
    else Neutral
  }

  /**
   * The two-reading comparators are trichotomous; MA and PSAR buy when the
   * first reading is lower, Momentum and MACD when it is higher, and
   * swapping the two readings mirrors the label.
   */
  lemma ComparatorsTrichotomy(a: real, b: real)
    ensures ComputeMA(a, b) == Buy <==> a < b
    ensures ComputeMA(a, b) == Sell <==> a > b
    ensures ComputePSAR(a, b) == ComputeMA(a, b)
    ensures ComputeMOM(a, b) == Buy <==> a > b
    ensures ComputeMOM(a, b) == Sell <==> a < b
    ensures ComputeMACD(a, b) == ComputeMOM(a, b)
    ensures ComputeMOM(a, b) == ComputeMA(b, a)
    ensures ComputeMA(b, a) == Mirror(ComputeMA(a, b))
  {
  }

  /** Reflecting every reading about the middle of its scale mirrors each threshold classifier's label. */
  lemma ClassifiersMirror(x: real, y: real, z: real, w: real, u: real)
    ensures ComputeSimple(-x) == Mirror(ComputeSimple(x))
    ensures ComputeRSI(100.0 - x, 100.0 - y) == Mirror(ComputeRSI(x, y))
    ensures ComputeStoch(100.0 - x, 100.0 - y, 100.0 - z, 100.0 - w) == Mirror(ComputeStoch(x, y, z, w))
    ensures ComputeCCI20(-x, -y) == Mirror(ComputeCCI20(x, y))
    ensures ComputeADX(u, y, x, w, z) == Mirror(ComputeADX(u, x, y, z, w))
    ensures ComputeAO(-x, -y) == Mirror(ComputeAO(x, y))
    ensures ComputeBBSell(x, y) == Mirror(ComputeBBBuy(-x, -y))
  {
  }

  /** BUY needs the prior reading above the current one: a reading under 30 that rose is NEUTRAL, one that fell is BUY. */
  lemma RsiExamples()
    ensures ComputeRSI(50.0, 50.0) == Neutral
    ensures ComputeRSI(25.0, 20.0) == Neutral
    ensures ComputeRSI(25.0, 28.0) == Buy
    ensures ComputeRSI(75.0, 80.0) == Neutral
    ensures ComputeRSI(75.0, 72.0) == Sell
  {
  }

  /** The awesome oscillator's prior reading of exactly zero never counts as a crossing. */
  lemma AoZeroPrior(ao: real)
    ensures ComputeAO(ao, 0.0) == Neutral
    ensures ComputeAO(0.0, ao) == Neutral
  {
  }
}
