/** The decision logic of the technical-analysis tool: the data-length and
    column guards, the adaptive window and peak distance, the last three
    support and resistance levels, and the three chart-pattern rules over
    the peak and trough indices a peak finder reports. The indicator values
    themselves come from numeric libraries and are inputs here. */
module Technical {
  import opened Common

  const MinRows := 30

  /** `min(20, max(5, n // 10))` */
  function WindowSize(n: nat): (w: nat)
    ensures 5 <= w <= 20
    ensures 50 <= n < 210 ==> w == n / 10
  {
    Min(20, Max(5, n / 10))
  }

  /** `max(5, n // 20)` */
  function PeakDistance(n: nat): (d: nat)
    ensures d >= 5
    ensures n >= 100 ==> d == n / 20
  {
    Max(5, n / 20)
  }

  /** More data never shrinks the window or the peak distance. */
  lemma WindowMonotone(m: nat, n: nat)
    requires m <= n
    ensures WindowSize(m) <= WindowSize(n)
    ensures PeakDistance(m) <= PeakDistance(n)
  {
  }

  // ---------------------------------------------------------------------
  // Message text
  // ---------------------------------------------------------------------

  /** The decimal digit character for `d`. */
  function Digit(d: nat): char
    requires d < 10
  {
    (('0' as int) + d) as char
  }

  /** `str(n)` for a count. */
  function NatToString(n: nat): (s: string)
    ensures |s| >= 1
    ensures forall k :: 0 <= k < |s| ==> '0' <= s[k] <= '9'
  {
    if n < 10 then [Digit(n)] else NatToString(n / 10) + [Digit(n % 10)]
  }

  /** The number a string of decimal digits denotes. */
  function DigitsValue(s: string): nat
    requires forall k :: 0 <= k < |s| ==> '0' <= s[k] <= '9'
  {
    if s == [] then 0 else DigitsValue(s[..|s| - 1]) * 10 + ((s[|s| - 1] as int) - ('0' as int))
  }

  /** The count in the message reads back as the count. */
  lemma {:induction false} NatToStringReadsBack(n: nat)
    ensures DigitsValue(NatToString(n)) == n
  {
    if n >= 10 {
      NatToStringReadsBack(n / 10);
      var s := NatToString(n);
      assert s[..|s| - 1] == NatToString(n / 10);
      assert (s[|s| - 1] as int) - ('0' as int) == n % 10;
    } else {
      assert NatToString(n)[..0] == [];
    }
  }

  // ---------------------------------------------------------------------
  // Required columns
  // ---------------------------------------------------------------------

  const RequiredColumns: seq<string> := ["Open", "High", "Low", "Close", "Volume"]

  /** The first listed column that is missing or entirely null. */
  function FirstMissing(cols: seq<string>, usable: set<string>): Option<string> {
    if cols == [] then None
    else if cols[0] !in usable then Some(cols[0])
    else FirstMissing(cols[1..], usable)
  }

  lemma {:induction false} FirstMissingIsFirst(cols: seq<string>, usable: set<string>)
    ensures FirstMissing(cols, usable).None? <==> forall k :: 0 <= k < |cols| ==> cols[k] in usable
    ensures FirstMissing(cols, usable).Some? ==>
      exists k :: 0 <= k < |cols| && cols[k] == FirstMissing(cols, usable).value && cols[k] !in usable
        && forall j :: 0 <= j < k ==> cols[j] in usable
  {
    if cols != [] && cols[0] in usable {
      FirstMissingIsFirst(cols[1..], usable);
      if FirstMissing(cols, usable).Some? {
        var k :| 0 <= k < |cols[1..]| && cols[1..][k] == FirstMissing(cols, usable).value && cols[1..][k] !in usable
          && forall j :: 0 <= j < k ==> cols[1..][j] in usable;
        assert cols[k + 1] == cols[1..][k];
        assert forall j :: 0 <= j < k + 1 ==> cols[j] in usable by {
          forall j | 0 <= j < k + 1 ensures cols[j] in usable {
            if j > 0 {
              assert cols[j] == cols[1..][j - 1];
            }
          }
        }
      } else {
        forall k | 0 <= k < |cols| ensures cols[k] in usable {
          if k > 0 {
            assert cols[k] == cols[1..][k - 1];
          }
        }
      }
    }
  }

  /** The column check loop: the first required column that is absent or
      all null, if any. */
  method FirstMissingColumn(usable: set<string>) returns (missing: Option<string>)
    ensures missing == FirstMissing(RequiredColumns, usable)
  {
    var k := 0;
    while k < |RequiredColumns|
      invariant 0 <= k <= |RequiredColumns|
      invariant FirstMissing(RequiredColumns, usable) == FirstMissing(RequiredColumns[k..], usable)
    {
      if RequiredColumns[k] !in usable {
        return Some(RequiredColumns[k]);
      }
      assert RequiredColumns[k..][1..] == RequiredColumns[k + 1..];
      k := k + 1;
    }
    return None;
  }

  // ---------------------------------------------------------------------
  // Support and resistance
  // ---------------------------------------------------------------------

  /** Every index points at a row of the closes. */
  predicate InRange(closes: seq<real>, indices: seq<nat>)
  {
    forall k :: 0 <= k < |indices| ==> indices[k] < |closes|
  }

  /** `closes[indices]`: the close at each index, in index order. */
  function Picked(closes: seq<real>, indices: seq<nat>): (r: seq<real>)
    requires InRange(closes, indices)
    ensures |r| == |indices|
    ensures forall k :: 0 <= k < |r| ==> r[k] == closes[indices[k]]
  {
    seq(|indices|, k requires 0 <= k < |indices| => closes[indices[k]])
  }

  /** `closes[indices][-3:]`: the closes at the last three indices, or None
      when an index is out of range (the indexing raises). */
  function Levels(closes: seq<real>, indices: seq<nat>): (r: Option<seq<real>>)
    ensures r.Some? <==> InRange(closes, indices)
    ensures r.Some? ==> |r.value| == Min(3, |indices|)
    ensures r.Some? ==> forall k :: 0 <= k < |r.value| ==>
      |indices| - |r.value| + k < |indices| && indices[|indices| - |r.value| + k] < |closes| &&
      r.value[k] == closes[indices[|indices| - |r.value| + k]]
  {
    if InRange(closes, indices) then
      var picked := Picked(closes, indices);
      var levels := LastN(picked, 3);
      assert forall k :: 0 <= k < |levels| ==> levels[k] == picked[|picked| - |levels| + k];
      Some(levels)
    else None
  }

  // ---------------------------------------------------------------------
  // Chart patterns
  // ---------------------------------------------------------------------

  /** The three chart patterns; the tool's dictionary lists them by name. */
  datatype ChartPattern = HeadShoulders | DoubleTop | DoubleBottom

  function PatternName(p: ChartPattern): string {
    match p
    case HeadShoulders => "Head and Shoulders"
    case DoubleTop => "Double Top"
    case DoubleBottom => "Double Bottom"
  }

  /** Different patterns are reported under different names. */
  lemma PatternNamesDistinct(p: ChartPattern, q: ChartPattern)
    ensures PatternName(p) == PatternName(q) ==> p == q
  {
    assert PatternName(HeadShoulders)[0] == 'H';
    assert PatternName(DoubleTop)[0] == 'D' && PatternName(DoubleTop)[7] == 'T';
    assert PatternName(DoubleBottom)[0] == 'D' && PatternName(DoubleBottom)[7] == 'B';
  }

  function Abs(x: real): real { if x < 0.0 then -x else x }

  /** `_is_head_and_shoulders`: the middle of the last three peaks closes
      strictly above the other two; an index out of range is caught and
      reads as no pattern. */
  predicate HeadAndShoulders(closes: seq<real>, peaks: seq<nat>)
  {
    |closes| >= 60 && |peaks| >= 3 &&
    var left, head, right := peaks[|peaks| - 3], peaks[|peaks| - 2], peaks[|peaks| - 1];
    left < |closes| && head < |closes| && right < |closes| &&
    closes[head] > closes[left] && closes[head] > closes[right]
  }

  /** When the pattern is reported, the last three peaks index into the
      closes, there are at least 60 closes, and the head closes strictly
      above both shoulders. */
  lemma HeadIsHighest(closes: seq<real>, peaks: seq<nat>)
    requires HeadAndShoulders(closes, peaks)
    ensures |closes| >= 60 && |peaks| >= 3
    ensures forall k :: |peaks| - 3 <= k < |peaks| ==>
      && peaks[k] < |closes| && closes[peaks[k]] <= closes[peaks[|peaks| - 2]]
      && (k != |peaks| - 2 ==> closes[peaks[k]] < closes[peaks[|peaks| - 2]])
  {
    forall k | |peaks| - 3 <= k < |peaks|
      ensures && peaks[k] < |closes| && closes[peaks[k]] <= closes[peaks[|peaks| - 2]]
              && (k != |peaks| - 2 ==> closes[peaks[k]] < closes[peaks[|peaks| - 2]])
    {
      assert k == |peaks| - 3 || k == |peaks| - 2 || k == |peaks| - 1;
    }
  }

  /** The source's test `abs(b - a) / a < 0.03`. A zero `a` gives an
      infinite or NaN ratio, which compares false. */
  predicate RatioTest(a: real, b: real) {
    a != 0.0 && Abs(b - a) / a < 0.03
  }

  /** The same test without the division: a negative `a` makes the ratio
      negative, so it passes; a positive one bounds the difference. */
  predicate WithinBand(a: real, b: real) {
    a < 0.0 || (a > 0.0 && Abs(b - a) < 0.03 * a)
  }

  lemma WithinBandIsRatioTest(a: real, b: real)
    ensures WithinBand(a, b) <==> RatioTest(a, b)
  {
    if a > 0.0 {
      DivBelow(Abs(b - a), a, 0.03);
    } else if a < 0.0 {
      assert Abs(b - a) / a == -(Abs(b - a) / -a);
      assert Abs(b - a) / -a >= 0.0;
    }
  }

  /** The last two extrema (peaks, or troughs) close within 3% of the
      earlier one. */
  predicate Twin(closes: seq<real>, extrema: seq<nat>)
  {
    |closes| >= 40 && |extrema| >= 2 &&
    var earlier, later := extrema[|extrema| - 2], extrema[|extrema| - 1];
    earlier < |closes| && later < |closes| && WithinBand(closes[earlier], closes[later])
  }

  /** `Twin` is the source's check as written, ratio and all. */
  lemma TwinIsRatioTest(closes: seq<real>, extrema: seq<nat>)
    ensures Twin(closes, extrema) <==>
      |closes| >= 40 && |extrema| >= 2 &&
      var earlier, later := extrema[|extrema| - 2], extrema[|extrema| - 1];
      earlier < |closes| && later < |closes| && RatioTest(closes[earlier], closes[later])
  {
    if |closes| >= 40 && |extrema| >= 2 {
      var earlier, later := extrema[|extrema| - 2], extrema[|extrema| - 1];
      if earlier < |closes| && later < |closes| {
        WithinBandIsRatioTest(closes[earlier], closes[later]);
      }
    }
  }

  /** Dividing by a positive number keeps an inequality. */
  lemma DivBelow(x: real, a: real, c: real)
    requires a > 0.0
    ensures x / a < c <==> x < c * a
  {
    var q := x / a;
    assert q * a == x;
    assert c * a - x == (c - q) * a;
    if q < c {
      assert (c - q) * a > 0.0;
    }
    if x < c * a {
      assert (c - q) * a > 0.0;
    }
  }

  /** For a positive earlier close the rule is a plain 3% band. */
  lemma TwinIsThreePercentBand(closes: seq<real>, extrema: seq<nat>)
    requires |closes| >= 40 && |extrema| >= 2
    requires extrema[|extrema| - 2] < |closes| && extrema[|extrema| - 1] < |closes|
    requires closes[extrema[|extrema| - 2]] > 0.0
    ensures var a, b := closes[extrema[|extrema| - 2]], closes[extrema[|extrema| - 1]];
      Twin(closes, extrema) <==> a * 0.97 < b < a * 1.03
  {
  }

  function ChartPatterns(closes: seq<real>, peaks: seq<nat>, troughs: seq<nat>): seq<ChartPattern> {
    if |closes| < MinRows then []
    else
      (if HeadAndShoulders(closes, peaks) then [HeadShoulders] else [])
      + (if Twin(closes, peaks) then [DoubleTop] else [])
      + (if Twin(closes, troughs) then [DoubleBottom] else [])
  }

  /** The position of a pattern in the fixed order of the checks. */
  function PatternRank(p: ChartPattern): nat {
    match p
    case HeadShoulders => 0
    case DoubleTop => 1
    case DoubleBottom => 2
  }

  /** `_identify_chart_patterns`: each check appends its name when it holds. */
  method IdentifyChartPatterns(closes: seq<real>, peaks: seq<nat>, troughs: seq<nat>) returns (patterns: seq<ChartPattern>)
    ensures patterns == ChartPatterns(closes, peaks, troughs)
  {
    patterns := [];
    if |closes| < MinRows {
      return;
    }
    if HeadAndShoulders(closes, peaks) {
      patterns := patterns + [HeadShoulders];
    }
    if Twin(closes, peaks) {
      patterns := patterns + [DoubleTop];
    }
    if Twin(closes, troughs) {
      patterns := patterns + [DoubleBottom];
    }
  }

  /** The reported patterns are a subsequence of the three in the order of
      the checks, without repeats; each is reported exactly when
      its rule holds, and short series report nothing. */
  lemma ChartPatternsShape(closes: seq<real>, peaks: seq<nat>, troughs: seq<nat>)
    ensures var ps := ChartPatterns(closes, peaks, troughs);
      && |ps| <= 3
      && (forall i, j :: 0 <= i < j < |ps| ==> PatternRank(ps[i]) < PatternRank(ps[j]))
      && (|closes| >= MinRows ==>
            (HeadShoulders in ps <==> HeadAndShoulders(closes, peaks))
            && (DoubleTop in ps <==> Twin(closes, peaks))
            && (DoubleBottom in ps <==> Twin(closes, troughs)))
      && (|closes| < 40 ==> ps == [])
  {
  }

  // ---------------------------------------------------------------------
  // The tool
  // ---------------------------------------------------------------------

  /** The daily price history: its closes (after gap filling) and the
      columns that are present and not entirely null. */
  datatype History = History(closes: seq<real>, usableColumns: set<string>)

  /** The latest indicator values; None where the value is NaN. */
  datatype Indicators = Indicators(
    sma50: Option<real>, sma200: Option<real>, rsi: Option<real>, macd: Option<real>,
    bollingerHigh: Option<real>, bollingerLow: Option<real>, atr: Option<real>,
    volatility: Option<real>, momentum: Option<real>)

  /** The tool's dictionary: the analysis; `{error}` for too little data or
      a missing column; `{error, ticker}` for an exception. */
  datatype TechReport =
    | Analysis(ticker: string, currentPrice: real, indicators: Indicators, supportLevels: seq<real>,
               resistanceLevels: seq<real>, patterns: seq<ChartPattern>, dataPoints: nat)
    | DataError(error: string)
    | AnalysisError(error: string, ticker: string)

  /** The text Python gives for an index past the end of the closes. */
  const IndexErrorText := "index is out of bounds for axis 0"

  function InsufficientData(n: nat, ticker: string): string {
    "Insufficient data points (" + NatToString(n) + ") for ticker " + ticker
  }

  function MissingColumn(col: string, ticker: string): string {
    "Missing required column " + col + " for " + ticker
  }

  function ErrorFor(ticker: string, e: string): string {
    "Error analyzing " + ticker + ": " + e
  }

  /** The analysis once every guard has passed: the levels (whose indexing
      may raise) and the patterns. */
  function AnalysisFor(ticker: string, closes: seq<real>, ind: Indicators, peaks: seq<nat>, troughs: seq<nat>): (r: TechReport)
    requires |closes| >= MinRows
    ensures r.Analysis? ==>
      && r.ticker == ticker && r.dataPoints == |closes| && r.currentPrice == closes[|closes| - 1]
      && |r.supportLevels| <= 3 && |r.resistanceLevels| <= 3
    ensures !r.Analysis? ==> r.AnalysisError? && r.ticker == ticker
  {
    var support := Levels(closes, troughs);
    var resistance := Levels(closes, peaks);
    if support.Some? && resistance.Some? then
      Analysis(ticker, closes[|closes| - 1], ind, support.value, resistance.value, ChartPatterns(closes, peaks, troughs), |closes|)
    else AnalysisError(ErrorFor(ticker, IndexErrorText), ticker)
  }

  /** The levels' indexing raises exactly when a trough or a peak index is
      past the end of the closes; otherwise the analysis is returned. */
  lemma IndexErrorExactlyOutOfRange(ticker: string, closes: seq<real>, ind: Indicators, peaks: seq<nat>, troughs: seq<nat>)
    requires |closes| >= MinRows
    ensures AnalysisFor(ticker, closes, ind, peaks, troughs).Analysis? <==>
      (forall k :: 0 <= k < |troughs| ==> troughs[k] < |closes|) && (forall k :: 0 <= k < |peaks| ==> peaks[k] < |closes|)
  {
  }

  /** What `yf_tech_analysis(ticker)` returns, given the fetched history
      (or the fetch's exception), the indicator computation (or its
      exception) and the peak and trough indices of the closes. */
  function TechReportFor(ticker: string, history: Result<History>, indicators: Result<Indicators>,
                         peaks: seq<nat>, troughs: seq<nat>): (r: TechReport)
    ensures history.Failure? ==> r == AnalysisError(ErrorFor(ticker, history.error), ticker)
    ensures r.DataError? ==> history.Success?
    ensures r.Analysis? ==>
      && history.Success? && |history.value.closes| >= MinRows
      && indicators.Success? && r.indicators == indicators.value
  {
    match history
    case Failure(e) => AnalysisError(ErrorFor(ticker, e), ticker)
    case Success(h) =>
      if |h.closes| < MinRows then DataError(InsufficientData(|h.closes|, ticker))
      else
        match FirstMissing(RequiredColumns, h.usableColumns)
        case Some(col) => DataError(MissingColumn(col, ticker))
        case None =>
          match indicators
          case Failure(e) => AnalysisError(ErrorFor(ticker, e), ticker)
          case Success(ind) => AnalysisFor(ticker, h.closes, ind, peaks, troughs)
  }

  /** `yf_tech_analysis(ticker)`. */
  method TechAnalysis(ticker: string, history: Result<History>, indicators: Result<Indicators>,
                      peaks: seq<nat>, troughs: seq<nat>) returns (r: TechReport)
    ensures r == TechReportFor(ticker, history, indicators, peaks, troughs)
    ensures history.Failure? ==> r.AnalysisError? && r.ticker == ticker
    ensures history.Success? && |history.value.closes| < MinRows ==>
      r == DataError(InsufficientData(|history.value.closes|, ticker))
    ensures r.Analysis? ==>
      && history.Success? && |history.value.closes| >= MinRows
      && (forall c :: c in RequiredColumns ==> c in history.value.usableColumns)
      && indicators.Success? && r.indicators == indicators.value
      && |r.supportLevels| <= 3 && |r.resistanceLevels| <= 3
      && r.patterns == ChartPatterns(history.value.closes, peaks, troughs)
    ensures r.Analysis? ==> var closes := history.value.closes;
      r.dataPoints == |closes| && r.currentPrice == closes[|closes| - 1]
  {
    Guards(ticker, history, indicators, peaks, troughs);
    if history.Failure? {
      return AnalysisError(ErrorFor(ticker, history.error), ticker);
    }
    var h := history.value;
    var n := |h.closes|;
    if n < MinRows {
      return DataError(InsufficientData(n, ticker));
    }
    var missing := FirstMissingColumn(h.usableColumns);
    if missing.Some? {
      return DataError(MissingColumn(missing.value, ticker));
    }
    if indicators.Failure? {
      return AnalysisError(ErrorFor(ticker, indicators.error), ticker);
    }
    var support := Levels(h.closes, troughs);
    var resistance := Levels(h.closes, peaks);
    if support.None? || resistance.None? {
      return AnalysisError(ErrorFor(ticker, IndexErrorText), ticker);
    }
    var patterns := IdentifyChartPatterns(h.closes, peaks, troughs);
    r := Analysis(ticker, h.closes[n - 1], indicators.value, support.value, resistance.value, patterns, n);
  }

  /** The guards: too little data gives the count in the message, a missing
      column names the first one, and any exception gives the message with
      the ticker; an analysis is returned only when all guards pass. */
  lemma Guards(ticker: string, history: Result<History>, indicators: Result<Indicators>, peaks: seq<nat>, troughs: seq<nat>)
    ensures var r := TechReportFor(ticker, history, indicators, peaks, troughs);
      && (history.Failure? ==> r.AnalysisError? && r.ticker == ticker)
      && (history.Success? && |history.value.closes| < MinRows ==>
            r == DataError(InsufficientData(|history.value.closes|, ticker)))
      && (r.Analysis? ==>
            history.Success? && |history.value.closes| >= MinRows
            && (forall c :: c in RequiredColumns ==> c in history.value.usableColumns)
            && indicators.Success? && r.indicators == indicators.value)
      && (history.Success? && |history.value.closes| >= MinRows && FirstMissing(RequiredColumns, history.value.usableColumns).Some? ==>
            exists k :: 0 <= k < |RequiredColumns| && RequiredColumns[k] !in history.value.usableColumns
              && r == DataError(MissingColumn(RequiredColumns[k], ticker))
              && forall j :: 0 <= j < k ==> RequiredColumns[j] in history.value.usableColumns)
  {
    if history.Success? {
      FirstMissingIsFirst(RequiredColumns, history.value.usableColumns);
    }
  }

  /** An analysis reports the latest close, the number of rows, the
      indicators and the patterns in check order. */
  lemma AnalysisShape(ticker: string, closes: seq<real>, ind: Indicators, peaks: seq<nat>, troughs: seq<nat>)
    requires |closes| >= MinRows
    requires AnalysisFor(ticker, closes, ind, peaks, troughs).Analysis?
    ensures var r := AnalysisFor(ticker, closes, ind, peaks, troughs);
      && r.ticker == ticker && r.indicators == ind
      && r.dataPoints == |closes| && r.currentPrice == closes[|closes| - 1]
      && r.patterns == ChartPatterns(closes, peaks, troughs)
  {
  }

  /** An analysis reports the levels picked from the troughs (support)
      and from the peaks (resistance). */
  lemma AnalysisReadsLevels(ticker: string, closes: seq<real>, ind: Indicators, peaks: seq<nat>, troughs: seq<nat>)
    requires |closes| >= MinRows
    requires AnalysisFor(ticker, closes, ind, peaks, troughs).Analysis?
    ensures Levels(closes, troughs).Some? && Levels(closes, peaks).Some?
    ensures var r := AnalysisFor(ticker, closes, ind, peaks, troughs);
      r.supportLevels == Levels(closes, troughs).value && r.resistanceLevels == Levels(closes, peaks).value
  {
  }
}
