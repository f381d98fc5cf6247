/** The fundamental-analysis tool: seven ratios derived from the last
    columns of the financial statements, each set to None when it cannot be computed, beside
    fields copied from the market-data `info` dictionary. The top-level file
    and the `tools/` file hold the same logic. */
module Fundamentals {
  import opened Common
  import opened MarketData

  /** A statement table: the number of period columns and the rows by
      label, each row its values in the table's column order. The ratios
      read the last column and the one before it, as `iloc[-1]` and
      `iloc[-2]` do; which periods those are is the provider's column
      order, which the model does not fix. */
  datatype Frame = Frame(columns: nat, rows: map<string, seq<real>>)

  /** A table is empty when it has no columns or no rows. */
  predicate Empty(f: Frame) {
    f.columns == 0 || |f.rows| == 0
  }

  /** `f.loc[row].iloc[-1]`; None where the lookup would raise. */
  function Last(f: Frame, row: string): (v: Option<real>)
    ensures v.Some? <==> row in f.rows && |f.rows[row]| >= 1
  {
    if row in f.rows && |f.rows[row]| >= 1 then Some(f.rows[row][|f.rows[row]| - 1]) else None
  }

  /** `f.loc[row].iloc[-2]`; None where the lookup would raise. */
  function SecondLast(f: Frame, row: string): (v: Option<real>)
    ensures v.Some? <==> row in f.rows && |f.rows[row]| >= 2
  {
    if row in f.rows && |f.rows[row]| >= 2 then Some(f.rows[row][|f.rows[row]| - 2]) else None
  }

  /** A floating-point quotient: dividing by zero gives an infinity or NaN,
      not an exception. */
  datatype Float = Finite(value: real) | NonFinite

  function Divide(a: real, b: real): (q: Float)
    ensures q.Finite? <==> b != 0.0
    ensures q.Finite? ==> q.value * b == a
  {
    if b == 0.0 then NonFinite else Finite(a / b)
  }

  /** A ratio whose operands may be missing: None as soon as one is. */
  function Quotient(a: Option<real>, b: Option<real>): (q: Option<Float>)
    ensures q.Some? <==> a.Some? && b.Some?
  {
    if a.Some? && b.Some? then Some(Divide(a.value, b.value)) else None
  }

  /** `(cur - prev) / prev` from the last two values of a row. */
  function Growth(f: Frame, row: string): (g: Option<Float>)
    ensures g.Some? <==> row in f.rows && |f.rows[row]| >= 2
  {
    match (Last(f, row), SecondLast(f, row))
    case (Some(cur), Some(prev)) => Some(Divide(cur - prev, prev))
    case _ => None
  }

  datatype Statements = Statements(financials: Frame, balanceSheet: Frame, cashFlow: Frame)

  datatype Ratios = Ratios(
    currentRatio: Option<Float>,
    debtToEquity: Option<Float>,
    returnOnEquity: Option<Float>,
    returnOnAssets: Option<Float>,
    revenueGrowth: Option<Float>,
    netIncomeGrowth: Option<Float>,
    freeCashFlow: Option<real>)

  const NoRatios := Ratios(None, None, None, None, None, None, None)

  /** The guarded block: `statements` is the result of reading the three
      tables, which may raise. */
  function DerivedRatios(statements: Result<Statements>): (r: Ratios)
    ensures r != NoRatios ==>
      statements.Success? && !Empty(statements.value.financials) && !Empty(statements.value.balanceSheet)
    ensures r.revenueGrowth.Some? || r.netIncomeGrowth.Some? ==>
      statements.Success? && statements.value.financials.columns >= 2
    ensures r.freeCashFlow.Some? ==> statements.Success? && !Empty(statements.value.cashFlow)
  {
    match statements
    case Failure(_) => NoRatios
    case Success(s) =>
      var fin, bal, cash := s.financials, s.balanceSheet, s.cashFlow;
      if Empty(fin) || Empty(bal) then NoRatios
      else
        Ratios(
          Quotient(Last(bal, "Total Current Assets"), Last(bal, "Total Current Liabilities")),
          Quotient(Last(bal, "Total Liabilities"), Last(bal, "Total Stockholder Equity")),
          Quotient(Last(fin, "Net Income"), Last(bal, "Total Stockholder Equity")),
          Quotient(Last(fin, "Net Income"), Last(bal, "Total Assets")),
          if fin.columns >= 2 then Growth(fin, "Total Revenue") else None,
          if fin.columns >= 2 then Growth(fin, "Net Income") else None,
          if Empty(cash) then None
          else
            match (Last(cash, "Operating Cash Flow"), Last(cash, "Capital Expenditures"))
            case (Some(ocf), Some(capex)) => Some(ocf - capex)
            case _ => None)
  }

  /** A failed read, or an empty income statement or balance sheet, leaves
      all seven ratios None. */
  lemma NoRatiosWithoutStatements(statements: Result<Statements>)
    requires statements.Failure? || Empty(statements.value.financials) || Empty(statements.value.balanceSheet)
    ensures DerivedRatios(statements) == NoRatios
  {
  }

  /** With both tables present, each ratio is computed exactly when its own
      rows are there (and, for the growth rates, two periods are), whatever
      happens to the other rows. */
  lemma RatiosGatedIndependently(s: Statements)
    requires !Empty(s.financials) && !Empty(s.balanceSheet)
    ensures var r := DerivedRatios(Success(s));
      var fin, bal, cash := s.financials, s.balanceSheet, s.cashFlow;
      && (r.currentRatio.Some? <==> Last(bal, "Total Current Assets").Some? && Last(bal, "Total Current Liabilities").Some?)
      && (r.debtToEquity.Some? <==> Last(bal, "Total Liabilities").Some? && Last(bal, "Total Stockholder Equity").Some?)
      && (r.returnOnEquity.Some? <==> Last(fin, "Net Income").Some? && Last(bal, "Total Stockholder Equity").Some?)
      && (r.returnOnAssets.Some? <==> Last(fin, "Net Income").Some? && Last(bal, "Total Assets").Some?)
      && (r.revenueGrowth.Some? <==> fin.columns >= 2 && SecondLast(fin, "Total Revenue").Some?)
      && (r.netIncomeGrowth.Some? <==> fin.columns >= 2 && SecondLast(fin, "Net Income").Some?)
      && (r.freeCashFlow.Some? <==>
            !Empty(cash) && Last(cash, "Operating Cash Flow").Some? && Last(cash, "Capital Expenditures").Some?)
  {
  }

  /** The formulas: the current ratio is the last column's current assets
      over its current liabilities, finite exactly when the liabilities are
      non-zero; free cash flow is the last column's operating cash flow less
      its capital expenditures; revenue growth is the relative change of the
      last column over the one before. */
  lemma Formulas(s: Statements)
    requires !Empty(s.financials) && !Empty(s.balanceSheet)
    ensures var r := DerivedRatios(Success(s));
      var bal, cash, fin := s.balanceSheet, s.cashFlow, s.financials;
      && (r.currentRatio.Some? ==>
            var assets, liabilities := Last(bal, "Total Current Assets").value, Last(bal, "Total Current Liabilities").value;
            (r.currentRatio.value.Finite? <==> liabilities != 0.0)
            && (r.currentRatio.value.Finite? ==> r.currentRatio.value.value * liabilities == assets))
      && (r.freeCashFlow.Some? ==>
            r.freeCashFlow.value == Last(cash, "Operating Cash Flow").value - Last(cash, "Capital Expenditures").value)
      && (r.revenueGrowth.Some? && r.revenueGrowth.value.Finite? ==>
            var cur, prev := Last(fin, "Total Revenue").value, SecondLast(fin, "Total Revenue").value;
            prev * r.revenueGrowth.value.value == cur - prev)
  {
  }

  /** The tool's dictionary. */
  datatype Report = Report(
    ticker: string,
    companyName: Option<string>,
    sector: Option<string>,
    industry: Option<string>,
    marketCap: Option<real>,
    peRatio: Option<real>,
    forwardPe: Option<real>,
    pegRatio: Option<real>,
    priceToBook: Option<real>,
    dividendYield: Option<real>,
    beta: Option<real>,
    high52Week: Option<real>,
    low52Week: Option<real>,
    ratios: Ratios,
    analystRecommendation: Option<string>,
    targetPrice: Option<real>)

  /** `yf_fundamental_analysis(ticker)`. The info fetch sits outside the
      `try`, so its failure escapes the tool; everything that goes wrong
      with the statements only clears ratios. */
  function FundamentalAnalysis(ticker: string, info: Result<Info>, statements: Result<Statements>): (r: Result<Report>)
    ensures r.Failure? <==> info.Failure?
  {
    match info
    case Failure(e) => Failure(e)
    case Success(i) =>
      Success(Report(ticker, i.longName, i.sector, i.industry, i.marketCap, i.trailingPE, i.forwardPE, i.pegRatio,
                     i.priceToBook, i.dividendYield, i.beta, i.fiftyTwoWeekHigh, i.fiftyTwoWeekLow,
                     DerivedRatios(statements), i.recommendationKey, i.targetMeanPrice))
  }

  /** The report echoes the ticker and copies each `info` field unchanged,
      whatever the statements are; only the ratios depend on them. */
  lemma InfoPassedThrough(ticker: string, i: Info, statements: Result<Statements>, other: Result<Statements>)
    ensures var r := FundamentalAnalysis(ticker, Success(i), statements).value;
      && r.ticker == ticker && r.companyName == i.longName && r.sector == i.sector && r.industry == i.industry
      && r.marketCap == i.marketCap && r.peRatio == i.trailingPE && r.forwardPe == i.forwardPE
      && r.pegRatio == i.pegRatio && r.priceToBook == i.priceToBook && r.dividendYield == i.dividendYield
      && r.beta == i.beta && r.high52Week == i.fiftyTwoWeekHigh && r.low52Week == i.fiftyTwoWeekLow
      && r.analystRecommendation == i.recommendationKey && r.targetPrice == i.targetMeanPrice
      && r.ratios == DerivedRatios(statements)
      && FundamentalAnalysis(ticker, Success(i), other).value == r.(ratios := DerivedRatios(other))
  {
  }

  /** Losing one row clears only the ratio built from it: without the
      revenue row the revenue growth is None and every other ratio is as
      it was. */
  lemma MissingRowOnlyClearsItsRatio(s: Statements)
    requires !Empty(s.financials) && !Empty(s.balanceSheet)
    requires "Total Revenue" in s.financials.rows && |s.financials.rows| >= 2
    ensures var fin2 := Frame(s.financials.columns, s.financials.rows - {"Total Revenue"});
      var s2 := s.(financials := fin2);
      && DerivedRatios(Success(s2)).currentRatio == DerivedRatios(Success(s)).currentRatio
      && DerivedRatios(Success(s2)).debtToEquity == DerivedRatios(Success(s)).debtToEquity
      && DerivedRatios(Success(s2)).returnOnEquity == DerivedRatios(Success(s)).returnOnEquity
      && DerivedRatios(Success(s2)).returnOnAssets == DerivedRatios(Success(s)).returnOnAssets
      && DerivedRatios(Success(s2)).netIncomeGrowth == DerivedRatios(Success(s)).netIncomeGrowth
      && DerivedRatios(Success(s2)).freeCashFlow == DerivedRatios(Success(s)).freeCashFlow
      && DerivedRatios(Success(s2)).revenueGrowth == None
  {
    var fin2 := Frame(s.financials.columns, s.financials.rows - {"Total Revenue"});
    assert "Net Income" != "Total Revenue";
    assert fin2.rows.Keys == s.financials.rows.Keys - {"Total Revenue"};
    assert |fin2.rows| >= 1;
  }
}
