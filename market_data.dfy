/** The fields of a market-data `info` dictionary that the tools read. A key
    the provider does not report is `None`; the tools read them with
    `info.get(key)` or `info.get(key, default)`. */
module MarketData {
  import opened Common

  datatype Info = Info(
    shortName: Option<string>,
    longName: Option<string>,
    sector: Option<string>,
    industry: Option<string>,
    marketCap: Option<real>,
    trailingPE: Option<real>,
    forwardPE: Option<real>,
    pegRatio: Option<real>,
    priceToBook: Option<real>,
    dividendYield: Option<real>,
    beta: Option<real>,
    fiftyTwoWeekHigh: Option<real>,
    fiftyTwoWeekLow: Option<real>,
    recommendationKey: Option<string>,
    targetMeanPrice: Option<real>,
    revenueGrowth: Option<real>,
    profitMargins: Option<real>)

  /** Python's `not x` for an optional string: absent or empty. */
  predicate Blank(s: Option<string>) {
    s.None? || s.value == ""
  }
}
