/** Competitor selection as the `tools/` copy of `competitor_analysis` does
    it: recommended symbols, topped up from a sector ETF when there are too
    few, minus the ticker, cut to `num_competitors` before any lookup; each
    candidate whose lookup succeeds is reported with defaults for missing
    fields. There is no industry filter and no sort. */
module ToolsCompetitorAnalysis {
  import opened Common
  import opened MarketData

  /** One entry of the `competitors` list; missing numbers read as 0 and a
      missing name as the empty string. */
  datatype Competitor = Competitor(
    ticker: string,
    name: string,
    marketCap: real,
    peRatio: real,
    revenueGrowth: real,
    profitMargins: real,
    beta: real)

  datatype MainStock = MainStock(ticker: string, name: Option<string>, sector: string, industry: string)

  /** The tool's dictionary: the main stock and the competitors, or a
      dictionary whose only key is `error`. */
  datatype Report =
    | Found(mainStock: MainStock, competitors: seq<Competitor>)
    | Failed(error: string)

  const NoSectorPrefix := "Could not determine sector/industry for "

  /** The ten-entry sector-to-ETF table of the fallback. */
  function SectorEtf(sector: string): (etf: Option<string>)
    ensures etf.Some? <==>
      sector in {"Technology", "Healthcare", "Financial Services", "Consumer Cyclical", "Energy",
                 "Industrials", "Utilities", "Materials", "Real Estate", "Communication Services"}
  {
    if sector == "Technology" then Some("XLK")
    else if sector == "Healthcare" then Some("XLV")
    else if sector == "Financial Services" then Some("XLF")
    else if sector == "Consumer Cyclical" then Some("XLY")
    else if sector == "Energy" then Some("XLE")
    else if sector == "Industrials" then Some("XLI")
    else if sector == "Utilities" then Some("XLU")
    else if sector == "Materials" then Some("XLB")
    else if sector == "Real Estate" then Some("XLRE")
    else if sector == "Communication Services" then Some("XLC")
    else None
  }

  /** `info.get('shortName') or info.get('longName', ticker)`: a missing
      long name falls back to the ticker. */
  function MainName(i: Info, ticker: string): (name: Option<string>)
    ensures !Blank(i.shortName) ==> name == i.shortName
    ensures Blank(i.shortName) && i.longName.Some? ==> name == i.longName
    ensures Blank(i.shortName) && i.longName.None? ==> name == Some(ticker)
  {
    if !Blank(i.shortName) then i.shortName else Some(i.longName.GetOr(ticker))
  }

  /** The candidate set, with the ticker already taken out, or the text of
      the exception that ended the tool. `etfSymbols` stands for fetching the
      ETF's info and the column names of its latest price history. */
  function Candidates(ticker: string, num: int, info: Info, recommended: Result<seq<string>>,
                      etfSymbols: string -> Result<seq<string>>): (r: Result<set<string>>)
    requires !Blank(info.sector)
    ensures recommended.Failure? ==> r == Failure(recommended.error)
    ensures r.Success? ==> ticker !in r.value && recommended.Success? && Elems(recommended.value) - {ticker} <= r.value
  {
    match recommended
    case Failure(e) => Failure(e)
    case Success(symbols) =>
      var recs := Elems(symbols);
      var etf := SectorEtf(info.sector.value);
      if |recs| < num && etf.Some? then
        match etfSymbols(etf.value)
        case Failure(e) => Failure(e)
        case Success(cols) => Success((recs + (Elems(cols) - {ticker})) - {ticker})
      else Success(recs - {ticker})
  }

  /** The ETF symbols are consulted only when fewer than `num` symbols were
      recommended and the sector is one of the ten mapped ones; the ticker is
      never a candidate. */
  lemma CandidatesShape(ticker: string, num: int, info: Info, recommended: Result<seq<string>>,
                        etfSymbols: string -> Result<seq<string>>)
    requires !Blank(info.sector)
    requires Candidates(ticker, num, info, recommended, etfSymbols).Success?
    ensures var cs := Candidates(ticker, num, info, recommended, etfSymbols).value;
      var etf := SectorEtf(info.sector.value);
      && ticker !in cs
      && recommended.Success?
      && (if |Elems(recommended.value)| < num && etf.Some?
          then cs == (Elems(recommended.value) + Elems(etfSymbols(etf.value).value)) - {ticker}
          else cs == Elems(recommended.value) - {ticker})
  {
  }

  /** The record for a candidate whose info was fetched. */
  function Record(comp: string, i: Info): Competitor {
    Competitor(comp, i.shortName.GetOr(""), i.marketCap.GetOr(0.0), i.trailingPE.GetOr(0.0),
               i.revenueGrowth.GetOr(0.0), i.profitMargins.GetOr(0.0), i.beta.GetOr(0.0))
  }

  /** A reported field is the provider's value when present and the default
      (0, or '' for the name) when absent. */
  lemma RecordDefaults(comp: string, i: Info)
    ensures var c := Record(comp, i);
      && c.ticker == comp
      && (i.shortName.Some? ==> c.name == i.shortName.value) && (i.shortName.None? ==> c.name == "")
      && (i.marketCap.Some? ==> c.marketCap == i.marketCap.value) && (i.marketCap.None? ==> c.marketCap == 0.0)
      && (i.trailingPE.Some? ==> c.peRatio == i.trailingPE.value) && (i.trailingPE.None? ==> c.peRatio == 0.0)
      && (i.revenueGrowth.Some? ==> c.revenueGrowth == i.revenueGrowth.value) && (i.revenueGrowth.None? ==> c.revenueGrowth == 0.0)
      && (i.profitMargins.Some? ==> c.profitMargins == i.profitMargins.value) && (i.profitMargins.None? ==> c.profitMargins == 0.0)
      && (i.beta.Some? ==> c.beta == i.beta.value) && (i.beta.None? ==> c.beta == 0.0)
  {
  }

  /** The records of the candidates whose lookup succeeds, in list order. */
  function Collected(xs: seq<string>, lookup: string -> Result<Info>): (r: seq<Competitor>)
    ensures |r| <= |xs|
    ensures forall k :: 0 <= k < |r| ==> lookup(r[k].ticker).Success?
  {
    if xs == [] then []
    else
      var prev := Collected(xs[..|xs| - 1], lookup);
      var comp := xs[|xs| - 1];
      if lookup(comp).Success? then prev + [Record(comp, lookup(comp).value)] else prev
  }

  function Tickers(cs: seq<Competitor>): seq<string> {
    seq(|cs|, k requires 0 <= k < |cs| => cs[k].ticker)
  }

  /** At most one record per candidate, each one a listed candidate's record,
      and every candidate with a successful lookup is reported: a failing
      lookup skips only its own candidate. */
  lemma {:induction false} CollectedExactly(xs: seq<string>, lookup: string -> Result<Info>)
    ensures |Collected(xs, lookup)| <= |xs|
    ensures forall c :: c in Collected(xs, lookup) ==>
      c.ticker in xs && lookup(c.ticker).Success? && c == Record(c.ticker, lookup(c.ticker).value)
    ensures forall comp :: comp in xs && lookup(comp).Success? ==> comp in Tickers(Collected(xs, lookup))
  {
    if xs != [] {
      var init := xs[..|xs| - 1];
      CollectedExactly(init, lookup);
      assert xs == init + [xs[|xs| - 1]];
      var prev := Collected(init, lookup);
      var m := Collected(xs, lookup);
      assert forall k :: 0 <= k < |prev| ==> m[k] == prev[k];
      forall comp | comp in xs && lookup(comp).Success?
        ensures comp in Tickers(m)
      {
        if comp in init {
          var k :| 0 <= k < |prev| && prev[k].ticker == comp;
          assert Tickers(m)[k] == comp;
        } else {
          assert comp == xs[|xs| - 1];
          assert Tickers(m)[|m| - 1] == comp;
        }
      }
    }
  }

  /** The report for a given listing order of the candidate set: the list is
      cut with `[:num]` first, then each remaining candidate is looked up. */
  function Analyze(ticker: string, num: int, info: Result<Info>, recommended: Result<seq<string>>,
                   etfSymbols: string -> Result<seq<string>>, lookup: string -> Result<Info>, order: seq<string>): (r: Report)
    ensures info.Failure? ==> r == Failed(info.error)
    ensures info.Success? && (Blank(info.value.sector) || Blank(info.value.industry)) ==> r == Failed(NoSectorPrefix + ticker)
    ensures r.Found? ==>
      && info.Success? && r.mainStock.ticker == ticker
      && Some(r.mainStock.sector) == info.value.sector && Some(r.mainStock.industry) == info.value.industry
      && (num >= 0 ==> |r.competitors| <= num)
  {
    match info
    case Failure(e) => Failed(e)
    case Success(i) =>
      if Blank(i.sector) || Blank(i.industry) then Failed(NoSectorPrefix + ticker)
      else
        match Candidates(ticker, num, i, recommended, etfSymbols)
        case Failure(e) => Failed(e)
        case Success(_) =>
          Found(MainStock(ticker, MainName(i, ticker), i.sector.value, i.industry.value),
                Collected(Prefix(order, num), lookup))
  }

  /** The fallback loop: every ETF symbol other than the ticker is added. */
  method AddEtfSymbols(competitors: set<string>, cols: seq<string>, ticker: string) returns (r: set<string>)
    ensures r == competitors + (Elems(cols) - {ticker})
  {
    r := competitors;
    var k := 0;
    while k < |cols|
      invariant 0 <= k <= |cols|
      invariant r == competitors + (Elems(cols[..k]) - {ticker})
    {
      assert Elems(cols[..k + 1]) == Elems(cols[..k]) + {cols[k]} by {
        assert cols[..k + 1] == cols[..k] + [cols[k]];
      }
      if cols[k] != ticker {
        r := r + {cols[k]};
      }
      k := k + 1;
    }
    assert cols[..k] == cols;
  }

  /** The lookup loop: a candidate whose lookup raises is skipped. */
  method LookUpAll(kept: seq<string>, lookup: string -> Result<Info>) returns (collected: seq<Competitor>)
    ensures collected == Collected(kept, lookup)
  {
    collected := [];
    var j := 0;
    while j < |kept|
      invariant 0 <= j <= |kept|
      invariant collected == Collected(kept[..j], lookup)
    {
      var comp := kept[j];
      assert kept[..j + 1][..j] == kept[..j];
      var fetched := lookup(comp);
      if fetched.Success? {
        collected := collected + [Record(comp, fetched.value)];
      }
      j := j + 1;
    }
    assert kept[..j] == kept;
  }

  /** `competitor_analysis(ticker, num_competitors)` of the `tools/` copy.
      `list(set)` leaves the order open; `order` reports the one taken. */
  method CompetitorAnalysisTool(ticker: string, num: int, info: Result<Info>, recommended: Result<seq<string>>,
                                etfSymbols: string -> Result<seq<string>>, lookup: string -> Result<Info>)
    returns (r: Report, ghost order: seq<string>)
    ensures (info.Success? && !Blank(info.value.sector) && !Blank(info.value.industry) &&
             Candidates(ticker, num, info.value, recommended, etfSymbols).Success?) ==>
      Elems(order) == Candidates(ticker, num, info.value, recommended, etfSymbols).value && Distinct(order)
    ensures r == Analyze(ticker, num, info, recommended, etfSymbols, lookup, order)
    ensures info.Failure? ==> r == Failed(info.error)
    ensures info.Success? && (Blank(info.value.sector) || Blank(info.value.industry)) ==> r == Failed(NoSectorPrefix + ticker)
    ensures r.Found? ==>
      && (num >= 0 ==> |r.competitors| <= num)
      && forall c :: c in r.competitors ==>
           c.ticker != ticker && lookup(c.ticker).Success? && c == Record(c.ticker, lookup(c.ticker).value)
  {
    order := [];
    if info.Failure? {
      return Failed(info.error), order;
    }
    var i := info.value;
    var name := MainName(i, ticker);
    if Blank(i.sector) || Blank(i.industry) {
      return Failed(NoSectorPrefix + ticker), order;
    }
    if recommended.Failure? {
      return Failed(recommended.error), order;
    }
    var competitors := Elems(recommended.value);
    var etf := SectorEtf(i.sector.value);
    if |competitors| < num && etf.Some? {
      var fetched := etfSymbols(etf.value);
      if fetched.Failure? {
        return Failed(fetched.error), order;
      }
      competitors := AddEtfSymbols(competitors, fetched.value, ticker);
    }
    var listed := ListOf(competitors - {ticker});
    order := listed;
    var collected := LookUpAll(Prefix(listed, num), lookup);
    r := Found(MainStock(ticker, name, i.sector.value, i.industry.value), collected);
    SuccessPayload(ticker, num, info, recommended, etfSymbols, lookup, order);
  }

  /** The error payload carries only the message; a missing or empty sector
      or industry gives the fixed message. */
  lemma ErrorPayload(ticker: string, num: int, info: Result<Info>, recommended: Result<seq<string>>,
                     etfSymbols: string -> Result<seq<string>>, lookup: string -> Result<Info>, order: seq<string>)
    ensures var r := Analyze(ticker, num, info, recommended, etfSymbols, lookup, order);
      && (info.Failure? ==> r == Failed(info.error))
      && (info.Success? && (Blank(info.value.sector) || Blank(info.value.industry)) ==>
            r == Failed(NoSectorPrefix + ticker))
      && (info.Success? && !Blank(info.value.sector) && !Blank(info.value.industry) ==>
            (r.Failed? <==> Candidates(ticker, num, info.value, recommended, etfSymbols).Failure?))
  {
  }

  /** What a success payload holds, for a listing of the candidates without
      repeats: the ticker never appears; only the first `num` listed
      candidates are looked up (all but the last `-num` when `num` is
      negative), so there are at most that many competitors; each is its
      candidate's record with defaults; every kept candidate whose lookup
      succeeds is reported. */
  lemma SuccessPayload(ticker: string, num: int, info: Result<Info>, recommended: Result<seq<string>>,
                       etfSymbols: string -> Result<seq<string>>, lookup: string -> Result<Info>, order: seq<string>)
    requires info.Success? && !Blank(info.value.sector) && !Blank(info.value.industry)
    requires Candidates(ticker, num, info.value, recommended, etfSymbols).Success?
    requires Elems(order) == Candidates(ticker, num, info.value, recommended, etfSymbols).value
    ensures var r := Analyze(ticker, num, info, recommended, etfSymbols, lookup, order);
      var kept := Prefix(order, num);
      && r.Found?
      && r.mainStock == MainStock(ticker, MainName(info.value, ticker), info.value.sector.value, info.value.industry.value)
      && (forall c :: c in r.competitors ==>
            c.ticker != ticker && c.ticker in kept && lookup(c.ticker).Success? && c == Record(c.ticker, lookup(c.ticker).value))
      && (forall comp :: comp in kept && lookup(comp).Success? ==> comp in Tickers(r.competitors))
      && |r.competitors| <= |kept|
      && (num >= 0 ==> |r.competitors| <= num)
  {
    var kept := Prefix(order, num);
    CollectedExactly(kept, lookup);
    CandidatesShape(ticker, num, info.value, recommended, etfSymbols);
    forall c | c in Collected(kept, lookup)
      ensures c.ticker != ticker
    {
      assert c.ticker in order;
    }
  }
}
