/** Competitor selection as the top-level `competitor_analysis` tool does it:
    recommended symbols, topped up from a sector ETF's holdings when there
    are too few, are scanned in set order; candidates in the same industry
    are collected until there are enough, then sorted by market cap. */
module CompetitorAnalysis {
  import opened Common
  import opened MarketData

  /** One entry of the `competitors` list. */
  datatype Competitor = Competitor(
    ticker: string,
    name: string,
    marketCap: Option<real>,
    peRatio: Option<real>,
    revenueGrowth: Option<real>,
    profitMargins: Option<real>,
    beta: Option<real>)

  datatype MainStock = MainStock(ticker: string, name: Option<string>, sector: string, industry: string)

  /** The tool's dictionary: `status` "success" with the main stock and the
      competitors, or `status` "error" with a message and the ticker. */
  datatype Report =
    | Found(mainStock: MainStock, competitors: seq<Competitor>)
    | Failed(message: string, ticker: string)

  const ErrorPrefix := "Failed to analyze competitors: "
  const NoSectorPrefix := "Could not determine sector/industry for "

  /** The sector-to-ETF table of the fallback. */
  function SectorEtf(sector: string): (etf: Option<string>)
    ensures etf.Some? <==>
      sector in {"Technology", "Financial Services", "Healthcare", "Consumer Cyclical", "Communication Services"}
  {
    if sector == "Technology" then Some("XLK")
    else if sector == "Financial Services" then Some("XLF")
    else if sector == "Healthcare" then Some("XLV")
    else if sector == "Consumer Cyclical" then Some("XLY")
    else if sector == "Communication Services" then Some("XLC")
    else None
  }

  /** What is known once the candidate set is built. */
  datatype Context = Context(name: Option<string>, sector: string, industry: string, candidates: set<string>)

  /** Everything before the scan: the main stock's info (a fetch that may
      raise), the sector/industry check, the recommended symbols (a request
      that may raise; a non-200 answer is an empty list) and, when fewer than
      `num` symbols were recommended and the sector has an ETF, that ETF's
      holdings (a fetch that may raise). */
  function Gather(ticker: string, num: int, info: Result<Info>, recommended: Result<seq<string>>,
                  holdings: string -> Result<seq<string>>): (r: Result<Context>)
    ensures info.Failure? ==> r == Failure(info.error)
    ensures info.Success? && (Blank(info.value.sector) || Blank(info.value.industry)) ==>
      r == Failure(NoSectorPrefix + ticker)
    ensures r.Success? ==>
      && info.Success? && recommended.Success?
      && Some(r.value.sector) == info.value.sector && Some(r.value.industry) == info.value.industry
      && r.value.name == info.value.longName
      && Elems(recommended.value) <= r.value.candidates
  {
    match info
    case Failure(e) => Failure(e)
    case Success(i) =>
      if Blank(i.sector) || Blank(i.industry) then Failure(NoSectorPrefix + ticker)
      else
        match recommended
        case Failure(e) => Failure(e)
        case Success(symbols) =>
          var recs := Elems(symbols);
          var etf := SectorEtf(i.sector.value);
          if |recs| < num && etf.Some? then
            match holdings(etf.value)
            case Failure(e) => Failure(e)
            case Success(h) => Success(Context(i.longName, i.sector.value, i.industry.value, recs + Elems(h)))
          else Success(Context(i.longName, i.sector.value, i.industry.value, recs))
  }

  /** The ETF holdings are added only when fewer than `num` symbols were
      recommended and the sector is one of the five mapped ones. */
  lemma FallbackOnlyWhenShort(ticker: string, num: int, info: Result<Info>, recommended: Result<seq<string>>,
                              holdings: string -> Result<seq<string>>)
    requires Gather(ticker, num, info, recommended, holdings).Success?
    ensures var ctx := Gather(ticker, num, info, recommended, holdings).value;
      && recommended.Success?
      && (if |Elems(recommended.value)| < num && SectorEtf(ctx.sector).Some?
          then ctx.candidates == Elems(recommended.value) + Elems(holdings(SectorEtf(ctx.sector).value).value)
          else ctx.candidates == Elems(recommended.value))
  {
  }

  /** The record built for an accepted candidate. */
  function Record(comp: string, i: Info): Competitor {
    Competitor(comp, i.longName.GetOr(comp), i.marketCap, i.trailingPE, i.revenueGrowth, i.profitMargins, i.beta)
  }

  /** A candidate is kept when it is not the ticker itself, its info can be
      fetched, and its industry is the main stock's. */
  predicate Accepts(comp: string, ticker: string, industry: string, lookup: string -> Result<Info>) {
    comp != ticker && lookup(comp).Success? && lookup(comp).value.industry == Some(industry)
  }

  /** The records of every accepted candidate, in scan order. */
  function Matches(order: seq<string>, ticker: string, industry: string, lookup: string -> Result<Info>): (r: seq<Competitor>)
    ensures |r| <= |order|
    ensures forall k :: 0 <= k < |r| ==> Accepts(r[k].ticker, ticker, industry, lookup)
  {
    if order == [] then []
    else
      var prev := Matches(order[..|order| - 1], ticker, industry, lookup);
      var comp := order[|order| - 1];
      if Accepts(comp, ticker, industry, lookup) then prev + [Record(comp, lookup(comp).value)] else prev
  }

  function Tickers(cs: seq<Competitor>): seq<string> {
    seq(|cs|, k requires 0 <= k < |cs| => cs[k].ticker)
  }

  /** Every match is an accepted candidate's record, and every accepted
      candidate is matched: a failed lookup drops only its own candidate. */
  lemma {:induction false} MatchesExactly(order: seq<string>, ticker: string, industry: string, lookup: string -> Result<Info>)
    ensures forall c :: c in Matches(order, ticker, industry, lookup) ==>
      c.ticker in order && Accepts(c.ticker, ticker, industry, lookup) && c == Record(c.ticker, lookup(c.ticker).value)
    ensures forall comp :: comp in order && Accepts(comp, ticker, industry, lookup) ==>
      comp in Tickers(Matches(order, ticker, industry, lookup))
  {
    if order != [] {
      var init := order[..|order| - 1];
      MatchesExactly(init, ticker, industry, lookup);
      assert order == init + [order[|order| - 1]];
      var prev := Matches(init, ticker, industry, lookup);
      var m := Matches(order, ticker, industry, lookup);
      assert forall k :: 0 <= k < |prev| ==> m[k] == prev[k];
      forall comp | comp in order && Accepts(comp, ticker, industry, lookup)
        ensures comp in Tickers(m)
      {
        if comp in init {
          var k :| 0 <= k < |prev| && prev[k].ticker == comp;
          assert Tickers(m)[k] == comp;
        } else {
          assert comp == order[|order| - 1];
          assert Tickers(m)[|m| - 1] == comp;
        }
      }
    }
  }

  /** The matches of a prefix of the scan are a prefix of all matches. */
  lemma {:induction false} MatchesPrefix(order: seq<string>, k: nat, ticker: string, industry: string, lookup: string -> Result<Info>)
    requires k <= |order|
    ensures var part := Matches(order[..k], ticker, industry, lookup);
      var all := Matches(order, ticker, industry, lookup);
      |part| <= |all| && part == all[..|part|]
  {
    if k < |order| {
      var init := order[..|order| - 1];
      MatchesPrefix(init, k, ticker, industry, lookup);
      assert init[..k] == order[..k];
    } else {
      assert order[..k] == order;
    }
  }

  // ---------------------------------------------------------------------
  // Ordering by market cap
  // ---------------------------------------------------------------------

  /** The sort key, with a missing market cap taken as 0 as the
      `get(..., 0)` default intends (compare `SortAsWritten`). */
  function CapKey(c: Competitor): real {
    c.marketCap.GetOr(0.0)
  }

  predicate SortedByCap(s: seq<Competitor>) {
    forall i, j :: 0 <= i < j < |s| ==> CapKey(s[i]) >= CapKey(s[j])
  }

  /** Puts `x` before the first element whose key is not larger, so that
      equal keys keep their original order. */
  function InsertByCap(x: Competitor, s: seq<Competitor>): (r: seq<Competitor>)
    ensures multiset(r) == multiset(s) + multiset{x}
    ensures |r| == |s| + 1
    ensures r[0] == x || (s != [] && r[0] == s[0])
  {
    if s == [] then [x]
    else if CapKey(s[0]) <= CapKey(x) then [x] + s
    else
      assert s == [s[0]] + s[1..];
      [s[0]] + InsertByCap(x, s[1..])
  }

  /** Inserting into a list sorted by market cap keeps it sorted. */
  lemma {:induction false} InsertByCapSorted(x: Competitor, s: seq<Competitor>)
    requires SortedByCap(s)
    ensures SortedByCap(InsertByCap(x, s))
  {
    if s != [] && CapKey(s[0]) > CapKey(x) {
      var rest := InsertByCap(x, s[1..]);
      InsertByCapSorted(x, s[1..]);
      assert CapKey(s[0]) >= CapKey(rest[0]);
      var r := [s[0]] + rest;
      forall i, j | 0 <= i < j < |r|
        ensures CapKey(r[i]) >= CapKey(r[j])
      {
        if i == 0 {
          assert CapKey(rest[0]) >= CapKey(rest[j - 1]);
        }
      }
    }
  }

  /** `sorted(xs, key=market cap, reverse=True)`, with a missing cap as 0. */
  function SortByMarketCap(s: seq<Competitor>): (r: seq<Competitor>)
    ensures SortedByCap(r)
    ensures multiset(r) == multiset(s)
  {
    if s == [] then []
    else
      assert s == [s[0]] + s[1..];
      var rest := SortByMarketCap(s[1..]);
      InsertByCapSorted(s[0], rest);
      InsertByCap(s[0], rest)
  }

  /** The message Python gives when the sort compares a missing market cap. */
  const SortTypeError := "'<' not supported between instances of 'NoneType' and 'float'"

  /** The sort as written: `x.get('market_cap', 0)` finds the key present
      with the value None, so as soon as two entries are compared and one of
      them lacks a market cap, the comparison raises a TypeError. */
  function SortAsWritten(s: seq<Competitor>): (r: Result<seq<Competitor>>)
    ensures r.Failure? <==> |s| >= 2 && exists k :: 0 <= k < |s| && s[k].marketCap.None?
    ensures r.Success? ==> r.value == SortByMarketCap(s)
  {
    if |s| >= 2 && exists k :: 0 <= k < |s| && s[k].marketCap.None? then Failure(SortTypeError)
    else Success(SortByMarketCap(s))
  }

  /** Two same-industry competitors, one without a market cap: the sort as
      written raises, so the tool reports an error instead of the two
      competitors; ranked with the cap as 0 they come back largest first. */
  lemma MissingCapDefeatsSort()
    ensures var a := Competitor("MSFT", "Microsoft Corporation", Some(3.0), None, None, None, None);
      var b := Competitor("PRIV", "PRIV", None, None, None, None, None);
      && SortAsWritten([b, a]).Failure?
      && SortByMarketCap([b, a]) == [a, b]
  {
    var a := Competitor("MSFT", "Microsoft Corporation", Some(3.0), None, None, None, None);
    var b := Competitor("PRIV", "PRIV", None, None, None, None, None);
    assert [b, a][0].marketCap.None?;
    assert [b, a][1..] == [a];
    assert [a][1..] == [];
  }

  // ---------------------------------------------------------------------
  // The tool
  // ---------------------------------------------------------------------

  /** The report for a given scan order of the candidate set: the first
      `max(1, num)` matches (the scan stops as soon as `num` are collected),
      sorted by market cap, then `[:num]`. */
  function Analyze(ticker: string, num: int, info: Result<Info>, recommended: Result<seq<string>>,
                   holdings: string -> Result<seq<string>>, lookup: string -> Result<Info>, order: seq<string>): (r: Report)
    ensures r.Failed? <==> Gather(ticker, num, info, recommended, holdings).Failure?
    ensures r.Found? ==> SortedByCap(r.competitors) && |r.competitors| <= Max(0, num)
  {
    match Gather(ticker, num, info, recommended, holdings)
    case Failure(e) => Failed(ErrorPrefix + e, ticker)
    case Success(ctx) =>
      var collected := Prefix(Matches(order, ticker, ctx.industry, lookup), Max(1, num));
      RankedPrefix(Matches(order, ticker, ctx.industry, lookup), num);
      Found(MainStock(ticker, ctx.name, ctx.sector, ctx.industry), Prefix(SortByMarketCap(collected), num))
  }

  /** The matches the scan keeps before sorting. */
  function Collected(ctx: Context, ticker: string, num: int, lookup: string -> Result<Info>, order: seq<string>): seq<Competitor> {
    Prefix(Matches(order, ticker, ctx.industry, lookup), Max(1, num))
  }

  /** The report as the tool is written, with the sort that raises on a
      missing market cap; the exception lands in the same `except` as every
      other failure. Whenever it succeeds it is the corrected report. */
  function AnalyzeAsWritten(ticker: string, num: int, info: Result<Info>, recommended: Result<seq<string>>,
                            holdings: string -> Result<seq<string>>, lookup: string -> Result<Info>, order: seq<string>): (r: Report)
    ensures r.Found? ==> r == Analyze(ticker, num, info, recommended, holdings, lookup, order)
    ensures Gather(ticker, num, info, recommended, holdings).Failure? ==>
      r == Analyze(ticker, num, info, recommended, holdings, lookup, order)
    ensures Gather(ticker, num, info, recommended, holdings).Success? ==>
      var collected := Collected(Gather(ticker, num, info, recommended, holdings).value, ticker, num, lookup, order);
      (r.Failed? <==> |collected| >= 2 && exists k :: 0 <= k < |collected| && collected[k].marketCap.None?)
  {
    match Gather(ticker, num, info, recommended, holdings)
    case Failure(e) => Failed(ErrorPrefix + e, ticker)
    case Success(ctx) =>
      match SortAsWritten(Collected(ctx, ticker, num, lookup, order))
      case Failure(e) => Failed(ErrorPrefix + e, ticker)
      case Success(sorted) => Found(MainStock(ticker, ctx.name, ctx.sector, ctx.industry), Prefix(sorted, num))
  }

  /** Where the two disagree: with at least two competitors wanted and two
      matched, one of the first two without a market cap, the tool as
      written reports the sort's TypeError while the corrected ranking
      reports the competitors. */
  lemma WrittenSortFailsTool(ticker: string, num: int, info: Result<Info>, recommended: Result<seq<string>>,
                             holdings: string -> Result<seq<string>>, lookup: string -> Result<Info>, order: seq<string>)
    requires Gather(ticker, num, info, recommended, holdings).Success?
    requires num >= 2
    requires var matched := Matches(order, ticker, Gather(ticker, num, info, recommended, holdings).value.industry, lookup);
      |matched| >= 2 && (matched[0].marketCap.None? || matched[1].marketCap.None?)
    ensures AnalyzeAsWritten(ticker, num, info, recommended, holdings, lookup, order) ==
      Failed(ErrorPrefix + SortTypeError, ticker)
    ensures Analyze(ticker, num, info, recommended, holdings, lookup, order).Found?
  {
    var ctx := Gather(ticker, num, info, recommended, holdings).value;
    var matched := Matches(order, ticker, ctx.industry, lookup);
    var collected := Collected(ctx, ticker, num, lookup, order);
    assert collected[0] == matched[0] && collected[1] == matched[1];
    assert collected[0].marketCap.None? || collected[1].marketCap.None?;
  }

  /** The loop over the candidates: skip the ticker itself and every
      candidate whose lookup raises or whose industry differs, and stop once
      `num` records are collected (after the first, whatever `num` is). */
  method Scan(candidates: seq<string>, ticker: string, industry: string, num: int, lookup: string -> Result<Info>)
    returns (collected: seq<Competitor>)
    ensures collected == Prefix(Matches(candidates, ticker, industry, lookup), Max(1, num))
  {
    collected := [];
    var i := 0;
    while i < |candidates|
      invariant 0 <= i <= |candidates|
      invariant collected == Matches(candidates[..i], ticker, industry, lookup)
      invariant |collected| < Max(1, num)
    {
      var comp := candidates[i];
      assert candidates[..i + 1][..i] == candidates[..i];
      if comp == ticker {
        i := i + 1;
        continue;
      }
      var fetched := lookup(comp);
      if fetched.Success? && fetched.value.industry == Some(industry) {
        collected := collected + [Record(comp, fetched.value)];
        if |collected| >= num {
          MatchesPrefix(candidates, i + 1, ticker, industry, lookup);
          return;
        }
      }
      i := i + 1;
    }
    assert candidates[..i] == candidates;
  }

  /** `competitor_analysis(ticker, num_competitors)` as written. The order in
      which the candidate set is scanned is Python's set order, left open;
      `order` reports the one taken. It fails when gathering fails or when
      the sort meets a missing market cap; otherwise it returns the
      corrected ranking. */
  method CompetitorAnalysisTool(ticker: string, num: int, info: Result<Info>, recommended: Result<seq<string>>,
                                holdings: string -> Result<seq<string>>, lookup: string -> Result<Info>)
    returns (r: Report, ghost order: seq<string>)
    ensures Gather(ticker, num, info, recommended, holdings).Success? ==>
      Elems(order) == Gather(ticker, num, info, recommended, holdings).value.candidates && Distinct(order)
    ensures r == AnalyzeAsWritten(ticker, num, info, recommended, holdings, lookup, order)
    ensures r.Failed? <==>
      || Gather(ticker, num, info, recommended, holdings).Failure?
      || var collected := Collected(Gather(ticker, num, info, recommended, holdings).value, ticker, num, lookup, order);
         |collected| >= 2 && exists k :: 0 <= k < |collected| && collected[k].marketCap.None?
    ensures r.Found? ==>
      var industry := Gather(ticker, num, info, recommended, holdings).value.industry;
      && r == Analyze(ticker, num, info, recommended, holdings, lookup, order)
      && SortedByCap(r.competitors) && |r.competitors| <= Max(0, num)
      && forall c :: c in r.competitors ==> c.ticker != ticker && Accepts(c.ticker, ticker, industry, lookup)
  {
    var gathered := Gather(ticker, num, info, recommended, holdings);
    if gathered.Failure? {
      return Failed(ErrorPrefix + gathered.error, ticker), [];
    }
    var ctx := gathered.value;
    var candidates := ListOf(ctx.candidates);
    order := candidates;
    var collected := Scan(candidates, ticker, ctx.industry, num, lookup);
    var sorted := SortAsWritten(collected);
    if sorted.Failure? {
      return Failed(ErrorPrefix + sorted.error, ticker), order;
    }
    r := Found(MainStock(ticker, ctx.name, ctx.sector, ctx.industry), Prefix(sorted.value, num));
    SuccessPayload(ticker, num, info, recommended, holdings, lookup, order);
  }

  /** The error payload of the tool as written: it is returned exactly when
      gathering failed or the sort raised, it carries the ticker and the
      fixed prefix, a missing or empty sector or industry gives the fixed
      message, and a failed sort gives the TypeError's text. */
  lemma ErrorPayload(ticker: string, num: int, info: Result<Info>, recommended: Result<seq<string>>,
                     holdings: string -> Result<seq<string>>, lookup: string -> Result<Info>, order: seq<string>)
    ensures var r := AnalyzeAsWritten(ticker, num, info, recommended, holdings, lookup, order);
      var gathered := Gather(ticker, num, info, recommended, holdings);
      && (r.Failed? <==> gathered.Failure? || SortAsWritten(Collected(gathered.value, ticker, num, lookup, order)).Failure?)
      && (r.Failed? ==> r.ticker == ticker && r.message[..|ErrorPrefix|] == ErrorPrefix)
      && (info.Success? && (Blank(info.value.sector) || Blank(info.value.industry)) ==>
            r == Failed(ErrorPrefix + NoSectorPrefix + ticker, ticker))
      && (gathered.Success? && SortAsWritten(Collected(gathered.value, ticker, num, lookup, order)).Failure? ==>
            r == Failed(ErrorPrefix + SortTypeError, ticker))
  {
  }

  /** What a success payload holds: the main stock echoes the ticker, sector
      and industry; every competitor is an accepted candidate (never the
      ticker, same industry, lookup succeeded) carrying its own record; there
      are at most `num`, ranked by market cap; and for `num >= 1` they are
      exactly the first `num` matches of the scan, reordered. */
  lemma SuccessPayload(ticker: string, num: int, info: Result<Info>, recommended: Result<seq<string>>,
                       holdings: string -> Result<seq<string>>, lookup: string -> Result<Info>, order: seq<string>)
    requires Gather(ticker, num, info, recommended, holdings).Success?
    ensures var ctx := Gather(ticker, num, info, recommended, holdings).value;
      var r := Analyze(ticker, num, info, recommended, holdings, lookup, order);
      var matched := Matches(order, ticker, ctx.industry, lookup);
      && r.Found?
      && r.mainStock.ticker == ticker
      && Some(r.mainStock.sector) == info.value.sector && Some(r.mainStock.industry) == info.value.industry
      && r.mainStock.name == info.value.longName
      && (forall c :: c in r.competitors ==>
            c.ticker in order && c.ticker != ticker && Accepts(c.ticker, ticker, ctx.industry, lookup)
            && c == Record(c.ticker, lookup(c.ticker).value))
      && |r.competitors| <= Max(0, num)
      && SortedByCap(r.competitors)
      && (num >= 1 ==> multiset(r.competitors) == multiset(Prefix(matched, num))
                       && |r.competitors| == Min(num, |matched|))
  {
    var ctx := Gather(ticker, num, info, recommended, holdings).value;
    var matched := Matches(order, ticker, ctx.industry, lookup);
    MatchesExactly(order, ticker, ctx.industry, lookup);
    RankedPrefix(matched, num);
  }

  /** The last two steps on any list of matches: keep at most `Max(1, num)`,
      sort them by market cap, then slice to `num`. */
  lemma RankedPrefix(matched: seq<Competitor>, num: int)
    ensures var out := Prefix(SortByMarketCap(Prefix(matched, Max(1, num))), num);
      && (forall c :: c in out ==> c in matched)
      && |out| <= Max(0, num)
      && SortedByCap(out)
      && (num >= 1 ==> multiset(out) == multiset(Prefix(matched, num)) && |out| == Min(num, |matched|))
  {
    var collected := Prefix(matched, Max(1, num));
    var sorted := SortByMarketCap(collected);
    var out := Prefix(sorted, num);
    forall c | c in out
      ensures c in matched
    {
      assert c in sorted;
      assert c in multiset(collected);
      assert c in collected;
    }
    if num >= 1 {
      assert out == sorted;
      assert |sorted| == |multiset(sorted)| == |multiset(collected)| == |collected|;
    }
  }
}
