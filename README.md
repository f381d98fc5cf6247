# Financial-analysis crew: a verified model of its decision logic

The system runs four language-model analysts in sequence to produce a stock
report. Each analyst may call a set of market-data tools. This project models
the control and decision logic around those calls. Every foreign result becomes
an input to the model:

- the analyst framework and model service become an abstract stage runner;
- a market-data fetch becomes a `Result` value;
- headline polarities are given as numbers;
- peak and trough indices are given as sequences.

| module | file | what it models |
|---|---|---|
| `Common` | common.dfy | `None`-or-value, exception-or-value, Python's `s[:n]`, `s[-n:]` and `list(set)` |
| `Crew` | crew.dfy | `run_analysis`: stage order, the insertion-ordered output dictionary (a class), task descriptions quoting earlier outputs, abort on the first exception; the `GeminiLLM` wrapper |
| `Risk` | risk.dfy | `categorize_risk` and the result / failure dictionary of `risk_assessment` |
| `Sentiment` | sentiment.dfy | `_analyze_sentiment` (a loop), `_interpret_sentiment`, the `sentiment_analysis` entry point |
| `MarketData` | market_data.dfy | the `info` fields the tools read |
| `CompetitorAnalysis` | competitor_analysis.dfy | the top-level `competitor_analysis`: fallback, scan with `continue`/`break`, industry filter, sort, slice, error payload |
| `ToolsCompetitorAnalysis` | tools_competitor_analysis.dfy | the `tools/` copy: ten-sector fallback, truncation before lookup, defaults, error payload |
| `Fundamentals` | fundamentals.dfy | `yf_fundamental_analysis`: the seven ratios and their None-gating, info pass-through; the top-level yf_fundamental_analysis_tool.py:141-224 repeats tools/yf_fundamental_analysis_tool.py:16-98 line for line, so the rows below cite the latter |
| `Technical` | technical.dfy | `yf_tech_analysis`: data and column guards, window and peak distance, support/resistance levels, the three chart patterns (a datatype, reported by name) |

Python's set iteration order is unspecified. The competitor tools therefore
pick a listing order of the candidate set non-deterministically. They report
that order as a ghost out-parameter, and every lemma holds for any order.

## Model

| member | source | states |
|---|---|---|
| Common.Prefix | competitor_analysis_tool.py:108 | `s[:n]` keeps the first `min(n, len)` elements, or for negative `n` all but the last `-n` |
| Common.LastN | tools/yf_tech_analysis_tool.py:118-119 | `s[-n:]` is the last `min(n, len)` elements |
| Common.ListOf | competitor_analysis_tool.py:71 | `list(set)` lists every element exactly once |
| Crew.Assign | crew.py:181 | dictionary assignment appends a new key, keeps an existing key's position, binds the value and leaves other keys alone |
| Crew.OutputStore.constructor | crew.py:151 | the output dictionary starts empty |
| Crew.OutputStore.Put | crew.py:181 | storing an output is dictionary assignment on the store |
| Crew.ResearchDescriptionLayout | crew.py:164-168 | the Researcher's description opens with its fixed text and then names the symbol |
| Crew.SentimentDescriptionLayout | crew.py:195-198 | the Sentiment Analyst's description opens with its fixed text and then names the symbol |
| Crew.AnalysisDescriptionLayout | crew.py:225-233 | the Financial Analyst's description names the symbol after its opening, quotes the research output after its fixed body, and ends with the sentiment output |
| Crew.StrategyDescriptionLayout | crew.py:260-269 | the Strategist's description names the symbol after its opening, quotes the research output after its fixed body, and ends with the analysis output |
| Crew.DescriptionNamesSymbol | crew.py:164-269 | every stage's description contains the stock symbol |
| Crew.AnalysisQuotesContext | crew.py:225-233 | the Financial Analyst description contains the research output and then the sentiment output, verbatim |
| Crew.StrategyQuotesContext | crew.py:260-269 | the Strategist description contains the research, sentiment and analysis outputs verbatim, in that order |
| Crew.RunFromTrace | crew.py:179-283 | from any stage on, kickoffs extend the trace in stage order, each made only once the earlier outputs are stored; a report holds every kickoff's output |
| Crew.RunFromResult | crew.py:179-283 | from any stage on, the run succeeds iff all four kickoffs are made and the last completes; otherwise it fails with the exception of the last kickoff made |
| Crew.RunFromShape | crew.py:179-283 | both of the above together |
| Crew.RunFrom | crew.py:179-283 | from stage k on, a run adds at least one kickoff while stages remain and never more than the stages left; a success makes every remaining kickoff |
| Crew.Pipeline | crew.py:146-292 | a run makes between one and four kickoffs, all four when it succeeds |
| Crew.PipelineShape | crew.py:146-292 | 1 to 4 kickoffs; all but the last completed; success iff all four completed; a failure carries the raising stage's exception and no report; the report holds each stage's output under its role |
| Crew.RoleIsNew | crew.py:181-282 | a stage's role is not yet a key when that stage starts, so storing its output appends |
| Crew.RunStage | crew.py:163-181 | one block kicks off its stage with the call built from the store, then appends the output under the stage's role, or leaves the store unchanged and reports the exception |
| Crew.RunAnalysis | crew.py:146-292 | the imperative run (store filled in place, early exit on exception) returns exactly the pipeline's result and kickoffs; a report has the four role keys in stage order |
| Crew.RolesDistinct | crew.py:181-282 | the four keys differ, so no write overwrites another |
| Crew.ReportKeysInStageOrder | crew.py:181-292 | a report's keys are exactly the four roles, in stage order |
| Crew.KickoffToolsAreFixed | crew.py:159-255 | kickoff k runs stage k and offers that stage's fixed tool allow-list |
| Crew.ToolAllowLists | crew.py:159-255 | the allow-lists: Researcher tech, fundamental, competitor; Sentiment Analyst sentiment; Financial Analyst tech, fundamental, risk; Strategist none |
| Crew.CallQuotesStore | crew.py:225-269 | the third and fourth descriptions quote every stored output in order |
| Crew.ContextIsTheStoreSoFar | crew.py:164-269 | kickoffs 2 and 3 quote the whole store as it was when they started; the first two descriptions hold only the symbol |
| Crew.GeminiCall | crew.py:22-31 | a response with choices returns the first choice's content; a response without choices (the index raises) and a raising call both return "LLM unavailable" |
| Crew.ModelFailureIsNotFatal | crew.py:22-31 | with the wrapper as the only fallible step, a run always yields all four outputs, each the wrapper's answer to its description |
| Risk.BandScore | tools/risk_assessment_tool.py:163-184 | each component scores 1 below the band, 3 above it, 2 inside it with both bounds included |
| Risk.RiskScore | tools/risk_assessment_tool.py:160-184 | the total score lies in 3..9 |
| Risk.CategoryOfScore | tools/risk_assessment_tool.py:187-192 | Low iff score <= 4, Medium iff 5..7, High iff >= 8 |
| Risk.CategorizeRisk | tools/risk_assessment_tool.py:156-192 | Low Risk needs two of the three statistics below their bands, High Risk two above them; all three below gives Low Risk, all three above High Risk, all three inside Medium Risk |
| Risk.BoundariesAreMedium | tools/risk_assessment_tool.py:163-184 | beta 0.8 and 1.2, volatility 0.15 and 0.25, drawdown ±0.15 and ±0.3 all score 2 |
| Risk.DrawdownSignIrrelevant | tools/risk_assessment_tool.py:179-184 | negating the drawdown never changes the category |
| Risk.BandScoreMonotone | tools/risk_assessment_tool.py:163-184 | a larger value never scores lower |
| Risk.CategoryMonotone | tools/risk_assessment_tool.py:156-192 | raising beta, volatility or the drawdown's size never lowers the category |
| Risk.WorkedExamples | tools/risk_assessment_tool.py:156-192 | (1.0, 0.10, -0.05) scores 4, Low Risk; (1.5, 0.30, -0.40) scores 9, High Risk |
| Risk.RiskAssessment | tools/risk_assessment_tool.py:109-154 | the ticker is always echoed; a failure gives {ticker, error, status "failed"} and only then; otherwise the category is one of the three labels, computed from the reported statistics |
| Sentiment.Classify | sentiment_analysis_tool.py:252-257 | positive iff polarity > 0.2, negative iff < -0.2, otherwise neutral |
| Sentiment.Interpret | sentiment_analysis_tool.py:273-284 | a score is never labelled "No Data" |
| Sentiment.InterpretBands | sentiment_analysis_tool.py:273-284 | each of the five labels holds exactly on its interval |
| Sentiment.InterpretExamples | sentiment_analysis_tool.py:275-284 | 0.35, 0.15, 0, -0.15 and -0.35 get the five labels; 0.3 is Positive, ±0.1 Neutral, -0.3 Negative |
| Sentiment.InterpretMonotone | sentiment_analysis_tool.py:273-284 | a higher score never gets a more negative label |
| Sentiment.Round3 | sentiment_analysis_tool.py:264 | the rounded average is a multiple of 0.001 within 0.0005 of the exact one |
| Sentiment.Summarize | sentiment_analysis_tool.py:228-270 | the total is the number of articles; no articles gives average 0; otherwise the reported average is within 0.0005 of the mean polarity |
| Sentiment.AnalyzeSentiment | sentiment_analysis_tool.py:228-270 | the counting loop returns the class counts, the total, the source set, the rounded mean and the label of the exact mean; empty input gives zeros and "No Data" |
| Sentiment.CountsPartition | sentiment_analysis_tool.py:245-268 | positive + neutral + negative = number of articles |
| Sentiment.SourcesBounded | sentiment_analysis_tool.py:243-269 | there are at most as many sources as articles, and at least one when there is an article |
| Sentiment.SummaryShape | sentiment_analysis_tool.py:228-270 | total is the article count; the counts partition it; "No Data" iff there are no articles; empty input gives zeros and no sources |
| Sentiment.LabelUsesUnroundedMean | sentiment_analysis_tool.py:261-270 | a single article of polarity 0.1004 is reported as 0.1 yet labelled Positive, though 0.1 itself is Neutral |
| Sentiment.SentimentToolAsWritten | sentiment_analysis_tool.py:169-176 | the entry point as written always fails |
| Sentiment.SentimentTool | sentiment_analysis_tool.py:158-174 | the intended entry point always succeeds and analyses every Yahoo and Finviz article |
| Sentiment.SentimentToolNeverAnalyses | sentiment_analysis_tool.py:169-199 | with any news at all, the written tool fails where the intended one returns a label |
| CompetitorAnalysis.SectorEtf | competitor_analysis_tool.py:55-62 | an ETF exists exactly for the five mapped sectors |
| CompetitorAnalysis.FallbackOnlyWhenShort | competitor_analysis_tool.py:54-67 | ETF holdings join the candidates only when fewer than `num` were recommended and the sector is mapped |
| CompetitorAnalysis.Gather | competitor_analysis_tool.py:35-67 | a failed info fetch is the failure; a missing or empty sector or industry gives the fixed message; otherwise sector, industry and long name are echoed and every recommended symbol is a candidate |
| CompetitorAnalysis.Matches | competitor_analysis_tool.py:70-94 | never more matches than listed candidates, each one accepted: not the ticker, lookup succeeded, same industry |
| CompetitorAnalysis.MatchesExactly | competitor_analysis_tool.py:70-94 | every match is a non-ticker candidate of the same industry whose lookup succeeded, carrying its record; every such candidate is matched (a failed lookup skips only itself) |
| CompetitorAnalysis.MatchesPrefix | competitor_analysis_tool.py:91-92 | stopping the scan early yields a prefix of all matches |
| CompetitorAnalysis.InsertByCap | competitor_analysis_tool.py:104-107 | insertion adds exactly the one element and keeps all others |
| CompetitorAnalysis.InsertByCapSorted | competitor_analysis_tool.py:104-107 | insertion keeps a list sorted by market cap, descending |
| CompetitorAnalysis.SortByMarketCap | competitor_analysis_tool.py:104-107 | the result is sorted by market cap, descending, and is a permutation of the input |
| CompetitorAnalysis.SortAsWritten | competitor_analysis_tool.py:104-107 | the sort as written raises iff there are two or more entries and one lacks a market cap |
| CompetitorAnalysis.MissingCapDefeatsSort | competitor_analysis_tool.py:84-107 | two competitors, one without a market cap: the written sort raises, the corrected one ranks the other first |
| CompetitorAnalysis.Scan | competitor_analysis_tool.py:70-94 | the scan loop returns the first `max(1, num)` matches in scan order |
| CompetitorAnalysis.RankedPrefix | competitor_analysis_tool.py:91-108 | keeping at most `max(1, num)` matches, sorting, then slicing to `num`: only matches, at most `num`, sorted; for `num >= 1` a permutation of the first `num` matches |
| CompetitorAnalysis.Analyze | competitor_analysis_tool.py:34-116 | with a missing market cap ranked as 0, the tool fails iff gathering fails, and otherwise reports at most `max(0, num)` competitors sorted by market cap |
| CompetitorAnalysis.AnalyzeAsWritten | competitor_analysis_tool.py:34-116 | the tool as written fails where gathering fails, and after gathering iff two or more competitors were collected and one lacks a market cap; whenever it reports competitors it agrees with the corrected tool |
| CompetitorAnalysis.WrittenSortFailsTool | competitor_analysis_tool.py:84-116 | with `num >= 2` and one of the first two matches lacking a market cap, the written tool returns the TypeError payload where the corrected one reports competitors |
| CompetitorAnalysis.CompetitorAnalysisTool | competitor_analysis_tool.py:34-116 | the scan loop (skip the ticker, skip failed lookups, stop at `num`) and the written sort return the written tool's report for a listing of exactly the candidate set; it fails iff gathering fails or two or more collected competitors include one without a market cap; otherwise at most `num` accepted competitors, never the ticker, sorted by market cap |
| CompetitorAnalysis.ErrorPayload | competitor_analysis_tool.py:34-116 | {status "error", message, ticker} is returned exactly when a fetch raised, the sector/industry is missing or empty, or the written sort raises; the second has the fixed message, the third the TypeError message |
| CompetitorAnalysis.SuccessPayload | competitor_analysis_tool.py:69-109 | for the corrected ranking: main stock echoed; no competitor is the ticker; all share the industry; each carries its own record; at most `num`; sorted by market cap; for `num >= 1` exactly the first `num` matches of the scan, reordered |
| ToolsCompetitorAnalysis.SectorEtf | tools/competitor_analysis_tool.py:50-64 | an ETF exists exactly for the ten mapped sectors |
| ToolsCompetitorAnalysis.MainName | tools/competitor_analysis_tool.py:34 | short name if non-empty, else long name, else the ticker |
| ToolsCompetitorAnalysis.Candidates | tools/competitor_analysis_tool.py:39-75 | a failed recommendation request is the failure; otherwise the candidates exclude the ticker and include every other recommended symbol |
| ToolsCompetitorAnalysis.CandidatesShape | tools/competitor_analysis_tool.py:39-75 | the ticker is never a candidate; ETF symbols join only when fewer than `num` were recommended and the sector is mapped |
| ToolsCompetitorAnalysis.RecordDefaults | tools/competitor_analysis_tool.py:80-89 | each missing field reads 0, or '' for the name; each present field (name, market cap, trailing P/E, revenue growth, profit margins, beta) is copied |
| ToolsCompetitorAnalysis.Collected | tools/competitor_analysis_tool.py:77-91 | never more records than listed candidates, each for a candidate whose lookup succeeded |
| ToolsCompetitorAnalysis.CollectedExactly | tools/competitor_analysis_tool.py:77-91 | at most one record per listed candidate, each its candidate's record; every candidate whose lookup succeeds is reported |
| ToolsCompetitorAnalysis.AddEtfSymbols | tools/competitor_analysis_tool.py:69-72 | the loop adds every ETF symbol except the ticker |
| ToolsCompetitorAnalysis.LookUpAll | tools/competitor_analysis_tool.py:77-91 | the loop returns the records of the candidates whose lookup succeeds, in list order |
| ToolsCompetitorAnalysis.Analyze | tools/competitor_analysis_tool.py:28-104 | a failed info fetch gives its message; a missing or empty sector or industry the fixed message; a report echoes the ticker, sector and industry and, for `num >= 0`, holds at most `num` competitors |
| ToolsCompetitorAnalysis.CompetitorAnalysisTool | tools/competitor_analysis_tool.py:28-104 | the imperative tool returns the report for a listing of exactly the candidate set; a failed info fetch or a missing sector/industry gives its message; competitors are never the ticker, at most `num`, each its own record with defaults |
| ToolsCompetitorAnalysis.ErrorPayload | tools/competitor_analysis_tool.py:36-104 | failures give {"error": message} alone; a missing sector/industry has the fixed message |
| ToolsCompetitorAnalysis.SuccessPayload | tools/competitor_analysis_tool.py:74-101 | main stock echoed; the ticker never appears; only the first `num` listed candidates are looked up, so at most that many are reported; every one of them with a successful lookup is reported with defaults |
| Fundamentals.Last | tools/yf_fundamental_analysis_tool.py:28 | the last column's value exists iff the row exists and is non-empty |
| Fundamentals.SecondLast | tools/yf_fundamental_analysis_tool.py:50 | the value of the column before the last exists iff the row has two values |
| Fundamentals.Divide | tools/yf_fundamental_analysis_tool.py:28 | a quotient is finite iff the divisor is non-zero, and then times the divisor gives the dividend |
| Fundamentals.Quotient | tools/yf_fundamental_analysis_tool.py:27-45 | a ratio is None iff an operand's lookup fails |
| Fundamentals.Growth | tools/yf_fundamental_analysis_tool.py:49-57 | a growth rate exists iff its row has two values |
| Fundamentals.NoRatiosWithoutStatements | tools/yf_fundamental_analysis_tool.py:20-73 | a failed read or an empty income statement or balance sheet leaves all seven ratios None |
| Fundamentals.RatiosGatedIndependently | tools/yf_fundamental_analysis_tool.py:26-68 | each ratio is present iff its own rows are (and two periods for growth, a non-empty cash-flow table for free cash flow) |
| Fundamentals.Formulas | tools/yf_fundamental_analysis_tool.py:28-64 | current ratio = current assets / current liabilities (finite iff liabilities non-zero); free cash flow = operating cash flow − capital expenditures; revenue growth = relative change |
| Fundamentals.DerivedRatios | tools/yf_fundamental_analysis_tool.py:20-73 | any ratio implies the statements were read with a non-empty income statement and balance sheet; a growth rate needs two columns; free cash flow needs a non-empty cash-flow table |
| Fundamentals.FundamentalAnalysis | tools/yf_fundamental_analysis_tool.py:16-98 | the tool fails iff the info fetch fails |
| Fundamentals.InfoPassedThrough | tools/yf_fundamental_analysis_tool.py:76-98 | the ticker is echoed, each info field copied unchanged, and only the ratios depend on the statements |
| Fundamentals.MissingRowOnlyClearsItsRatio | tools/yf_fundamental_analysis_tool.py:27-57 | dropping the revenue row clears revenue growth and changes no other ratio |
| Technical.WindowSize | tools/yf_tech_analysis_tool.py:62 | the window lies in 5..20, and is n div 10 for 50 <= n < 210 |
| Technical.PeakDistance | tools/yf_tech_analysis_tool.py:114 | the distance is at least 5, and n div 20 from 100 rows on |
| Technical.WindowMonotone | tools/yf_tech_analysis_tool.py:62 | more rows never shrink the window or the distance |
| Technical.NatToString | tools/yf_tech_analysis_tool.py:31 | the count in the message is a non-empty string of digits |
| Technical.NatToStringReadsBack | tools/yf_tech_analysis_tool.py:31 | those digits denote the count |
| Technical.FirstMissingIsFirst | tools/yf_tech_analysis_tool.py:38-41 | no column is reported iff all are usable; otherwise the reported one is unusable and all before it are usable |
| Technical.FirstMissingColumn | tools/yf_tech_analysis_tool.py:38-41 | the column loop returns the first unusable required column |
| Technical.Levels | tools/yf_tech_analysis_tool.py:118-119 | levels exist iff every index is in range, and are the closes at the last min(3, count) indices |
| Technical.HeadIsHighest | tools/yf_tech_analysis_tool.py:188-199 | a reported head and shoulders has at least 60 closes and three peaks in range, the head strictly above both shoulders |
| Technical.WithinBandIsRatioTest | tools/yf_tech_analysis_tool.py:207-208 | the division-free band test agrees with `abs(b - a) / a < 0.03` for every pair, a zero divisor failing |
| Technical.TwinIsRatioTest | tools/yf_tech_analysis_tool.py:201-226 | double top / bottom holds iff there are at least 40 closes and two extrema, both in range, passing the ratio test |
| Technical.TwinIsThreePercentBand | tools/yf_tech_analysis_tool.py:202-226 | for a positive earlier close, double top/bottom means the later close is within ±3% of it |
| Technical.IdentifyChartPatterns | tools/yf_tech_analysis_tool.py:166-186 | the appends produce the pattern list of the three rules |
| Technical.PatternNamesDistinct | tools/yf_tech_analysis_tool.py:171-178 | different patterns are reported under different names |
| Technical.ChartPatternsShape | tools/yf_tech_analysis_tool.py:166-226 | at most three patterns, no repeats, in check order; each reported iff its rule holds; none below 40 closes |
| Technical.TechAnalysis | tools/yf_tech_analysis_tool.py:22-164 | the imperative tool returns the report its guards and inputs determine: a fetch exception gives an error with the ticker; under 30 rows the count message; an analysis implies every guard passed and carries the indicators, at most three levels each, the detected patterns, the row count and the last close |
| Technical.TechReportFor | tools/yf_tech_analysis_tool.py:22-164 | a fetch exception gives {error, ticker}; a data error implies the fetch worked; an analysis implies at least 30 rows and working indicators, which it carries |
| Technical.AnalysisFor | tools/yf_tech_analysis_tool.py:113-158 | an analysis echoes the ticker, the row count and the last close with at most three levels each; otherwise the error carries the ticker |
| Technical.IndexErrorExactlyOutOfRange | tools/yf_tech_analysis_tool.py:118-119 | the analysis is returned iff every trough and peak index is in range |
| Technical.Guards | tools/yf_tech_analysis_tool.py:22-164 | under 30 rows gives the count message; a missing column names the first one; an exception gives {error, ticker}; an analysis implies every guard passed |
| Technical.AnalysisShape | tools/yf_tech_analysis_tool.py:121-149 | an analysis reports the ticker, the indicators, the row count, the last close and the detected patterns |
| Technical.AnalysisReadsLevels | tools/yf_tech_analysis_tool.py:118-146 | an analysis reports as support the levels of the troughs and as resistance those of the peaks |

## Left out

- The agent framework, the persona and expected-output strings, and the model service. One stage runner `StageCall -> Outcome` stands for them. `create_crew` is dead code: its only call is commented out.
- The API key written into the process environment. It is global configuration.
- The Streamlit front end (app.py). It only renders the report.
- All network and data fetching. This covers market data, the recommendation request, the news fetch helpers and HTML parsing. Each fetch becomes a `Result` input. A non-200 recommendation answer is an empty list.
- Headline polarity (TextBlob) is an input. An article without a `title`, which raises KeyError, is not modelled.
- The numeric statistics of `risk_assessment` (regression, percentiles, ratios, drawdown series) are inputs. NaN is not modelled: a NaN would score 3 in each `categorize_risk` component.
- The technical indicators (moving averages, RSI, MACD, Bollinger bands, ATR, volatility, momentum) are inputs passed through. So are gap filling and `find_peaks`: its indices, computed at distance `PeakDistance(n)`, are inputs. NaN closes and statement values are not modelled.
- Sentiment.Round3: rounds exact reals half-to-even to three decimals. It does not model binary floating-point rounding.
- CompetitorAnalysis.SortByMarketCap: stability (equal caps keep scan order) is not stated, though the insertion is written to keep it.
- CompetitorAnalysis.SortAsWritten: the TypeError text is fixed. Python's actual text names the operand types in the order compared.
- Technical.TechReportFor: an out-of-range peak index gives one fixed message. Python's text names the index and the size.
- ToolsCompetitorAnalysis.CompetitorAnalysisTool: the ETF's info fetch and its history fetch are one fallible input. The unused `holdings` value is not modelled.
- `print` logging and the commented-out legacy class versions of the tools.

## Findings

| source | as written | input that shows it | evidently intended | confidence | as-written member | corrected member |
|---|---|---|---|---|---|---|
| sentiment_analysis_tool.py:170-171 | the news helpers are declared `(self, ticker)` but called with the ticker alone, so the first call raises TypeError and no news is ever analysed | any ticker, e.g. "AAPL" | fetch the Yahoo and Finviz news of the ticker and analyse them | high, not executed | Sentiment.SentimentToolAsWritten | Sentiment.SentimentTool |
| competitor_analysis_tool.py:84-107 | a missing market cap is stored as None, so the key exists and `x.get('market_cap', 0)` yields None; sorting then compares None with a number, raises TypeError, and the whole tool returns its error payload | two same-industry competitors, one whose info has no `marketCap` | rank a missing market cap as 0 | high, not executed | CompetitorAnalysis.AnalyzeAsWritten | CompetitorAnalysis.Analyze |
