/** The sequential analysis pipeline: four analyst stages run one after the
    other, each stage's output is stored under its role name in an
    insertion-ordered dictionary, and the later stages' task descriptions
    quote earlier outputs word for word. The agent framework and the
    language model behind each stage are one abstract stage runner, which
    either completes with the stage's text or raises. */
module Crew {
  import opened Common

  /** The four stages, in the order they run. */
  datatype Stage = Researcher | SentimentAnalyst | FinancialAnalyst | InvestmentStrategist

  /** The tools a stage's agent may be offered. */
  datatype Tool = TechAnalysis | FundamentalAnalysis | CompetitorAnalysis | SentimentAnalysis | RiskAssessment

  const Stages: seq<Stage> := [Researcher, SentimentAnalyst, FinancialAnalyst, InvestmentStrategist]

  /** Position of a stage in `Stages`: how many outputs precede it. */
  function Index(s: Stage): (k: nat)
    ensures k < |Stages| && Stages[k] == s
  {
    match s
    case Researcher => 0
    case SentimentAnalyst => 1
    case FinancialAnalyst => 2
    case InvestmentStrategist => 3
  }

  /** The agent's role, which is also the key of its output. */
  function Role(s: Stage): string {
    match s
    case Researcher => "Stock Market Researcher"
    case SentimentAnalyst => "Sentiment Analyst"
    case FinancialAnalyst => "Financial Analyst"
    case InvestmentStrategist => "Investment Strategist"
  }

  /** The static tool allow-list of each agent. */
  function Tools(s: Stage): seq<Tool> {
    match s
    case Researcher => [TechAnalysis, FundamentalAnalysis, CompetitorAnalysis]
    case SentimentAnalyst => [SentimentAnalysis]
    case FinancialAnalyst => [TechAnalysis, FundamentalAnalysis, RiskAssessment]
    case InvestmentStrategist => []
  }

  // ---------------------------------------------------------------------
  // Task descriptions
  // ---------------------------------------------------------------------

  /** Line break plus the indentation the triple-quoted templates carry. */
  const Indent: string := "\n        "

  // The fixed text of each template, around the symbol and the quoted outputs.

  const ResearchOpening: string := "Conduct thorough research on "
  const ResearchBody: string :=
    " including:"
    + Indent + "1. Technical analysis (trends, indicators, patterns)"
    + Indent + "2. Fundamental analysis (financial ratios, valuation metrics)"
    + Indent + "3. Competitive landscape analysis"
    + Indent + "Provide a detailed report with key findings."

  const SentimentOpening: string := "Analyze market sentiment for "
  const SentimentBody: string :=
    " by:"
    + Indent + "1. Evaluating news sentiment"
    + Indent + "2. Analyzing news sentiments and digging up if some crucial breakthrough happened related to the company"
    + Indent + "3. Identifying potential sentiment-driven price movements"

  const AnalysisOpening: string := "Synthesize all research data on "
  const AnalysisBody: string :=
    " to:"
    + Indent + "1. Evaluate risk-reward profile"
    + Indent + "2. Identify key strengths and weaknesses"
    + Indent + "3. Assess valuation attractiveness"
    + Indent + "4. Highlight potential catalysts"
    + Indent
    + Indent + "Use the following research data as context:"
    + Indent

  const StrategyOpening: string := "Develop investment strategy for "
  const StrategyBody: string :=
    " considering:"
    + Indent + "1. Different time horizons (short, medium, long-term)"
    + Indent + "2. Various risk profiles (conservative, moderate, aggressive)"
    + Indent + "3. Current market conditions"
    + Indent + "4. All previous analysis findings"
    + Indent
    + Indent + "Use the following analysis data as context:"
    + Indent

  function ResearchDescription(symbol: string): string {
    ResearchOpening + symbol + ResearchBody
  }

  function SentimentDescription(symbol: string): string {
    SentimentOpening + symbol + SentimentBody
  }

  function AnalysisDescription(symbol: string, research: string, sentiment: string): string {
    AnalysisOpening + symbol + AnalysisBody + research + Indent + sentiment
  }

  function StrategyDescription(symbol: string, research: string, sentiment: string, analysis: string): string {
    StrategyOpening + symbol + StrategyBody + research + Indent + sentiment + Indent + analysis
  }

  /** The description of `stage`, given the outputs of the stages before it
      in stage order (the pipeline always supplies exactly those). */
  function Description(stage: Stage, symbol: string, prior: seq<string>): string {
    match stage
    case Researcher => ResearchDescription(symbol)
    case SentimentAnalyst => SentimentDescription(symbol)
    case FinancialAnalyst => AnalysisDescription(symbol, Nth(prior, 0), Nth(prior, 1))
    case InvestmentStrategist => StrategyDescription(symbol, Nth(prior, 0), Nth(prior, 1), Nth(prior, 2))
  }

  function Nth(prior: seq<string>, i: nat): string {
    if i < |prior| then prior[i] else ""
  }

  /** `part` stands in `text` starting at offset `i`. */
  ghost predicate OccursAt(text: string, part: string, i: int) {
    0 <= i && i + |part| <= |text| && text[i..i + |part|] == part
  }

  /** Every element of `parts` stands verbatim in `text`, without overlap,
      in the order of `parts`. */
  ghost predicate EmbedsInOrder(text: string, parts: seq<string>)
    decreases |parts|
  {
    parts == [] ||
    exists i :: OccursAt(text, parts[0], i) && EmbedsInOrder(text[i + |parts[0]|..], parts[1..])
  }

  lemma EmbedsAfter(before: string, part: string, after: string, rest: seq<string>)
    requires EmbedsInOrder(after, rest)
    ensures EmbedsInOrder(before + part + after, [part] + rest)
  {
    var text := before + part + after;
    var parts := [part] + rest;
    assert text[|before|..|before| + |part|] == part;
    assert text[|before| + |part|..] == after;
    assert parts[1..] == rest;
    assert OccursAt(text, parts[0], |before|);
  }

  /** The Researcher's task opens with the fixed opening, followed at once
      by the symbol. */
  lemma ResearchDescriptionLayout(symbol: string)
    ensures var text := ResearchDescription(symbol);
      OccursAt(text, ResearchOpening, 0) && OccursAt(text, symbol, |ResearchOpening|)
  {
    var text := ResearchDescription(symbol);
    assert text[..|ResearchOpening|] == ResearchOpening;
    assert text[|ResearchOpening|..|ResearchOpening| + |symbol|] == symbol;
  }

  /** The Sentiment Analyst's task opens with the fixed opening, followed at
      once by the symbol. */
  lemma SentimentDescriptionLayout(symbol: string)
    ensures var text := SentimentDescription(symbol);
      OccursAt(text, SentimentOpening, 0) && OccursAt(text, symbol, |SentimentOpening|)
  {
    var text := SentimentDescription(symbol);
    assert text[..|SentimentOpening|] == SentimentOpening;
    assert text[|SentimentOpening|..|SentimentOpening| + |symbol|] == symbol;
  }

  /** The Financial Analyst's task: the symbol right after the opening, the
      research output right after the fixed body, and the sentiment output
      closing the text. */
  lemma AnalysisDescriptionLayout(symbol: string, research: string, sentiment: string)
    ensures var text := AnalysisDescription(symbol, research, sentiment);
      && OccursAt(text, symbol, |AnalysisOpening|)
      && OccursAt(text, research, |AnalysisOpening| + |symbol| + |AnalysisBody|)
      && OccursAt(text, sentiment, |text| - |sentiment|)
  {
    var head := AnalysisOpening + symbol + AnalysisBody;
    var text := AnalysisDescription(symbol, research, sentiment);
    assert text == head + research + Indent + sentiment;
    assert text[|AnalysisOpening|..|AnalysisOpening| + |symbol|] == symbol;
    assert text[|head|..|head| + |research|] == research;
    assert text[|text| - |sentiment|..] == sentiment;
  }

  /** The Investment Strategist's task: the symbol right after the opening,
      the research output right after the fixed body, and the analysis
      output closing the text. */
  lemma StrategyDescriptionLayout(symbol: string, research: string, sentiment: string, analysis: string)
    ensures var text := StrategyDescription(symbol, research, sentiment, analysis);
      && OccursAt(text, symbol, |StrategyOpening|)
      && OccursAt(text, research, |StrategyOpening| + |symbol| + |StrategyBody|)
      && OccursAt(text, analysis, |text| - |analysis|)
  {
    var head := StrategyOpening + symbol + StrategyBody;
    var text := StrategyDescription(symbol, research, sentiment, analysis);
    assert text == head + research + Indent + sentiment + Indent + analysis;
    assert text[|StrategyOpening|..|StrategyOpening| + |symbol|] == symbol;
    assert text[|head|..|head| + |research|] == research;
    assert text[|text| - |analysis|..] == analysis;
  }

  /** Every stage's task names the symbol, whatever the earlier outputs. */
  lemma DescriptionNamesSymbol(stage: Stage, symbol: string, prior: seq<string>)
    ensures exists i :: OccursAt(Description(stage, symbol, prior), symbol, i)
  {
    var text := Description(stage, symbol, prior);
    match stage
    case Researcher =>
      ResearchDescriptionLayout(symbol);
      assert OccursAt(text, symbol, |ResearchOpening|);
    case SentimentAnalyst =>
      SentimentDescriptionLayout(symbol);
      assert OccursAt(text, symbol, |SentimentOpening|);
    case FinancialAnalyst =>
      AnalysisDescriptionLayout(symbol, Nth(prior, 0), Nth(prior, 1));
      assert OccursAt(text, symbol, |AnalysisOpening|);
    case InvestmentStrategist =>
      StrategyDescriptionLayout(symbol, Nth(prior, 0), Nth(prior, 1), Nth(prior, 2));
      assert OccursAt(text, symbol, |StrategyOpening|);
  }

  /** The Financial Analyst's description quotes the research output and then
      the sentiment output, verbatim. */
  lemma AnalysisQuotesContext(symbol: string, research: string, sentiment: string)
    ensures EmbedsInOrder(AnalysisDescription(symbol, research, sentiment), [research, sentiment])
  {
    EmbedsAfter(Indent, sentiment, "", []);
    assert Indent + sentiment + "" == Indent + sentiment;
    EmbedsAfter(AnalysisOpening + symbol + AnalysisBody, research, Indent + sentiment, [sentiment]);
    assert [research] + [sentiment] == [research, sentiment];
    assert AnalysisOpening + symbol + AnalysisBody + research + (Indent + sentiment)
        == AnalysisDescription(symbol, research, sentiment);
  }

  /** The Investment Strategist's description quotes the research, sentiment
      and analysis outputs, in that order, verbatim. */
  lemma StrategyQuotesContext(symbol: string, research: string, sentiment: string, analysis: string)
    ensures EmbedsInOrder(StrategyDescription(symbol, research, sentiment, analysis), [research, sentiment, analysis])
  {
    EmbedsAfter(Indent, analysis, "", []);
    assert Indent + analysis + "" == Indent + analysis;
    EmbedsAfter(Indent, sentiment, Indent + analysis, [analysis]);
    EmbedsAfter(StrategyOpening + symbol + StrategyBody, research, Indent + sentiment + (Indent + analysis), [sentiment, analysis]);
    assert [research] + [sentiment, analysis] == [research, sentiment, analysis];
    assert StrategyOpening + symbol + StrategyBody + research + (Indent + sentiment + (Indent + analysis))
        == StrategyDescription(symbol, research, sentiment, analysis);
  }

  // ---------------------------------------------------------------------
  // The output store: a Python dict, insertion-ordered
  // ---------------------------------------------------------------------

  type Entries = seq<(string, string)>

  function Keys(entries: Entries): seq<string> {
    seq(|entries|, i requires 0 <= i < |entries| => entries[i].0)
  }

  function Values(entries: Entries): seq<string> {
    seq(|entries|, i requires 0 <= i < |entries| => entries[i].1)
  }

  /** `d[key]`, or None when the key is absent. */
  function Lookup(entries: Entries, key: string): Option<string> {
    if entries == [] then None
    else if entries[0].0 == key then Some(entries[0].1)
    else Lookup(entries[1..], key)
  }

  /** `d[key] = value`: a new key goes at the end; an existing key keeps its
      position and gets the new value. */
  function Assign(entries: Entries, key: string, value: string): (r: Entries)
    ensures key !in Keys(entries) ==> r == entries + [(key, value)]
    ensures key in Keys(entries) ==> Keys(r) == Keys(entries)
    ensures Lookup(r, key) == Some(value)
    ensures forall k :: k != key ==> Lookup(r, k) == Lookup(entries, k)
  {
    if entries == [] then [(key, value)]
    else if Keys(entries)[0] == key then [(key, value)] + entries[1..]
    else
      var tail := Assign(entries[1..], key, value);
      assert Keys(entries) == [entries[0].0] + Keys(entries[1..]);
      assert Keys([entries[0]] + tail) == [entries[0].0] + Keys(tail);
      [entries[0]] + tail
  }

  /** The `agent_outputs` dictionary that `run_analysis` fills in place. */
  class OutputStore {
    var entries: Entries

    constructor ()
      ensures entries == []
    {
      entries := [];
    }

    method Put(key: string, value: string)
      modifies this
      ensures entries == Assign(old(entries), key, value)
    {
      entries := Assign(entries, key, value);
    }
  }

  // ---------------------------------------------------------------------
  // Running the stages
  // ---------------------------------------------------------------------

  /** What a stage runner is handed: the stage, its filled-in task
      description and the tools its agent may use. */
  datatype StageCall = StageCall(stage: Stage, description: string, tools: seq<Tool>)

  /** A crew kickoff either completes with the stage's text or raises. */
  datatype Outcome = Completed(output: string) | Raised(error: string)

  /** One kickoff as an observer of the pipeline sees it: the call and the
      contents of the output store at the moment it was made. */
  datatype Invocation = Invocation(call: StageCall, storeBefore: Entries)

  /** The value `run_analysis` returns: {"individual_analyses": agent_outputs}. */
  datatype Report = Report(individualAnalyses: Entries)

  /** A run: the report or the exception that escaped, and the kickoffs made. */
  datatype Run = Run(result: Result<Report>, trace: seq<Invocation>)

  /** The call that starts `stage` with `store` holding the earlier outputs. */
  function CallFor(stage: Stage, symbol: string, store: Entries): StageCall {
    StageCall(stage, Description(stage, symbol, Values(store)), Tools(stage))
  }

  /** How the calls of a run are built from the stage and the store. */
  type CallBuilder = (Stage, Entries) -> StageCall

  function CallsFor(symbol: string): CallBuilder {
    (stage: Stage, store: Entries) => CallFor(stage, symbol, store)
  }

  /** The stages from position `k` on, with `store` holding the outputs of the
      stages before `k` and `trace` the kickoffs made so far. */
  function RunFrom(k: nat, build: CallBuilder, runner: StageCall -> Outcome, store: Entries, trace: seq<Invocation>): (run: Run)
    requires k <= |Stages|
    ensures |trace| <= |run.trace| <= |trace| + (|Stages| - k)
    ensures k < |Stages| ==> |trace| < |run.trace|
    ensures run.result.Success? ==> |run.trace| == |trace| + (|Stages| - k)
    decreases |Stages| - k
  {
    if k == |Stages| then Run(Success(Report(store)), trace)
    else
      var call := build(Stages[k], store);
      var trace' := trace + [Invocation(call, store)];
      match runner(call)
      case Raised(e) => Run(Failure(e), trace')
      case Completed(out) =>
        RunFrom(k + 1, build, runner, store + [(Role(Stages[k]), out)], trace')
  }

  /** What `run_analysis(symbol)` does when each kickoff behaves as `runner`:
      between one and four kickoffs, all four when it succeeds. */
  function Pipeline(symbol: string, runner: StageCall -> Outcome): (r: Run)
    ensures 1 <= |r.trace| <= |Stages|
    ensures r.result.Success? ==> |r.trace| == |Stages|
  {
    RunFrom(0, CallsFor(symbol), runner, [], [])
  }

  /** The store holds exactly the outputs of the first `n` kickoffs of
      `trace`, keyed by their stages' roles, in stage order. */
  ghost predicate HoldsFirst(store: Entries, runner: StageCall -> Outcome, trace: seq<Invocation>, n: nat) {
    n <= |trace| && n <= |Stages| && |store| == n &&
    forall j :: 0 <= j < n ==>
      runner(trace[j].call).Completed? && store[j] == (Role(Stages[j]), runner(trace[j].call).output)
  }

  /** Kickoff k ran stage k, only once the outputs of kickoffs 0 .. k-1 were
      stored, with the call built from that stage and that store alone. */
  ghost predicate WellOrdered(build: CallBuilder, runner: StageCall -> Outcome, trace: seq<Invocation>) {
    |trace| <= |Stages| &&
    forall k :: 0 <= k < |trace| ==>
      HoldsFirst(trace[k].storeBefore, runner, trace, k) &&
      trace[k].call == build(Stages[k], trace[k].storeBefore)
  }

  /** Starting stage k keeps the kickoffs well ordered. */
  lemma RunFromStart(k: nat, build: CallBuilder, runner: StageCall -> Outcome, store: Entries, trace: seq<Invocation>)
    requires k < |Stages| && |trace| == k
    requires WellOrdered(build, runner, trace) && HoldsFirst(store, runner, trace, k)
    ensures var trace' := trace + [Invocation(build(Stages[k], store), store)];
      HoldsFirst(store, runner, trace', k) && WellOrdered(build, runner, trace')
  {
    var trace' := trace + [Invocation(build(Stages[k], store), store)];
    forall j | 0 <= j < k
      ensures HoldsFirst(trace'[j].storeBefore, runner, trace', j)
    {
      assert trace'[j] == trace[j];
      assert HoldsFirst(trace[j].storeBefore, runner, trace, j);
    }
  }

  /** Storing the output of a completed stage k keeps the store holding the
      outputs of the kickoffs so far. */
  lemma RunFromStored(k: nat, build: CallBuilder, runner: StageCall -> Outcome, store: Entries, trace: seq<Invocation>)
    requires k < |Stages| && |trace| == k && HoldsFirst(store, runner, trace, k)
    requires runner(build(Stages[k], store)).Completed?
    ensures var call := build(Stages[k], store);
      HoldsFirst(store + [(Role(Stages[k]), runner(call).output)], runner, trace + [Invocation(call, store)], k + 1)
  {
    var call := build(Stages[k], store);
    var store' := store + [(Role(Stages[k]), runner(call).output)];
    var trace' := trace + [Invocation(call, store)];
    forall j | 0 <= j < k + 1
      ensures runner(trace'[j].call).Completed? && store'[j] == (Role(Stages[j]), runner(trace'[j].call).output)
    {
      if j < k {
        assert trace'[j] == trace[j] && store'[j] == store[j];
      }
    }
  }

  /** The kickoffs from stage k on extend the trace so far in stage order,
      and a report holds the output of every kickoff. */
  lemma {:induction false} RunFromTrace(k: nat, build: CallBuilder, runner: StageCall -> Outcome, store: Entries, trace: seq<Invocation>)
    requires k <= |Stages| && |trace| == k
    requires WellOrdered(build, runner, trace) && HoldsFirst(store, runner, trace, k)
    ensures var run := RunFrom(k, build, runner, store, trace);
      && WellOrdered(build, runner, run.trace)
      && k <= |run.trace| && run.trace[..k] == trace
      && (run.result.Success? ==> HoldsFirst(run.result.value.individualAnalyses, runner, run.trace, |Stages|))
    decreases |Stages| - k
  {
    if k < |Stages| {
      var call := build(Stages[k], store);
      var trace' := trace + [Invocation(call, store)];
      RunFromStart(k, build, runner, store, trace);
      RunFromStep(k, build, runner, store, trace);
      match runner(call)
      case Raised(e) =>
        assert trace'[..k] == trace;
      case Completed(out) =>
        var store' := store + [(Role(Stages[k]), out)];
        RunFromStored(k, build, runner, store, trace);
        RunFromTrace(k + 1, build, runner, store', trace');
        var run := RunFrom(k + 1, build, runner, store', trace');
        assert run.trace[..k] == run.trace[..k + 1][..k];
    } else {
      assert trace[..k] == trace;
    }
  }

  /** From stage k on, the run succeeds exactly when all four kickoffs are
      made and the last completes; otherwise it fails with the exception of
      the last kickoff made. */
  lemma {:induction false} RunFromResult(k: nat, build: CallBuilder, runner: StageCall -> Outcome, store: Entries, trace: seq<Invocation>)
    requires k <= |Stages| && |trace| == k && HoldsFirst(store, runner, trace, k)
    ensures var run := RunFrom(k, build, runner, store, trace);
      && (run.result.Success? <==> |run.trace| == |Stages| && runner(run.trace[|Stages| - 1].call).Completed?)
      && (run.result.Failure? ==> k < |run.trace| && runner(run.trace[|run.trace| - 1].call) == Raised(run.result.error))
    decreases |Stages| - k
  {
    if k < |Stages| {
      var call := build(Stages[k], store);
      var trace' := trace + [Invocation(call, store)];
      RunFromStep(k, build, runner, store, trace);
      if runner(call).Completed? {
        RunFromStored(k, build, runner, store, trace);
        RunFromResult(k + 1, build, runner, store + [(Role(Stages[k]), runner(call).output)], trace');
      }
    }
  }

  lemma RunFromShape(k: nat, build: CallBuilder, runner: StageCall -> Outcome, store: Entries, trace: seq<Invocation>)
    requires k <= |Stages| && |trace| == k
    requires WellOrdered(build, runner, trace) && HoldsFirst(store, runner, trace, k)
    ensures var run := RunFrom(k, build, runner, store, trace);
      && WellOrdered(build, runner, run.trace)
      && k <= |run.trace| && run.trace[..k] == trace
      && (run.result.Success? <==> |run.trace| == |Stages| && runner(run.trace[|Stages| - 1].call).Completed?)
      && (run.result.Failure? ==> k < |run.trace| && runner(run.trace[|run.trace| - 1].call) == Raised(run.result.error))
      && (run.result.Success? ==> HoldsFirst(run.result.value.individualAnalyses, runner, run.trace, |Stages|))
  {
    RunFromTrace(k, build, runner, store, trace);
    RunFromResult(k, build, runner, store, trace);
  }

  /** A run either delivers all four outputs or stops at the first stage that
      raises, with that stage's exception and no report; stage k starts only
      with the outputs of stages 0 .. k-1 stored, and its call is built from
      them and the symbol alone. */
  lemma PipelineShape(symbol: string, runner: StageCall -> Outcome)
    ensures var run := Pipeline(symbol, runner);
      && 1 <= |run.trace| <= |Stages|
      && WellOrdered(CallsFor(symbol), runner, run.trace)
      && (forall k :: 0 <= k < |run.trace| - 1 ==> runner(run.trace[k].call).Completed?)
      && (run.result.Success? <==> |run.trace| == |Stages| && runner(run.trace[|Stages| - 1].call).Completed?)
      && (run.result.Failure? ==> runner(run.trace[|run.trace| - 1].call) == Raised(run.result.error))
      && (run.result.Success? ==> HoldsFirst(run.result.value.individualAnalyses, runner, run.trace, |Stages|))
  {
    RunShape(CallsFor(symbol), runner);
  }

  /** `PipelineShape` for any way of building the calls. */
  lemma RunShape(build: CallBuilder, runner: StageCall -> Outcome)
    ensures var run := RunFrom(0, build, runner, [], []);
      && 1 <= |run.trace| <= |Stages|
      && WellOrdered(build, runner, run.trace)
      && (forall k :: 0 <= k < |run.trace| - 1 ==> runner(run.trace[k].call).Completed?)
      && (run.result.Success? <==> |run.trace| == |Stages| && runner(run.trace[|Stages| - 1].call).Completed?)
      && (run.result.Failure? ==> runner(run.trace[|run.trace| - 1].call) == Raised(run.result.error))
      && (run.result.Success? ==> HoldsFirst(run.result.value.individualAnalyses, runner, run.trace, |Stages|))
  {
    RunFromShape(0, build, runner, [], []);
    var run := RunFrom(0, build, runner, [], []);
    forall k | 0 <= k < |run.trace| - 1
      ensures runner(run.trace[k].call).Completed?
    {
      assert HoldsFirst(run.trace[k + 1].storeBefore, runner, run.trace, k + 1);
    }
  }

  /** One step of `RunFrom`: start stage k, then stop or go on. */
  lemma RunFromStep(k: nat, build: CallBuilder, runner: StageCall -> Outcome, store: Entries, trace: seq<Invocation>)
    requires k < |Stages|
    ensures var call := build(Stages[k], store);
      RunFrom(k, build, runner, store, trace) ==
        match runner(call)
        case Raised(e) => Run(Failure(e), trace + [Invocation(call, store)])
        case Completed(out) =>
          RunFrom(k + 1, build, runner, store + [(Role(Stages[k]), out)], trace + [Invocation(call, store)])
  {
  }

  /** The roles of the stages before position k, in stage order. */
  function RolesBefore(k: nat): (roles: seq<string>)
    requires k <= |Stages|
    ensures |roles| == k
  {
    seq(k, j requires 0 <= j < k => Role(Stages[j]))
  }

  /** Stage k's role is not yet a key when stage k starts. */
  lemma RoleIsNew(k: nat)
    requires k < |Stages|
    ensures Role(Stages[k]) !in RolesBefore(k)
  {
    RolesDistinct();
    forall j | 0 <= j < k
      ensures RolesBefore(k)[j] != Role(Stages[k])
    {
      assert RolesBefore(k)[j] == Role(Stages[j]);
    }
  }

  /** One block of `run_analysis`: kick off stage k with the call `build`
      makes from the store, and store its output under the stage's role
      unless the kickoff raised. `goal` is the run the remaining stages
      amount to. */
  method RunStage(k: nat, build: CallBuilder, runner: StageCall -> Outcome, outputs: OutputStore,
                  ghost trace: seq<Invocation>, ghost goal: Run)
    returns (outcome: Outcome, ghost trace': seq<Invocation>)
    requires k < |Stages| && Keys(outputs.entries) == RolesBefore(k)
    requires RunFrom(k, build, runner, outputs.entries, trace) == goal
    modifies outputs
    ensures var call := build(Stages[k], old(outputs.entries));
      && outcome == runner(call)
      && trace' == trace + [Invocation(call, old(outputs.entries))]
      && outputs.entries == (if outcome.Raised? then old(outputs.entries)
                             else old(outputs.entries) + [(Role(Stages[k]), outcome.output)])
    ensures outcome.Raised? ==> goal == Run(Failure(outcome.error), trace')
    ensures outcome.Completed? ==>
      Keys(outputs.entries) == RolesBefore(k + 1) && RunFrom(k + 1, build, runner, outputs.entries, trace') == goal
  {
    RoleIsNew(k);
    var call := build(Stages[k], outputs.entries);
    RunFromStep(k, build, runner, outputs.entries, trace);
    trace' := trace + [Invocation(call, outputs.entries)];
    outcome := runner(call);
    if outcome.Completed? {
      outputs.Put(Role(Stages[k]), outcome.output);
      assert Keys(outputs.entries) == RolesBefore(k + 1) by {
        assert Keys(outputs.entries) == Keys(old(outputs.entries)) + [Role(Stages[k])];
      }
    }
  }

  /** `run_analysis`: each stage's output is put into the store before the
      next stage's description is built from it; an exception from a stage
      leaves the method at once. */
  method RunAnalysis(symbol: string, runner: StageCall -> Outcome) returns (result: Result<Report>, ghost trace: seq<Invocation>)
    ensures Run(result, trace) == Pipeline(symbol, runner)
    ensures result == Pipeline(symbol, runner).result
    ensures result.Success? ==>
      Keys(result.value.individualAnalyses)
        == ["Stock Market Researcher", "Sentiment Analyst", "Financial Analyst", "Investment Strategist"]
  {
    ghost var goal := Pipeline(symbol, runner);
    var build := CallsFor(symbol);
    var outputs := new OutputStore();
    trace := [];
    assert Keys(outputs.entries) == RolesBefore(0);

    var research;
    research, trace := RunStage(0, build, runner, outputs, trace, goal);
    if research.Raised? {
      return Failure(research.error), trace;
    }

    var sentiment;
    sentiment, trace := RunStage(1, build, runner, outputs, trace, goal);
    if sentiment.Raised? {
      return Failure(sentiment.error), trace;
    }

    var analysis;
    analysis, trace := RunStage(2, build, runner, outputs, trace, goal);
    if analysis.Raised? {
      return Failure(analysis.error), trace;
    }

    var strategy;
    strategy, trace := RunStage(3, build, runner, outputs, trace, goal);
    if strategy.Raised? {
      return Failure(strategy.error), trace;
    }

    result := Success(Report(outputs.entries));
    ReportKeysInStageOrder(symbol, runner);
  }

  /** The four role names differ, so no stage's write replaces another's. */
  lemma RolesDistinct()
    ensures Distinct(seq(|Stages|, j requires 0 <= j < |Stages| => Role(Stages[j])))
  {
    var roles := seq(|Stages|, j requires 0 <= j < |Stages| => Role(Stages[j]));
    assert |roles[0]| == 23 && |roles[1]| == 17 && |roles[2]| == 17 && |roles[3]| == 21;
    assert roles[1][0] == 'S' && roles[2][0] == 'F';
  }

  /** A successful report has exactly the four role keys, in stage order. */
  lemma ReportKeysInStageOrder(symbol: string, runner: StageCall -> Outcome)
    ensures var run := Pipeline(symbol, runner);
      run.result.Success? ==>
        Keys(run.result.value.individualAnalyses)
          == ["Stock Market Researcher", "Sentiment Analyst", "Financial Analyst", "Investment Strategist"]
  {
    PipelineShape(symbol, runner);
    var run := Pipeline(symbol, runner);
    if run.result.Success? {
      var store := run.result.value.individualAnalyses;
      assert store[0].0 == Role(Stages[0]) && store[1].0 == Role(Stages[1]);
      assert store[2].0 == Role(Stages[2]) && store[3].0 == Role(Stages[3]);
    }
  }

  /** Every kickoff runs its own stage and offers that stage's fixed tools. */
  lemma KickoffToolsAreFixed(symbol: string, runner: StageCall -> Outcome)
    ensures var run := Pipeline(symbol, runner);
      forall k :: 0 <= k < |run.trace| ==>
        run.trace[k].call.stage == Stages[k] && run.trace[k].call.tools == Tools(Stages[k])
  {
    PipelineShape(symbol, runner);
    var run := Pipeline(symbol, runner);
    forall k | 0 <= k < |run.trace|
      ensures run.trace[k].call.stage == Stages[k] && run.trace[k].call.tools == Tools(Stages[k])
    {
      assert run.trace[k].call == CallsFor(symbol)(Stages[k], run.trace[k].storeBefore);
    }
  }

  /** The allow-lists: the Researcher gets the technical, fundamental and
      competitor tools, the Sentiment Analyst the sentiment tool, the
      Financial Analyst the technical, fundamental and risk tools, and the
      Strategist none. */
  lemma ToolAllowLists()
    ensures Elems(Tools(Researcher)) == {TechAnalysis, FundamentalAnalysis, CompetitorAnalysis}
    ensures Elems(Tools(SentimentAnalyst)) == {SentimentAnalysis}
    ensures Elems(Tools(FinancialAnalyst)) == {TechAnalysis, FundamentalAnalysis, RiskAssessment}
    ensures Tools(InvestmentStrategist) == []
  {
    assert Tools(Researcher)[2] == CompetitorAnalysis;
    assert Tools(FinancialAnalyst)[2] == RiskAssessment;
  }

  /** A call built for a stage after the first two quotes every output in the
      store it is built from, verbatim and in order. */
  lemma CallQuotesStore(stage: Stage, symbol: string, store: Entries)
    requires |store| == Index(stage) >= 2
    ensures EmbedsInOrder(CallFor(stage, symbol, store).description, Values(store))
  {
    if stage == FinancialAnalyst {
      AnalysisCallQuotes(symbol, store);
    } else {
      StrategyCallQuotes(symbol, store);
    }
  }

  lemma AnalysisCallQuotes(symbol: string, store: Entries)
    requires |store| == 2
    ensures EmbedsInOrder(CallFor(FinancialAnalyst, symbol, store).description, Values(store))
  {
    var prior := Values(store);
    var text := AnalysisDescription(symbol, prior[0], prior[1]);
    assert CallFor(FinancialAnalyst, symbol, store).description == text;
    AnalysisQuotesContext(symbol, prior[0], prior[1]);
    assert [prior[0], prior[1]] == prior;
    assert EmbedsInOrder(text, prior);
  }

  lemma StrategyCallQuotes(symbol: string, store: Entries)
    requires |store| == 3
    ensures EmbedsInOrder(CallFor(InvestmentStrategist, symbol, store).description, Values(store))
  {
    var prior := Values(store);
    var text := StrategyDescription(symbol, prior[0], prior[1], prior[2]);
    assert CallFor(InvestmentStrategist, symbol, store).description == text;
    StrategyQuotesContext(symbol, prior[0], prior[1], prior[2]);
    assert [prior[0], prior[1], prior[2]] == prior;
    assert EmbedsInOrder(text, prior);
  }

  /** The Financial Analyst and the Investment Strategist are handed, verbatim
      and in stage order, every output stored before them; the Researcher and
      the Sentiment Analyst are handed only the symbol. */
  lemma ContextIsTheStoreSoFar(symbol: string, runner: StageCall -> Outcome)
    ensures var run := Pipeline(symbol, runner);
      forall k :: 2 <= k < |run.trace| ==>
        EmbedsInOrder(run.trace[k].call.description, Values(run.trace[k].storeBefore))
    ensures var run := Pipeline(symbol, runner);
      run.trace[0].call.description == ResearchDescription(symbol) &&
      (|run.trace| > 1 ==> run.trace[1].call.description == SentimentDescription(symbol))
  {
    PipelineShape(symbol, runner);
    var run := Pipeline(symbol, runner);
    var build := CallsFor(symbol);
    assert run.trace[0].call == build(Stages[0], run.trace[0].storeBefore);
    if |run.trace| > 1 {
      assert run.trace[1].call == build(Stages[1], run.trace[1].storeBefore);
    }
    forall k | 2 <= k < |run.trace|
      ensures EmbedsInOrder(run.trace[k].call.description, Values(run.trace[k].storeBefore))
    {
      var store := run.trace[k].storeBefore;
      assert HoldsFirst(store, runner, run.trace, k);
      assert run.trace[k].call == build(Stages[k], store);
      CallQuotesStore(Stages[k], symbol, store);
    }
  }

  // ---------------------------------------------------------------------
  // The language-model wrapper
  // ---------------------------------------------------------------------

  const GeminiModel: string := "gemini/gemini-2.0-flash"
  const Unavailable: string := "LLM unavailable"

  /** What the completion service gives back: the choices' message contents,
      or the exception it raised. */
  datatype Completion = Choices(contents: seq<string>) | CompletionError(message: string)

  /** `GeminiLLM.__call__`: the first choice's content, or the sentinel text
      when the call raises or there is no first choice. It never raises. */
  function GeminiCall(prompt: string, completion: (string, string) -> Completion): (r: string)
    ensures completion(GeminiModel, prompt).Choices? && |completion(GeminiModel, prompt).contents| > 0 ==>
      r == completion(GeminiModel, prompt).contents[0]
    ensures completion(GeminiModel, prompt).Choices? && |completion(GeminiModel, prompt).contents| == 0 ==>
      r == Unavailable
    ensures completion(GeminiModel, prompt).CompletionError? ==> r == Unavailable
  {
    match completion(GeminiModel, prompt)
    case CompletionError(_) => Unavailable
    case Choices(contents) => if |contents| == 0 then Unavailable else contents[0]
  }

  /** A stage runner whose only fallible step is the wrapped model call. */
  function GeminiRunner(completion: (string, string) -> Completion): StageCall -> Outcome {
    (call: StageCall) => Completed(GeminiCall(call.description, completion))
  }

  /** When the model call is the only thing that can fail, the pipeline always
      delivers all four outputs: an unavailable model degrades a stage's text
      to the sentinel, it does not abort the run. */
  lemma ModelFailureIsNotFatal(symbol: string, completion: (string, string) -> Completion)
    ensures var run := Pipeline(symbol, GeminiRunner(completion));
      run.result.Success? &&
      forall k :: 0 <= k < |Stages| ==>
        run.result.value.individualAnalyses[k].1 == GeminiCall(run.trace[k].call.description, completion)
  {
    var runner := GeminiRunner(completion);
    PipelineShape(symbol, runner);
    var run := Pipeline(symbol, runner);
    assert runner(run.trace[|run.trace| - 1].call).Completed?;
    assert HoldsFirst(run.result.value.individualAnalyses, runner, run.trace, |Stages|);
  }
}
