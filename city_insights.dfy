/**
 * The prompt-chaining city pipeline: CityDetails extracts a city from the
 * prompt, CityHistory asks for its history, SummarizeResult condenses that
 * history. The three agents are oracles from a prompt to their output.
 */
module PromptChaining {
  import opened Wrappers

  datatype CityDetailsResponse = CityDetailsResponse(
    city: Option<string>,
    country: Option<string>,
    region: Option<string>,
    countryCapital: Option<string>,
    regionCapital: Option<string>)

  datatype CityDetailResponse = CityDetailResponse(
    cityDetails: Option<CityDetailsResponse>,
    summarizedHistory: Option<string>)

  /** The chain's nodes, and End for the end of a run. */
  datatype ChainNode = CityDetails | CityHistory | SummarizeResult | End

  type DetailsAgent = Option<string> -> CityDetailsResponse
  type TextAgent = string -> string

  /** How an f-string renders an optional string: `None` prints as "None". */
  function Show(s: Option<string>): string {
    match s
    case None => "None"
    case Some(v) => v
  }

  const HistoryPrefix := "Provide a brief history for the city '"
  const SummarizePrefix := "Streamline and summarize this text: '"

  /** The text quoted after a prefix and before the closing quote, if the prompt has that shape. */
  function Quoted(prefix: string, prompt: string): (r: Option<string>)
    ensures r.Some? ==> prompt == prefix + r.value + "'"
  {
    if |prefix| < |prompt| && prompt[..|prefix|] == prefix && prompt[|prompt| - 1] == '\'' then
      Some(prompt[|prefix|..|prompt| - 1])
    else
      None
  }

  /** The CityHistory prompt: it quotes the city as rendered, so the city can be read back from it. */
  function HistoryPrompt(city: Option<string>): (p: string)
    ensures Quoted(HistoryPrefix, p) == Some(Show(city))
  {
    var p := HistoryPrefix + Show(city) + "'";
    assert p[..|HistoryPrefix|] == HistoryPrefix;
    assert p[|HistoryPrefix|..|p| - 1] == Show(city);
    p
  }

  /** The SummarizeResult prompt: it quotes the brief history as rendered. */
  function SummarizePrompt(briefHistory: Option<string>): (p: string)
    ensures Quoted(SummarizePrefix, p) == Some(Show(briefHistory))
  {
    var p := SummarizePrefix + Show(briefHistory) + "'";
    assert p[..|SummarizePrefix|] == SummarizePrefix;
    assert p[|SummarizePrefix|..|p| - 1] == Show(briefHistory);
    p
  }

  class CityInsightsState {
    var prompt: Option<string>
    var cityDetails: Option<CityDetailsResponse>
    var briefHistory: Option<string>
    var summarized: Option<string>

    constructor()
      ensures prompt == None && cityDetails == None && briefHistory == None && summarized == None
    {
      prompt := None;
      cityDetails := None;
      briefHistory := None;
      summarized := None;
    }
  }

  /** What one run produces and the nodes it runs. */
  datatype ChainOutcome = ChainOutcome(response: CityDetailResponse, path: seq<ChainNode>)

  /** The chain on one prompt, from a fresh state. */
  function Chain(prompt: string, details: DetailsAgent, history: TextAgent, summarize: TextAgent): (o: ChainOutcome)
    ensures o.response.cityDetails == Some(details(Some(prompt)))
    ensures o.response.summarizedHistory.None? <==> details(Some(prompt)).city.None?
    ensures details(Some(prompt)).city.None? ==> o.path == [CityDetails]
    ensures details(Some(prompt)).city.Some? ==> o.path == [CityDetails, CityHistory, SummarizeResult]
    ensures details(Some(prompt)).city.Some? ==>
      o.response.summarizedHistory
        == Some(summarize(SummarizePrompt(Some(history(HistoryPrompt(details(Some(prompt)).city))))))
  {
    var found := details(Some(prompt));
    if found.city.None? then
      ChainOutcome(CityDetailResponse(Some(found), None), [CityDetails])
    else
      var brief := history(HistoryPrompt(found.city));
      ChainOutcome(CityDetailResponse(Some(found), Some(summarize(SummarizePrompt(Some(brief))))),
                   [CityDetails, CityHistory, SummarizeResult])
  }

  /** The first node: records the agent's city details; ends the run when no city was found. */
  method CityDetailsRun(state: CityInsightsState, agent: DetailsAgent) returns (next: ChainNode)
    modifies state
    ensures state.cityDetails == Some(agent(old(state.prompt)))
    ensures next == (if state.cityDetails.value.city.None? then End else CityHistory)
    ensures state.prompt == old(state.prompt) && state.briefHistory == old(state.briefHistory)
    ensures state.summarized == old(state.summarized)
  {
    state.cityDetails := Some(agent(state.prompt));
    if state.cityDetails.value.city.None? {
      return End;
    }
    next := CityHistory;
  }

  /** The second node: asks for the history of the city found. */
  method CityHistoryRun(state: CityInsightsState, agent: TextAgent) returns (next: ChainNode)
    requires state.cityDetails.Some?
    modifies state
    ensures next == SummarizeResult
    ensures state.briefHistory == Some(agent(HistoryPrompt(old(state.cityDetails).value.city)))
    ensures state.prompt == old(state.prompt) && state.cityDetails == old(state.cityDetails)
    ensures state.summarized == old(state.summarized)
  {
    state.briefHistory := Some(agent(HistoryPrompt(state.cityDetails.value.city)));
    next := SummarizeResult;
  }

  /** The third node: summarizes the brief history and ends the run. */
  method SummarizeResultRun(state: CityInsightsState, agent: TextAgent) returns (next: ChainNode)
    modifies state
    ensures next == End
    ensures state.summarized == Some(agent(SummarizePrompt(old(state.briefHistory))))
    ensures state.prompt == old(state.prompt) && state.cityDetails == old(state.cityDetails)
    ensures state.briefHistory == old(state.briefHistory)
  {
    state.summarized := Some(agent(SummarizePrompt(state.briefHistory)));
    next := End;
  }

  /**
   * Runs the chain from CityDetails on a fresh state holding only the prompt,
   * and returns the city details and the summary.
   */
  method GetDetailsAsync(prompt: string, details: DetailsAgent, history: TextAgent, summarize: TextAgent)
    returns (r: CityDetailResponse, ghost path: seq<ChainNode>)
    ensures r == Chain(prompt, details, history, summarize).response
    ensures path == Chain(prompt, details, history, summarize).path
  {
    var state := new CityInsightsState();
    state.prompt := Some(prompt);
    ghost var o := Chain(prompt, details, history, summarize);
    ghost var found := details(Some(prompt));
    var node := CityDetails;
    path := [];
    while node != End
      invariant fresh(state)
      invariant state.prompt == Some(prompt)
      invariant |path| <= |o.path| && path == o.path[..|path|]
      invariant node == End <==> |path| == |o.path|
      invariant node != End ==> node == o.path[|path|]
      invariant |path| == 0 ==> state.cityDetails == None && state.summarized == None
      invariant |path| >= 1 ==> state.cityDetails == Some(found)
      invariant |path| == 2 ==> state.briefHistory == Some(history(HistoryPrompt(found.city)))
      invariant |path| < 3 ==> state.summarized == None
      invariant |path| == 3 ==> state.summarized == o.response.summarizedHistory
      decreases |o.path| - |path|
    {
      path := path + [node];
      match node
      case CityDetails =>
        node := CityDetailsRun(state, details);
      case CityHistory =>
        node := CityHistoryRun(state, history);
      case SummarizeResult =>
        node := SummarizeResultRun(state, summarize);
    }
    r := CityDetailResponse(state.cityDetails, state.summarized);
  }
}
