/**
 * The crypto-economics agent, modelled as far as the orchestrator sees it:
 * its `process_query`. The DeFi helper loops over the keys of the agent's
 * protocol table and, inside the loop, reads a local name it never defines;
 * so it raises as soon as the table holds a protocol, and appends its general
 * lines when the table is empty. The constructor leaves the table empty.
 */
module CryptoEconomics {
  import opened Wrappers
  import opened Text
  import opened AgentApi

  const AgentName := "crypto_economics"
  const ModulePath := "agents.crypto_economics.crypto_economics"

  const TokenomicsTerms: seq<string> := ["tokenomics", "token model", "token valuation", "token economics"]
  const DefiTerms: seq<string> := ["defi", "yield", "farming", "liquidity", "amm", "lending"]
  const SustainabilityTerms: seq<string> := ["sustainability", "sustainable", "long-term", "economics", "viability"]

  /** The exception the DeFi helper raises on the first protocol of its table. */
  const DefiBranchError := "NameError: name 'query_lower' is not defined"

  /**
   * The keys of `defi_protocols` as the constructor leaves them: the base
   * constructor fills the table, and the agent's own constructor then rebinds
   * it to an empty dictionary.
   */
  const InitialProtocols: seq<string> := []

  const TokenomicsInsights: seq<string> := [
    "The token follows a deflationary model with a 0.5% burn on each transaction",
    "Current token velocity suggests high trading activity but limited utility adoption",
    "Supply distribution shows 15% concentration in top 10 wallets, which is moderate centralization"]
  const TokenomicsRecommendations: seq<string> := [
    "Consider implementing token utility beyond governance to drive sustainable value",
    "The emission schedule should be adjusted to reduce early selling pressure"]

  const DefiInsights: seq<string> := [
    "Current DeFi TVL across major protocols shows a 5% increase over the past week",
    "Liquidity mining incentives have declined by 30% in the last quarter",
    "Average yield on stablecoin pairs has decreased to 2-4% APY"]
  const DefiRecommendations: seq<string> := [
    "Focus on protocols with sustainable fee models rather than high emission incentives",
    "Consider diversifying across lending and AMM protocols to balance risk"]

  const SustainabilityInsights: seq<string> := [
    "Sustainable token economies require revenue mechanisms that don't rely solely on new entrants",
    "Projects with fee-sharing models show 30% higher longevity than pure inflationary models",
    "Current ratio of protocol revenue to token market cap averages 0.05 across top projects"]
  const SustainabilityRecommendations: seq<string> := [
    "Evaluate projects based on PE-like ratios (market cap to revenue) for fundamental valuation",
    "Prioritize protocols with proven revenue models that don't rely primarily on token emissions"]

  predicate AsksTokenomics(query: string) { AnyIn(TokenomicsTerms, Lower(query)) }
  predicate AsksDefi(query: string) { AnyIn(DefiTerms, Lower(query)) }
  predicate AsksSustainability(query: string) { AnyIn(SustainabilityTerms, Lower(query)) }

  /** The DeFi helper raises when it reaches a protocol of its table. */
  predicate Raises(protocols: seq<string>, query: string) { AsksDefi(query) && protocols != [] }

  /** The insights of a reply that does not raise, branch by branch. */
  function Insights(query: string): seq<string>
  {
    (if AsksTokenomics(query) then TokenomicsInsights else [])
    + (if AsksDefi(query) then DefiInsights else [])
    + (if AsksSustainability(query) then SustainabilityInsights else [])
  }

  function Recommendations(query: string): seq<string>
  {
    (if AsksTokenomics(query) then TokenomicsRecommendations else [])
    + (if AsksDefi(query) then DefiRecommendations else [])
    + (if AsksSustainability(query) then SustainabilityRecommendations else [])
  }

  /** The kinds of the entries in the reply's "models" list. */
  function Models(query: string): seq<string>
  {
    (if AsksTokenomics(query) then ["token_valuation"] else [])
    + (if AsksSustainability(query) then ["sustainability_metric"] else [])
  }

  /** The reply dictionary that `process_query` fills in place. */
  class Response {
    var insights: seq<string>
    var recommendations: seq<string>
    var models: seq<string>
    var confidence: real

    constructor ()
      ensures insights == [] && recommendations == [] && models == [] && confidence == 0.0
    {
      insights, recommendations, models, confidence := [], [], [], 0.0;
    }

    method AnalyzeTokenomics()
      modifies this
      ensures insights == old(insights) + TokenomicsInsights
      ensures recommendations == old(recommendations) + TokenomicsRecommendations
      ensures models == old(models) + ["token_valuation"] && confidence == old(confidence)
    {
      insights := insights + TokenomicsInsights;
      recommendations := recommendations + TokenomicsRecommendations;
      models := models + ["token_valuation"];
    }

    /**
     * `_analyze_defi_protocols`: the loop over the table's keys raises on its
     * first key, so only an empty table gets to the general lines, which add
     * no model entry.
     */
    method AnalyzeDefiProtocols(protocols: seq<string>) returns (error: Option<string>)
      modifies this
      ensures error.Some? <==> protocols != []
      ensures error.Some? ==> error.value == DefiBranchError
      ensures error.None? ==> insights == old(insights) + DefiInsights
      ensures error.None? ==> recommendations == old(recommendations) + DefiRecommendations
      ensures models == old(models) && confidence == old(confidence)
    {
      if protocols != [] {
        return Some(DefiBranchError);
      }
      insights := insights + DefiInsights;
      recommendations := recommendations + DefiRecommendations;
      error := None;
    }

    method AnalyzeEconomicSustainability()
      modifies this
      ensures insights == old(insights) + SustainabilityInsights
      ensures recommendations == old(recommendations) + SustainabilityRecommendations
      ensures models == old(models) + ["sustainability_metric"] && confidence == old(confidence)
    {
      insights := insights + SustainabilityInsights;
      recommendations := recommendations + SustainabilityRecommendations;
      models := models + ["sustainability_metric"];
    }

    function ToReply(): Reply
      reads this
    {
      Reply(insights, recommendations, Some(confidence))
    }
  }

  /**
   * `process_query` for the given protocol table: the branches in the source's
   * order, then the shared confidence. The DeFi helper's exception escapes, so
   * the query fails exactly when it reaches that helper with a non-empty table.
   */
  method ProcessQuery(protocols: seq<string>, query: string) returns (result: Result<Response, string>)
    ensures result.Failure? <==> Raises(protocols, query)
    ensures result.Failure? ==> result.error == DefiBranchError
    ensures result.Success? ==> fresh(result.value)
    ensures result.Success? ==> result.value.insights == Insights(query)
    ensures result.Success? ==> result.value.recommendations == Recommendations(query)
    ensures result.Success? ==> result.value.models == Models(query)
    ensures result.Success? ==> result.value.confidence == Confidence(|Insights(query)|, |Recommendations(query)|)
  {
    var queryLower := Lower(query);
    var response := new Response();
    if AnyIn(TokenomicsTerms, queryLower) {
      response.AnalyzeTokenomics();
    }
    if AnyIn(DefiTerms, queryLower) {
      var error := response.AnalyzeDefiProtocols(protocols);
      if error.Some? {
        return Failure(error.value);
      }
    }
    if AnyIn(SustainabilityTerms, queryLower) {
      response.AnalyzeEconomicSustainability();
    }
    response.confidence := Confidence(|response.insights|, |response.recommendations|);
    result := Success(response);
  }

  /** The table the constructor leaves is empty, so no query raises. */
  lemma InitialTableNeverRaises(query: string)
    ensures !Raises(InitialProtocols, query)
  {
  }

  /**
   * `process_query` on the agent as constructed: it always succeeds, and a
   * DeFi query gets the general DeFi lines after any tokenomics lines.
   */
  method ProcessConstructed(query: string) returns (response: Response)
    ensures fresh(response)
    ensures response.insights == Insights(query) && response.recommendations == Recommendations(query)
    ensures response.models == Models(query)
    ensures response.confidence == Confidence(|Insights(query)|, |Recommendations(query)|)
    ensures AsksDefi(query) ==>
      var lead := if AsksTokenomics(query) then |TokenomicsInsights| else 0;
      response.insights[lead..lead + |DefiInsights|] == DefiInsights
  {
    var result := ProcessQuery(InitialProtocols, query);
    InitialTableNeverRaises(query);
    response := result.value;
  }

  /** The number of branches a query fires. */
  function Branches(query: string): nat
  {
    (if AsksTokenomics(query) then 1 else 0) + (if AsksDefi(query) then 1 else 0)
    + (if AsksSustainability(query) then 1 else 0)
  }

  /**
   * Every branch that fires adds three insights and two recommendations;
   * only the tokenomics and sustainability branches add a model entry.
   */
  lemma BranchCounts(query: string)
    ensures |Insights(query)| == 3 * Branches(query)
    ensures |Recommendations(query)| == 2 * Branches(query)
    ensures |Models(query)| == Branches(query) - (if AsksDefi(query) then 1 else 0)
  {
  }

  /** A DeFi query that names no other topic gets exactly the general DeFi lines and no model. */
  lemma DefiOnlyReply(query: string)
    requires AsksDefi(query) && !AsksTokenomics(query) && !AsksSustainability(query)
    ensures Insights(query) == DefiInsights && Recommendations(query) == DefiRecommendations
    ensures Models(query) == []
    ensures Confidence(|Insights(query)|, |Recommendations(query)|) == 0.9
  {
    assert [] + DefiInsights + [] == DefiInsights;
    assert [] + DefiRecommendations + [] == DefiRecommendations;
  }
}
