/**
 * The ML investment strategist agent: keyword-triggered market predictions,
 * risk-profile recommendations and a fixed portfolio allocation per risk
 * profile, plus asset analysis over an externally drawn random sample.
 */
module MLInvestmentStrategist {
  import opened Wrappers
  import opened Text
  import opened AgentApi

  const AgentName := "ml_investment_strategist"
  const ModulePath := "agents.ml_investment_strategist.ml_investment_strategist"

  datatype RiskProfile = Conservative | Moderate | Aggressive {
    function Label(): string
    {
      match this
      case Conservative => "conservative"
      case Moderate => "moderate"
      case Aggressive => "aggressive"
    }
  }

  const AssetClasses: seq<string> := ["stocks", "bonds", "crypto", "commodities", "real_estate", "cash"]

  const PredictTerms: seq<string> := ["predict", "forecast", "trend", "future"]
  const RecommendTerms: seq<string> := ["recommend", "suggest", "advice"]
  const PortfolioTerms: seq<string> := ["portfolio", "optimize", "allocation", "balance"]
  const ConservativeTerms: seq<string> := ["conservative", "safe", "low risk", "cautious"]
  const AggressiveTerms: seq<string> := ["aggressive", "high risk", "growth", "risky"]

  /** `_determine_risk_profile`: conservative keywords take precedence over aggressive ones. */
  function DetermineRiskProfile(query: string): RiskProfile
  {
    var queryLower := Lower(query);
    if AnyIn(ConservativeTerms, queryLower) then Conservative
    else if AnyIn(AggressiveTerms, queryLower) then Aggressive
    else Moderate
  }

  lemma RiskProfilePrecedence(query: string)
    ensures DetermineRiskProfile(query) == Conservative <==> AnyIn(ConservativeTerms, Lower(query))
    ensures DetermineRiskProfile(query) == Aggressive
        <==> !AnyIn(ConservativeTerms, Lower(query)) && AnyIn(AggressiveTerms, Lower(query))
    ensures DetermineRiskProfile(query) == Moderate
        <==> !AnyIn(ConservativeTerms, Lower(query)) && !AnyIn(AggressiveTerms, Lower(query))
  {
  }

  /** The word "growth" alone (with no conservative keyword) makes the profile aggressive. */
  lemma GrowthIsAggressive(query: string)
    requires Contains(Lower(query), "growth")
    requires !AnyIn(ConservativeTerms, Lower(query))
    ensures DetermineRiskProfile(query) == Aggressive
  {
    assert "growth" in AggressiveTerms;
  }

  /** A portfolio allocation: asset class and percentage, in the source's key order. */
  type Allocation = seq<(string, int)>

  function TargetAllocation(profile: RiskProfile): Allocation
  {
    match profile
    case Conservative =>
      [("stocks", 30), ("bonds", 40), ("crypto", 5), ("commodities", 10), ("real_estate", 10), ("cash", 5)]
    case Aggressive =>
      [("stocks", 60), ("bonds", 15), ("crypto", 15), ("commodities", 5), ("real_estate", 5), ("cash", 0)]
    case Moderate =>
      [("stocks", 45), ("bonds", 25), ("crypto", 10), ("commodities", 10), ("real_estate", 7), ("cash", 3)]
  }

  function Classes(a: Allocation): (classes: seq<string>)
    ensures |classes| == |a| && forall i :: 0 <= i < |a| ==> classes[i] == a[i].0
  {
    seq(|a|, i requires 0 <= i < |a| => a[i].0)
  }

  /** The sum of the percentages. */
  function Total(a: Allocation): int
  {
    if a == [] then 0 else a[0].1 + Total(a[1..])
  }

  lemma {:induction false} TotalOfSix(a: Allocation)
    requires |a| == 6
    ensures Total(a) == a[0].1 + a[1].1 + a[2].1 + a[3].1 + a[4].1 + a[5].1
  {
    assert a[5..][1..] == [];
    assert Total(a[5..]) == a[5].1;
    assert a[4..][1..] == a[5..];
    assert Total(a[4..]) == a[4].1 + a[5].1;
    assert a[3..][1..] == a[4..];
    assert Total(a[3..]) == a[3].1 + a[4].1 + a[5].1;
    assert a[2..][1..] == a[3..];
    assert Total(a[2..]) == a[2].1 + a[3].1 + a[4].1 + a[5].1;
    assert a[1..][1..] == a[2..];
  }

  /** Every allocation covers exactly the six asset classes, with non-negative shares summing to 100. */
  lemma AllocationWellFormed(profile: RiskProfile)
    ensures Classes(TargetAllocation(profile)) == AssetClasses
    ensures forall i :: 0 <= i < |TargetAllocation(profile)| ==> TargetAllocation(profile)[i].1 >= 0
    ensures Total(TargetAllocation(profile)) == 100
  {
    TotalOfSix(TargetAllocation(profile));
  }

  const PredictionInsights: seq<string> := [
    "ML models predict a 65% probability of continued market growth in the technology sector over the next quarter",
    "Sentiment analysis of financial news indicates positive outlook for renewable energy investments",
    "Pattern recognition models identify potential correction in cryptocurrency markets within the next month"]

  const ConservativeInsights: seq<string> := [
    "Market volatility is expected to increase, suggesting more conservative positioning"]
  const AggressiveInsights: seq<string> := [
    "Technical indicators suggest strong momentum in technology and AI-related sectors"]
  const ModerateInsights: seq<string> := [
    "Balanced approach recommended with moderate exposure to growth and value investments"]

  const ConservativeRecommendations: seq<string> := [
    "Consider increasing allocation to high-quality bonds and dividend-paying stocks",
    "Reduce exposure to emerging markets until volatility subsides"]
  const AggressiveRecommendations: seq<string> := [
    "Consider overweighting technology stocks with exposure to AI and cloud computing",
    "Selected crypto assets show favorable risk-reward profiles for aggressive investors"]
  const ModerateRecommendations: seq<string> := [
    "Consider a barbell strategy with both defensive and growth-oriented positions",
    "Maintain diversification across asset classes with tactical adjustments based on economic indicators"]

  function ProfileInsights(profile: RiskProfile): (insights: seq<string>)
    ensures |insights| == 1
  {
    match profile
    case Conservative => ConservativeInsights
    case Aggressive => AggressiveInsights
    case Moderate => ModerateInsights
  }

  function ProfileRecommendations(profile: RiskProfile): (recommendations: seq<string>)
    ensures |recommendations| == 2
  {
    match profile
    case Conservative => ConservativeRecommendations
    case Aggressive => AggressiveRecommendations
    case Moderate => ModerateRecommendations
  }

  const SharpeInsight := "The allocation achieves a projected Sharpe ratio of 1.2 based on historical and predicted asset performance"

  function PortfolioInsights(profile: RiskProfile): (insights: seq<string>)
    ensures |insights| == 2 && insights[1] == SharpeInsight
    ensures Contains(insights[0], profile.Label())
  {
    var lead := "Optimized portfolio allocation for ";
    var first := lead + profile.Label() + " risk profile using modern portfolio theory";
    assert first[|lead|..][..|profile.Label()|] == profile.Label();
    ContainsWitness(first, profile.Label(), |lead|);
    [first, SharpeInsight]
  }

  const PortfolioRecommendations: seq<string> := [
    "Consider rebalancing quarterly to maintain target allocation and risk profile"]

  predicate AsksPrediction(query: string) { AnyIn(PredictTerms, Lower(query)) }
  predicate AsksRecommendation(query: string) { AnyIn(RecommendTerms, Lower(query)) }
  predicate AsksPortfolio(query: string) { AnyIn(PortfolioTerms, Lower(query)) }

  function Insights(query: string): seq<string>
  {
    (if AsksPrediction(query) then PredictionInsights else [])
    + (if AsksRecommendation(query) then ProfileInsights(DetermineRiskProfile(query)) else [])
    + (if AsksPortfolio(query) then PortfolioInsights(DetermineRiskProfile(query)) else [])
  }

  function Recommendations(query: string): seq<string>
  {
    (if AsksRecommendation(query) then ProfileRecommendations(DetermineRiskProfile(query)) else [])
    + (if AsksPortfolio(query) then PortfolioRecommendations else [])
  }

  function PortfolioAllocation(query: string): Option<Allocation>
  {
    if AsksPortfolio(query) then Some(TargetAllocation(DetermineRiskProfile(query))) else None
  }

  /** The reply dictionary that `process_query` fills in place. */
  class Response {
    var insights: seq<string>
    var recommendations: seq<string>
    var portfolioAllocation: Option<Allocation>
    var confidence: real

    constructor ()
      ensures insights == [] && recommendations == [] && portfolioAllocation == None && confidence == 0.0
    {
      insights, recommendations, portfolioAllocation, confidence := [], [], None, 0.0;
    }

    /** `_predict_market_trends`: three insights, no recommendation. */
    method PredictMarketTrends()
      modifies this
      ensures insights == old(insights) + PredictionInsights
      ensures recommendations == old(recommendations)
      ensures portfolioAllocation == old(portfolioAllocation) && confidence == old(confidence)
    {
      insights := insights + PredictionInsights;
    }

    /** `_provide_investment_recommendations`: one insight and two recommendations per profile. */
    method ProvideInvestmentRecommendations(profile: RiskProfile)
      modifies this
      ensures insights == old(insights) + ProfileInsights(profile)
      ensures recommendations == old(recommendations) + ProfileRecommendations(profile)
      ensures portfolioAllocation == old(portfolioAllocation) && confidence == old(confidence)
    {
      insights := insights + ProfileInsights(profile);
      recommendations := recommendations + ProfileRecommendations(profile);
    }

    /** `_optimize_portfolio`: set the allocation, add two insights and one recommendation. */
    method OptimizePortfolio(profile: RiskProfile)
      modifies this
      ensures portfolioAllocation == Some(TargetAllocation(profile))
      ensures insights == old(insights) + PortfolioInsights(profile)
      ensures recommendations == old(recommendations) + PortfolioRecommendations
      ensures confidence == old(confidence)
    {
      portfolioAllocation := Some(TargetAllocation(profile));
      insights := insights + PortfolioInsights(profile);
      recommendations := recommendations + PortfolioRecommendations;
    }

    function ToReply(): Reply
      reads this
    {
      Reply(insights, recommendations, Some(confidence))
    }
  }

  method ProcessQuery(query: string) returns (response: Response)
    ensures fresh(response)
    ensures response.insights == Insights(query)
    ensures response.recommendations == Recommendations(query)
    ensures response.portfolioAllocation == PortfolioAllocation(query)
    ensures response.confidence == Confidence(|Insights(query)|, |Recommendations(query)|)
  {
    var queryLower := Lower(query);
    response := new Response();
    ghost var i1 := if AsksPrediction(query) then PredictionInsights else [];
    ghost var i2 := if AsksRecommendation(query) then ProfileInsights(DetermineRiskProfile(query)) else [];
    ghost var r2 := if AsksRecommendation(query) then ProfileRecommendations(DetermineRiskProfile(query)) else [];
    if AnyIn(PredictTerms, queryLower) {
      response.PredictMarketTrends();
    }
    assert response.insights == i1 && response.recommendations == [];
    if AnyIn(RecommendTerms, queryLower) {
      var profile := DetermineRiskProfile(query);
      response.ProvideInvestmentRecommendations(profile);
    }
    assert response.insights == i1 + i2 && response.recommendations == r2;
    assert response.portfolioAllocation == None;
    if AnyIn(PortfolioTerms, queryLower) {
      var profile := DetermineRiskProfile(query);
      response.OptimizePortfolio(profile);
    }
    assert response.insights == Insights(query) && response.recommendations == Recommendations(query);
    response.confidence := Confidence(|response.insights|, |response.recommendations|);
  }

  /** Per branch: predictions 3/0, recommendations 1/2, portfolio 2/1 (insights/recommendations). */
  lemma BranchCounts(query: string)
    ensures |Insights(query)| == (if AsksPrediction(query) then 3 else 0)
        + (if AsksRecommendation(query) then 1 else 0) + (if AsksPortfolio(query) then 2 else 0)
    ensures |Recommendations(query)| == (if AsksRecommendation(query) then 2 else 0)
        + (if AsksPortfolio(query) then 1 else 0)
  {
  }

  /** The allocation is present exactly when a portfolio keyword occurs, and then it sums to 100. */
  lemma AllocationOnlyForPortfolioQueries(query: string)
    ensures PortfolioAllocation(query).Some? <==> AsksPortfolio(query)
    ensures PortfolioAllocation(query).Some? ==> Total(PortfolioAllocation(query).value) == 100
  {
    AllocationWellFormed(DetermineRiskProfile(query));
  }

  const Horizons: map<string, string> := map["short" := "1-3 months", "medium" := "6-12 months", "long" := "2-5 years"]

  /** `horizons[time_horizon]` after an unknown horizon has been replaced by "medium". */
  function HorizonLabel(timeHorizon: string): (horizon: string)
    ensures timeHorizon in Horizons ==> horizon == Horizons[timeHorizon]
    ensures timeHorizon !in Horizons ==> horizon == "6-12 months"
  {
    Horizons[if timeHorizon in Horizons then timeHorizon else "medium"]
  }

  /** The result of `analyze_asset`. */
  datatype AssetAnalysis = AssetAnalysis(
    asset: string, timeHorizon: string, sentimentScore: real, pricePrediction: real,
    technicalSignals: seq<string>, confidence: real, recommendation: string)

  /**
   * `analyze_asset`: the three random draws of the source (sentiment,
   * price prediction, confidence) are parameters here.
   */
  function AnalyzeAsset(assetIdentifier: string, timeHorizon: string,
                        sentimentScore: real, pricePrediction: real, confidence: real): (a: AssetAnalysis)
    ensures a.asset == assetIdentifier && a.timeHorizon == HorizonLabel(timeHorizon)
    ensures a.technicalSignals == [if pricePrediction > 0.0 then "bullish" else "bearish"]
    ensures a.recommendation == "buy" <==> pricePrediction > 0.1
    ensures a.recommendation == "sell" <==> pricePrediction <= -0.1
    ensures a.recommendation in ["buy", "hold", "sell"]
  {
    AssetAnalysis(assetIdentifier, HorizonLabel(timeHorizon), sentimentScore, pricePrediction,
                  [if pricePrediction > 0.0 then "bullish" else "bearish"], confidence,
                  if pricePrediction > 0.1 then "buy" else if pricePrediction > -0.1 then "hold" else "sell")
  }
}
