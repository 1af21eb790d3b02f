/**
 * The five agents the orchestrator can hold. The Python code shares one
 * abstract base class among them; here the closed set of agent kinds is a
 * datatype, and dispatch on it selects the agent's own `process_query`.
 */
module Agents {
  import opened Wrappers
  import opened AgentApi
  import BA = BlockchainAnalyst
  import FN = FintechNavigator
  import ML = MLInvestmentStrategist
  import CE = CryptoEconomics
  import RC = RegulatoryCompliance

  datatype Agent = BlockchainAnalystAgent | FintechNavigatorAgent | MLInvestmentStrategistAgent
                 | CryptoEconomicsAgent | RegulatoryComplianceAgent
  {
    /** The `name` each agent passes to the base class. */
    function Name(): string
    {
      match this
      case BlockchainAnalystAgent => BA.AgentName
      case FintechNavigatorAgent => FN.AgentName
      case MLInvestmentStrategistAgent => ML.AgentName
      case CryptoEconomicsAgent => CE.AgentName
      case RegulatoryComplianceAgent => RC.AgentName
    }

    /** The module that defines the agent's class (`__class__.__module__`). */
    function ModulePath(): string
    {
      match this
      case BlockchainAnalystAgent => BA.ModulePath
      case FintechNavigatorAgent => FN.ModulePath
      case MLInvestmentStrategistAgent => ML.ModulePath
      case CryptoEconomicsAgent => CE.ModulePath
      case RegulatoryComplianceAgent => RC.ModulePath
    }

    /** The inherited `health_check`: always healthy, reporting the agent's name and module. */
    function HealthCheck(): (h: Health)
      ensures h.status == "healthy" && h.name == Name() && h.version == ModulePath()
    {
      Health("healthy", Name(), ModulePath())
    }

    /**
     * The reply the agent's `process_query` returns for a query, with every
     * table in the state the agent's constructor leaves it. No agent raises in
     * that state, and every reply carries a confidence between 0.3 and 0.9.
     */
    function Respond(query: string): (r: Reply)
      ensures r.confidence.Some? && 0.3 <= r.confidence.value <= 0.9
      ensures r.confidence.value == Confidence(|r.insights|, |r.recommendations|)
    {
      match this
      case BlockchainAnalystAgent => ReplyOf(BA.Insights(query), BA.Recommendations(query))
      case FintechNavigatorAgent =>
        var a := FN.Analysis(FN.Initialized, query);
        ReplyOf(a.insights, a.recommendations)
      case MLInvestmentStrategistAgent => ReplyOf(ML.Insights(query), ML.Recommendations(query))
      case CryptoEconomicsAgent => ReplyOf(CE.Insights(query), CE.Recommendations(query))
      case RegulatoryComplianceAgent =>
        var a := RC.Analysis(RC.Initialized, query);
        ReplyOf(a.insights, a.recommendations)
    }
  }

  /** A reply with the shared confidence formula applied to its line counts. */
  function ReplyOf(insights: seq<string>, recommendations: seq<string>): Reply
  {
    Reply(insights, recommendations, Some(Confidence(|insights|, |recommendations|)))
  }

  /** Different agents register under different names. */
  lemma NamesDistinct(a: Agent, b: Agent)
    requires a.Name() == b.Name()
    ensures a == b
  {
  }

  /** `agent.process_query(query)`: builds the agent's response object and reads off its reply. */
  method Consult(agent: Agent, query: string) returns (r: Reply)
    ensures r == agent.Respond(query)
  {
    match agent
    case BlockchainAnalystAgent =>
      var response := BA.ProcessQuery(query);
      r := response.ToReply();
    case FintechNavigatorAgent =>
      var response := FN.ProcessQuery(FN.Initialized, query);
      r := response.ToReply();
    case MLInvestmentStrategistAgent =>
      var response := ML.ProcessQuery(query);
      r := response.ToReply();
    case CryptoEconomicsAgent =>
      var result := CE.ProcessQuery(CE.InitialProtocols, query);
      r := result.value.ToReply();
    case RegulatoryComplianceAgent =>
      var response := RC.ProcessQuery(RC.Initialized, query);
      r := response.ToReply();
  }
}
