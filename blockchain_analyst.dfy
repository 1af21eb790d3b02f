/**
 * The blockchain analyst agent: three independent keyword groups each append
 * canned insights, recommendations and alerts to the reply; address
 * monitoring and contract analysis accept only the supported networks.
 */
module BlockchainAnalyst {
  import opened Wrappers
  import opened Text
  import opened AgentApi

  const AgentName := "blockchain_analyst"
  const ModulePath := "agents.blockchain_analyst.blockchain_analyst"

  const SupportedNetworks: seq<string> := ["ethereum", "solana", "avalanche", "polygon"]

  const TransactionTerms: seq<string> := ["transaction", "transfer", "wallet", "address"]
  const ContractTerms: seq<string> := ["smart contract", "contract", "code", "audit"]
  const AnomalyTerms: seq<string> := ["anomaly", "suspicious", "unusual", "fraud"]

  const TransactionInsights: seq<string> := [
    "Recent transaction volume on Ethereum has increased by 15% in the last 24 hours",
    "Average gas prices are currently at 25 gwei, which is lower than the weekly average"]
  const TransactionRecommendations: seq<string> := [
    "Consider batching transactions to reduce gas costs during this period of lower fees"]

  const ContractInsights: seq<string> := [
    "The smart contract has passed basic security checks but has not undergone a formal audit",
    "The contract follows standard ERC-20 implementation patterns with minor modifications"]
  const ContractAlerts: seq<string> := [
    "Missing input validation in the transfer function could pose a security risk"]
  const ContractRecommendations: seq<string> := [
    "Recommend a formal security audit before significant funds are committed"]

  const AnomalyInsights: seq<string> := [
    "No major anomalies detected in recent transaction patterns",
    "Wallet clustering analysis shows normal distribution of token holdings"]
  const AnomalyRecommendations: seq<string> := [
    "Set up automated monitoring for transactions exceeding 100 ETH to detect potential market manipulation"]

  predicate AsksTransactions(query: string) { AnyIn(TransactionTerms, Lower(query)) }
  predicate AsksContracts(query: string) { AnyIn(ContractTerms, Lower(query)) }
  predicate AsksAnomalies(query: string) { AnyIn(AnomalyTerms, Lower(query)) }

  /** The insights `process_query` collects for a query, branch by branch. */
  function Insights(query: string): seq<string>
  {
    (if AsksTransactions(query) then TransactionInsights else [])
    + (if AsksContracts(query) then ContractInsights else [])
    + (if AsksAnomalies(query) then AnomalyInsights else [])
  }

  function Recommendations(query: string): seq<string>
  {
    (if AsksTransactions(query) then TransactionRecommendations else [])
    + (if AsksContracts(query) then ContractRecommendations else [])
    + (if AsksAnomalies(query) then AnomalyRecommendations else [])
  }

  function Alerts(query: string): seq<string>
  {
    if AsksContracts(query) then ContractAlerts else []
  }

  function Branches(query: string): nat
  {
    (if AsksTransactions(query) then 1 else 0)
    + (if AsksContracts(query) then 1 else 0)
    + (if AsksAnomalies(query) then 1 else 0)
  }

  /** The reply dictionary that `process_query` fills in place. */
  class Response {
    var insights: seq<string>
    var recommendations: seq<string>
    var alerts: seq<string>
    var confidence: real

    constructor ()
      ensures insights == [] && recommendations == [] && alerts == [] && confidence == 0.0
    {
      insights, recommendations, alerts, confidence := [], [], [], 0.0;
    }

    method AnalyzeTransactions()
      modifies this
      ensures insights == old(insights) + TransactionInsights
      ensures recommendations == old(recommendations) + TransactionRecommendations
      ensures alerts == old(alerts) && confidence == old(confidence)
    {
      insights := insights + [TransactionInsights[0]];
      insights := insights + [TransactionInsights[1]];
      recommendations := recommendations + [TransactionRecommendations[0]];
    }

    method AnalyzeSmartContracts()
      modifies this
      ensures insights == old(insights) + ContractInsights
      ensures alerts == old(alerts) + ContractAlerts
      ensures recommendations == old(recommendations) + ContractRecommendations
      ensures confidence == old(confidence)
    {
      insights := insights + [ContractInsights[0]];
      insights := insights + [ContractInsights[1]];
      alerts := alerts + [ContractAlerts[0]];
      recommendations := recommendations + [ContractRecommendations[0]];
    }

    method DetectAnomalies()
      modifies this
      ensures insights == old(insights) + AnomalyInsights
      ensures recommendations == old(recommendations) + AnomalyRecommendations
      ensures alerts == old(alerts) && confidence == old(confidence)
    {
      insights := insights + [AnomalyInsights[0]];
      insights := insights + [AnomalyInsights[1]];
      recommendations := recommendations + [AnomalyRecommendations[0]];
    }

    function ToReply(): Reply
      reads this
    {
      Reply(insights, recommendations, Some(confidence))
    }
  }

  /** `process_query`: run each matching branch in order, then set the confidence. */
  method ProcessQuery(query: string) returns (response: Response)
    ensures fresh(response)
    ensures response.insights == Insights(query)
    ensures response.recommendations == Recommendations(query)
    ensures response.alerts == Alerts(query)
    ensures response.confidence == Confidence(|Insights(query)|, |Recommendations(query)|)
  {
    var queryLower := Lower(query);
    response := new Response();
    if AnyIn(TransactionTerms, queryLower) {
      response.AnalyzeTransactions();
    }
    if AnyIn(ContractTerms, queryLower) {
      response.AnalyzeSmartContracts();
    }
    if AnyIn(AnomalyTerms, queryLower) {
      response.DetectAnomalies();
    }
    response.confidence := Confidence(|response.insights|, |response.recommendations|);
  }

  /** Each branch that fires adds two insights and one recommendation; only the contract branch alerts. */
  lemma BranchCounts(query: string)
    ensures |Insights(query)| == 2 * Branches(query)
    ensures |Recommendations(query)| == Branches(query)
    ensures |Alerts(query)| == (if AsksContracts(query) then 1 else 0)
  {
  }

  /** The confidence is 0.3 + 0.4 per branch, capped at 0.9 (reached once two branches fire). */
  lemma ConfidenceByBranches(query: string)
    ensures Confidence(|Insights(query)|, |Recommendations(query)|)
         == (if Branches(query) == 0 then 0.3 else if Branches(query) == 1 then 0.8 else 0.9)
  {
    BranchCounts(query);
  }

  /** The word "contract" on its own is enough to trigger the smart-contract branch. */
  lemma ContractAloneTriggers(query: string)
    requires Contains(Lower(query), "contract")
    ensures Alerts(query) == ContractAlerts
    ensures forall s :: s in ContractInsights ==> s in Insights(query)
  {
    assert "contract" in ContractTerms;
  }

  /** A query matching no keyword gets an empty reply with the base confidence 0.3. */
  lemma UnmatchedQuery(query: string)
    requires !AsksTransactions(query) && !AsksContracts(query) && !AsksAnomalies(query)
    ensures Insights(query) == [] && Recommendations(query) == [] && Alerts(query) == []
    ensures Confidence(|Insights(query)|, |Recommendations(query)|) == 0.3
  {
  }

  /** The result of `monitor_address`: an error dictionary or the monitoring record. */
  datatype Monitoring =
    | MonitorError(error: string)
    | Monitoring(status: string, address: string, network: string, alertsConfigured: seq<string>)

  /** `monitor_address(address, network)`; the source's default network is "ethereum". */
  function MonitorAddress(address: string, network: string): (m: Monitoring)
    ensures m.MonitorError? <==> network !in SupportedNetworks
    ensures m.MonitorError? ==> m.error == "Unsupported network: " + network
    ensures m.Monitoring? ==> m.status == "monitoring" && m.address == address && m.network == network
    ensures m.Monitoring? ==> |m.alertsConfigured| == 2
  {
    if network !in SupportedNetworks then MonitorError("Unsupported network: " + network)
    else Monitoring("monitoring", address, network, ["large_transactions", "suspicious_patterns"])
  }

  /** The result of `analyze_contract`. */
  datatype ContractAnalysis =
    | AnalysisError(error: string)
    | ContractReport(riskScore: real, vulnerabilityCount: nat, warnings: seq<string>, recommendations: seq<string>)

  /** `analyze_contract(contract_address, network)`: a fixed report for any supported network. */
  function AnalyzeContract(contractAddress: string, network: string): (a: ContractAnalysis)
    ensures a.AnalysisError? <==> network !in SupportedNetworks
    ensures a.ContractReport? ==> a.riskScore == 0.45 && a.vulnerabilityCount == 0
    ensures a.ContractReport? ==> |a.warnings| == 1 && |a.recommendations| == 1
  {
    if network !in SupportedNetworks then AnalysisError("Unsupported network: " + network)
    else ContractReport(0.45, 0, ["High gas consumption in fallback function"],
                        ["Optimize storage usage to reduce gas costs"])
  }

  /** The default network "ethereum" is always accepted. */
  lemma DefaultNetworkSupported(address: string)
    ensures MonitorAddress(address, "ethereum").Monitoring?
    ensures AnalyzeContract(address, "ethereum").ContractReport?
  {
  }
}
