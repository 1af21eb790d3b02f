# FinChain Intelligence Network, modelled in Dafny

FinChain answers a free-text financial question by asking a set of keyword-driven agents and merging their answers. This project models that behaviour in Dafny:

- **The orchestrator** (`fin/orchestrator.py`) keeps a registry of agents keyed by name. For each query it:
  - routes the query with a fixed keyword table, falling back to every registered agent when no keyword matches;
  - asks each selected agent that is registered;
  - merges the replies. Every insight and recommendation is tagged with the agent it came from, and the confidence is the mean of the agents' confidences.
- **The agents.** Each agent is a rule engine: keyword groups decide which helpers run, and each helper appends canned or table-derived lines to a reply dictionary. The agents modelled are:
  - the blockchain analyst;
  - the fintech navigator;
  - the ML investment strategist;
  - the regulatory compliance agent;
  - the crypto-economics agent, modelled only through its `process_query`.
- **How each agent is modelled.** Each agent's reply dictionary is a `class Response` whose methods append to its fields, as the helpers do. Each `ProcessQuery` is proved to build exactly the reply that pure specification functions of the query describe. The properties are proved as lemmas about those functions.
- **Where the agents are dispatched.** The agents share an abstract base class in Python. Here they are the five constructors of `Agents.Agent`, and `Agents.Consult` dispatches to each agent's own `ProcessQuery`.
- **The constructors empty the agents' tables.** The base constructor calls the agent's `_initialize_agent`, which fills the agent's sample tables. Three agents then rebind those tables to empty dictionaries in their own constructor, after the base constructor has returned (`agents/fintech_navigator/fintech_navigator.py` lines 29-33, `agents/regulatory_compliance/regulatory_compliance.py` lines 29-32, `agents/crypto_economics/crypto_economics.py` lines 29-31). The model takes each agent's tables as a parameter:
  - `Initialized` is the state the constructor leaves. `Agents` and the orchestrator use it.
  - `SampleData` is the sample tables. Lemmas about it describe the evidently intended behaviour (see "## Findings").
- **What the empty tables do.**
  - The fintech navigator's trend, payment and API helpers give only their general lines. Its regulation helper gives its general lines when no region keyword occurs, and nothing when one does (`FintechNavigator.InitializedHelpers`). Its trend and regulatory-impact lookups always fail (`FintechNavigator.LookupsByState`).
  - The regulatory compliance agent never finds a jurisdiction or a regulation in a query (`RegulatoryCompliance.InitializedAnalysis`). Its transaction assessment gives no jurisdictional note (`RegulatoryCompliance.JurisdictionalNotes`). Its compliance report always says the framework is not found, and its advice lists no framework (`RegulatoryCompliance.InitializedReportAdvice`).
  - The crypto-economics agent's DeFi helper loops over the keys of its empty protocol table. The loop body reads `query_lower`, a name local to `process_query`, so it would raise `NameError`; with the empty table it never runs, and the helper appends its general lines. The model keeps the failure for a non-empty table (`CryptoEconomics.ProcessQuery`), and proves that the table the constructor leaves never raises (`CryptoEconomics.InitialTableNeverRaises`, `CryptoEconomics.ProcessConstructed`). No agent raises, so every orchestrated query is answered.
- **Duplicate region entries.** The fintech navigator's region keyword table maps "europe", "eu" and "european" all to "Europe". A query containing "european" therefore yields the region list Europe, Europe, Europe (`FintechNavigator.EuropeanCountsThrice`). With the sample tables Europe is analysed three times; as constructed, no region has updates, so the list adds nothing.

Files:
- `wrappers.dfy`: `Option` and `Result`.
- `text.dfy`: lower-casing, Python's substring test, `replace`, `title` and `join`.
- `seqs.dfy`: the list comprehensions over the agents' tables, with their facts about order and duplicates.
- `agent_api.dfy`: the reply and health records, and the confidence formula every agent uses.
- One file per agent.
- `agents.dfy`: dispatch.
- `orchestrator.dfy`.
- `scenarios.dfy`: the orchestrator unit test and edge cases.

## Model

| member | source | states |
|---|---|---|
| AgentApi.Confidence | agents/blockchain_analyst/blockchain_analyst.py:79 | the shared confidence `min(0.9, 0.3 + 0.2·insights + 0.1·recommendations)` lies in [0.3, 0.9]; it is 0.9 exactly when 3 + 2i + r ≥ 9, and otherwise equals (3 + 2i + r)/10 |
| AgentApi.ConfidenceMonotone | agents/ml_investment_strategist/ml_investment_strategist.py:80 | more insights or recommendations never lower an agent's confidence |
| BlockchainAnalyst.Response.constructor | agents/blockchain_analyst/blockchain_analyst.py:59-64 | a fresh reply has empty insights, recommendations and alerts, and confidence 0.0 |
| BlockchainAnalyst.Response.AnalyzeTransactions | agents/blockchain_analyst/blockchain_analyst.py:83-96 | appends the two transaction insights and one recommendation, touching nothing else |
| BlockchainAnalyst.Response.AnalyzeSmartContracts | agents/blockchain_analyst/blockchain_analyst.py:98-111 | appends two insights, one alert and one recommendation |
| BlockchainAnalyst.Response.DetectAnomalies | agents/blockchain_analyst/blockchain_analyst.py:113-125 | appends two insights and one recommendation |
| BlockchainAnalyst.ProcessQuery | agents/blockchain_analyst/blockchain_analyst.py:43-81 | the reply's insights, recommendations and alerts are those of the keyword branches that fire, in branch order, and the confidence is the shared formula over them |
| BlockchainAnalyst.BranchCounts | agents/blockchain_analyst/blockchain_analyst.py:66-76 | each firing branch adds two insights and one recommendation; only the contract branch adds an alert |
| BlockchainAnalyst.ConfidenceByBranches | agents/blockchain_analyst/blockchain_analyst.py:78-79 | confidence is 0.3 with no branch, 0.8 with one, 0.9 with two or more |
| BlockchainAnalyst.ContractAloneTriggers | agents/blockchain_analyst/blockchain_analyst.py:71-72 | the word "contract" alone triggers the smart-contract analysis and its alert |
| BlockchainAnalyst.UnmatchedQuery | agents/blockchain_analyst/blockchain_analyst.py:58-81 | a query with no keyword gets empty lists and confidence 0.3 |
| BlockchainAnalyst.MonitorAddress | agents/blockchain_analyst/blockchain_analyst.py:143-166 | an error naming the network exactly when the network is unsupported; otherwise a monitoring record for that address and network with two alerts configured |
| BlockchainAnalyst.AnalyzeContract | agents/blockchain_analyst/blockchain_analyst.py:168-190 | an error exactly for unsupported networks; otherwise risk 0.45, no vulnerabilities, one warning and one recommendation |
| BlockchainAnalyst.DefaultNetworkSupported | agents/blockchain_analyst/blockchain_analyst.py:29 | the default network "ethereum" is always accepted |
| MLInvestmentStrategist.RiskProfilePrecedence | agents/ml_investment_strategist/ml_investment_strategist.py:84-101 | conservative iff a conservative keyword occurs; aggressive iff an aggressive keyword occurs and no conservative one; moderate otherwise |
| MLInvestmentStrategist.GrowthIsAggressive | agents/ml_investment_strategist/ml_investment_strategist.py:98 | "growth" without a conservative keyword makes the profile aggressive |
| MLInvestmentStrategist.TotalOfSix | agents/ml_investment_strategist/ml_investment_strategist.py:155-181 | a six-class allocation totals the sum of its six shares |
| MLInvestmentStrategist.AllocationWellFormed | agents/ml_investment_strategist/ml_investment_strategist.py:155-181 | every profile's allocation covers the six asset classes in order, with non-negative shares summing to 100 |
| MLInvestmentStrategist.ProfileInsights | agents/ml_investment_strategist/ml_investment_strategist.py:128-141 | one insight per risk profile |
| MLInvestmentStrategist.ProfileRecommendations | agents/ml_investment_strategist/ml_investment_strategist.py:128-141 | two recommendations per risk profile |
| MLInvestmentStrategist.PortfolioInsights | agents/ml_investment_strategist/ml_investment_strategist.py:184-185 | two insights: the first contains the risk profile's label, the second is the Sharpe-ratio insight |
| MLInvestmentStrategist.Response.constructor | agents/ml_investment_strategist/ml_investment_strategist.py:56-61 | empty lists, no allocation, confidence 0.0 |
| MLInvestmentStrategist.Response.PredictMarketTrends | agents/ml_investment_strategist/ml_investment_strategist.py:103-115 | appends the three prediction insights only |
| MLInvestmentStrategist.Response.ProvideInvestmentRecommendations | agents/ml_investment_strategist/ml_investment_strategist.py:117-141 | appends the profile's insight and two recommendations |
| MLInvestmentStrategist.Response.OptimizePortfolio | agents/ml_investment_strategist/ml_investment_strategist.py:143-186 | sets the profile's allocation and appends two insights and one recommendation |
| MLInvestmentStrategist.ProcessQuery | agents/ml_investment_strategist/ml_investment_strategist.py:40-82 | the reply holds exactly the lines of the firing branches, the allocation of the portfolio branch, and the shared confidence |
| MLInvestmentStrategist.BranchCounts | agents/ml_investment_strategist/ml_investment_strategist.py:63-77 | the prediction branch adds three insights, the recommendation branch one insight and two recommendations, the portfolio branch two insights and one recommendation |
| MLInvestmentStrategist.AllocationOnlyForPortfolioQueries | agents/ml_investment_strategist/ml_investment_strategist.py:73-77 | an allocation is present iff a portfolio keyword occurs, and then it sums to 100 |
| MLInvestmentStrategist.HorizonLabel | agents/ml_investment_strategist/ml_investment_strategist.py:217-224 | a known horizon maps to its label; an unknown one falls back to the medium horizon's |
| MLInvestmentStrategist.AnalyzeAsset | agents/ml_investment_strategist/ml_investment_strategist.py:204-238 | for the drawn prediction: "bullish" iff it is positive; "buy" iff above 0.1; "sell" iff at most -0.1; "hold" otherwise |
| CryptoEconomics.Response.constructor | agents/crypto_economics/crypto_economics.py:82-87 | empty lists, confidence 0.0 |
| CryptoEconomics.Response.AnalyzeTokenomics | agents/crypto_economics/crypto_economics.py:106-128 | appends three insights, two recommendations and a token-valuation model |
| CryptoEconomics.Response.AnalyzeDefiProtocols | agents/crypto_economics/crypto_economics.py:130-153 | reports the `NameError` exactly when the protocol table is non-empty; otherwise appends the three general DeFi insights and two recommendations, and no model |
| CryptoEconomics.Response.AnalyzeEconomicSustainability | agents/crypto_economics/crypto_economics.py:175-197 | appends three insights, two recommendations and a sustainability model |
| CryptoEconomics.ProcessQuery | agents/crypto_economics/crypto_economics.py:66-104 | for a given protocol table: fails with the `NameError` iff a DeFi keyword occurs and the table is non-empty; otherwise the reply holds the lines of the firing branches in the order tokenomics, DeFi, sustainability, the models of the tokenomics and sustainability branches, and the shared confidence |
| CryptoEconomics.InitialTableNeverRaises | agents/crypto_economics/crypto_economics.py:29-31 | with the protocol table the constructor leaves, no query raises |
| CryptoEconomics.ProcessConstructed | agents/crypto_economics/crypto_economics.py:66-104 | with the table the constructor leaves, every query is answered: the reply holds exactly the branch lines, models and confidence, and a DeFi query gets the general DeFi lines right after any tokenomics lines |
| CryptoEconomics.BranchCounts | agents/crypto_economics/crypto_economics.py:89-99 | each firing branch adds three insights and two recommendations; every branch but the DeFi one adds one model |
| CryptoEconomics.DefiOnlyReply | agents/crypto_economics/crypto_economics.py:130-153 | a query that asks only about DeFi gets exactly the general DeFi lines, no model, and confidence 0.9 |
| FintechNavigator.PartsOfSizes | agents/fintech_navigator/fintech_navigator.py:212-221 | entries that each add the same numbers of lines add that many per entry |
| FintechNavigator.RegionPartsWithoutUpdates | agents/fintech_navigator/fintech_navigator.py:285-295 | with no regulatory update in the table, no region adds anything |
| FintechNavigator.InitializedHelpers | agents/fintech_navigator/fintech_navigator.py:179-375 | as constructed, the trend, payment and API helpers give exactly their general lines; the regulation helper gives its general lines iff no region keyword occurs, and nothing otherwise |
| FintechNavigator.InitializedEmptyReply | agents/fintech_navigator/fintech_navigator.py:135-177 | as constructed, the reply has no insight, no recommendation and confidence 0.3 iff no trend, payment or API keyword occurs and a regulation keyword, if any, comes with a region keyword |
| FintechNavigator.RegionQueryEmptyReply | agents/fintech_navigator/fintech_navigator.py:235-295 | as constructed, "eu law" asks about regulations and names a region, yet its reply is empty with confidence 0.3 |
| FintechNavigator.TrendsAnalysisSizes | agents/fintech_navigator/fintech_navigator.py:179-233 | with the sample tables: three insights and two recommendations when no trend is named; otherwise two insights, one recommendation and one trend entry per named trend |
| FintechNavigator.RegionsHaveUpdates | agents/fintech_navigator/fintech_navigator.py:252-260 | every region the keyword table yields is Europe, the United States or the United Kingdom, each with sample regulatory updates |
| FintechNavigator.RegionPartsSizes | agents/fintech_navigator/fintech_navigator.py:285-295 | with the sample tables, each mentioned region adds at least one insight and exactly one recommendation |
| FintechNavigator.RegulationsAnalysisNonEmpty | agents/fintech_navigator/fintech_navigator.py:235-295 | with the sample tables, the regulation helper always adds at least one insight and one recommendation |
| FintechNavigator.PaymentsAnalysisNonEmpty | agents/fintech_navigator/fintech_navigator.py:297-336 | with the sample tables, the payment helper always adds at least two insights and one recommendation |
| FintechNavigator.ApisAnalysisNonEmpty | agents/fintech_navigator/fintech_navigator.py:338-375 | whatever the tables, the API helper always adds at least three insights and one recommendation |
| FintechNavigator.EmptyReplyIffNoTopic | agents/fintech_navigator/fintech_navigator.py:157-175 | with the sample tables, the reply has no insight, and confidence 0.3, iff no topic keyword occurs |
| FintechNavigator.EuropeanKeywordMatches | agents/fintech_navigator/fintech_navigator.py:252-260 | "european" contains the keywords "europe", "eu" and "european" and none of the others |
| FintechNavigator.EuropeanLacksOtherKeywords | agents/fintech_navigator/fintech_navigator.py:252-260 | "european" contains none of the US or UK keywords |
| FintechNavigator.EuropeanCountsThrice | agents/fintech_navigator/fintech_navigator.py:252-260 | a query "european" yields the region list Europe, Europe, Europe |
| FintechNavigator.AnalyzeMarketTrend | agents/fintech_navigator/fintech_navigator.py:393-427 | for any trend table: not found, with the error text and one recommendation, iff no trend key equals the normalised name; otherwise the details of a matching trend |
| FintechNavigator.GetRegulatoryImpact | agents/fintech_navigator/fintech_navigator.py:429-468 | for any update table: no regulations iff no update's region equals the given one ignoring case; otherwise the total is the number of matching updates, the high-impact and the implemented-plus-proposed counts are at most the total (equal to it when every status is "implemented" or "proposed"), and there are three recommendations |
| FintechNavigator.LookupsByState | agents/fintech_navigator/fintech_navigator.py:393-468 | as constructed, every trend lookup is not found and every region has no regulations; with the sample tables, "Embedded Finance" and "Europe" are found |
| FintechNavigator.Response.constructor | agents/fintech_navigator/fintech_navigator.py:150-156 | empty lists, confidence 0.0 |
| FintechNavigator.Response.Append | agents/fintech_navigator/fintech_navigator.py:179-375 | appends one part's lines to the three lists, in order |
| FintechNavigator.Response.AppendEach | agents/fintech_navigator/fintech_navigator.py:212-221 | appends the parts of each entry in list order |
| FintechNavigator.Response.AnalyzeFintechTrends | agents/fintech_navigator/fintech_navigator.py:179-233 | appends exactly the trends analysis of the query |
| FintechNavigator.Response.AppendRegions | agents/fintech_navigator/fintech_navigator.py:285-295 | the region loop appends the part of each region in list order, a region without updates adding nothing |
| FintechNavigator.Response.AnalyzeRegulations | agents/fintech_navigator/fintech_navigator.py:235-295 | appends exactly the regulations analysis (named updates, then regions in keyword order) |
| FintechNavigator.Response.AnalyzePaymentSystems | agents/fintech_navigator/fintech_navigator.py:297-336 | appends exactly the payments analysis |
| FintechNavigator.Response.AnalyzeFinancialApis | agents/fintech_navigator/fintech_navigator.py:338-375 | appends exactly the API analysis |
| FintechNavigator.ProcessQuery | agents/fintech_navigator/fintech_navigator.py:135-177 | the reply is the concatenation of the topic analyses that fire, in topic order, with the shared confidence |
| RegulatoryCompliance.FindJurisdiction | agents/regulatory_compliance/regulatory_compliance.py:263 | a found jurisdiction is in the table under that code; none is returned only when no entry has the code |
| RegulatoryCompliance.FindRegulation | agents/regulatory_compliance/regulatory_compliance.py:301 | the same for regulations |
| RegulatoryCompliance.FindFramework | agents/regulatory_compliance/regulatory_compliance.py:524 | the same for compliance frameworks |
| RegulatoryCompliance.InitializedAnalysis | agents/regulatory_compliance/regulatory_compliance.py:210-248 | as constructed, no jurisdiction or regulation is mentioned, and the reply is the three general jurisdiction lines followed by the analyses of the domains whose keywords occur |
| RegulatoryCompliance.BusinessMatchesNoDomain | agents/regulatory_compliance/regulatory_compliance.py:238-247 | "business" holds none of the domain keywords |
| RegulatoryCompliance.BusinessGetsGeneralLines | agents/regulatory_compliance/regulatory_compliance.py:222-231 | as constructed, a query about a "business" gets exactly the three general jurisdiction lines, with confidence 0.9 |
| RegulatoryCompliance.KnownJurisdiction | agents/regulatory_compliance/regulatory_compliance.py:263 | whatever the tables, every code in the jurisdiction table is found |
| RegulatoryCompliance.AmlCoversJurisdiction | agents/regulatory_compliance/regulatory_compliance.py:86-95 | the sample AML/KYC regulation lists every sample jurisdiction |
| RegulatoryCompliance.JurisdictionPartSizes | agents/regulatory_compliance/regulatory_compliance.py:255-291 | with the sample tables, analysing a known jurisdiction adds four insights, and three recommendations for high complexity or two otherwise |
| RegulatoryCompliance.JurisdictionPartsCoverLast | agents/regulatory_compliance/regulatory_compliance.py:224-226 | the lines for a list of codes are at least as many as those of its last code |
| RegulatoryCompliance.ConfidenceAlwaysCapped | agents/regulatory_compliance/regulatory_compliance.py:222-251 | whatever the tables, every reply has at least three insights, so the confidence is always 0.9 |
| RegulatoryCompliance.CodeSubstringMentions | agents/regulatory_compliance/regulatory_compliance.py:212-214 | a jurisdiction of the table whose code occurs anywhere in the lower-cased query is analysed |
| RegulatoryCompliance.BusinessMentionsUnitedStates | agents/regulatory_compliance/regulatory_compliance.py:213 | with the sample tables, because codes match as bare substrings, "business" selects the United States |
| RegulatoryCompliance.RegulationRequirements | agents/regulatory_compliance/regulatory_compliance.py:293-322 | whatever the tables, a found regulation adds three insights, one compliance requirement per key requirement at the regulation's priority, and two recommendations when the priority is critical or high, one otherwise |
| RegulatoryCompliance.Response.constructor | agents/regulatory_compliance/regulatory_compliance.py:203-209 | empty lists, confidence 0.0 |
| RegulatoryCompliance.Response.Append | agents/regulatory_compliance/regulatory_compliance.py:255-387 | appends one part's lines to the four lists, in order |
| RegulatoryCompliance.Response.AnalyzeJurisdiction | agents/regulatory_compliance/regulatory_compliance.py:255-291 | appends exactly the jurisdiction part of the code |
| RegulatoryCompliance.Response.AnalyzeRegulation | agents/regulatory_compliance/regulatory_compliance.py:293-322 | appends exactly the regulation part of the code |
| RegulatoryCompliance.Response.AnalyzeDomain | agents/regulatory_compliance/regulatory_compliance.py:324-387 | appends exactly the domain's part; an unknown domain adds nothing |
| RegulatoryCompliance.Response.AnalyzeEachJurisdiction | agents/regulatory_compliance/regulatory_compliance.py:224-226 | appends the parts of the codes in order |
| RegulatoryCompliance.Response.AnalyzeEachRegulation | agents/regulatory_compliance/regulatory_compliance.py:234-236 | appends the parts of the codes in order |
| RegulatoryCompliance.Response.AnalyzeMatchingDomains | agents/regulatory_compliance/regulatory_compliance.py:239-248 | appends the parts of exactly those domains one of whose keywords occurs, in table order |
| RegulatoryCompliance.ProcessQuery | agents/regulatory_compliance/regulatory_compliance.py:187-253 | the reply is the jurisdiction analysis followed by the regulation analysis (or the domain analysis when no regulation is named), with the shared confidence |
| RegulatoryCompliance.AtMostTwoInvolved | agents/regulatory_compliance/regulatory_compliance.py:489-495 | with the sample tables, at most two jurisdictional notes, one per distinct end of the transfer |
| RegulatoryCompliance.JurisdictionalNotes | agents/regulatory_compliance/regulatory_compliance.py:489-495 | a note is given for a table entry iff it is the origin or the destination, and every note is such an entry's; as constructed no note is given |
| RegulatoryCompliance.ScreenJurisdictions | agents/regulatory_compliance/regulatory_compliance.py:430-449 | high risk iff an end is high-risk; the matching risk factors; a cross-border check iff the ends differ |
| RegulatoryCompliance.ScreenAsset | agents/regulatory_compliance/regulatory_compliance.py:451-470 | a digital asset sets a risk that is not high to medium and adds its factor and its two checks; an amount at the reporting threshold then adds the large-transaction check and a factor naming the amount, and raises low risk to medium; a high risk stays high, and nothing else changes |
| RegulatoryCompliance.AssessTransactionCompliance | agents/regulatory_compliance/regulatory_compliance.py:405-510 | the assessment's risk, factors, checks, jurisdictional notes and advice are exactly those the specification functions give |
| RegulatoryCompliance.RiskClassification | agents/regulatory_compliance/regulatory_compliance.py:430-508 | high iff an end is high-risk; low iff no concern at all; three pieces of advice for high risk, two otherwise |
| RegulatoryCompliance.LargeTransactionReported | agents/regulatory_compliance/regulatory_compliance.py:459-470 | the large-transaction check is required iff the lower-cased asset type is "fiat" and the amount reaches 10000, or it is one of the digital asset types ("cryptocurrency", "crypto", "digital asset", "token") and the amount reaches 3000; any other asset type is never reported |
| RegulatoryCompliance.AlwaysScreened | agents/regulatory_compliance/regulatory_compliance.py:472-487 | the checks always end with AML/KYC and sanctions screening; the ownership check is present iff the party is an entity |
| RegulatoryCompliance.GenerateComplianceReport | agents/regulatory_compliance/regulatory_compliance.py:512-590 | for the given tables: not found, with the error text and the advice listing the known codes, iff no framework has the code; otherwise the scope echoes the jurisdiction (default "global"), business activities and product types (default empty), the applicable regulations are those listing the jurisdiction or "global", the actions are their requirements followed by the framework's controls, and the three recommendations are the fixed texts, the second naming the framework |
| RegulatoryCompliance.CollectRequirementActions | agents/regulatory_compliance/regulatory_compliance.py:564-572 | the nested loop yields one action per key requirement, regulation by regulation, in order |
| RegulatoryCompliance.AppendControlActions | agents/regulatory_compliance/regulatory_compliance.py:574-581 | the loop appends one action per framework control, in order, after the existing ones |
| RegulatoryCompliance.RequirementActionCount | agents/regulatory_compliance/regulatory_compliance.py:564-572 | one action per key requirement of each applicable regulation |
| RegulatoryCompliance.ControlActionsHigh | agents/regulatory_compliance/regulatory_compliance.py:574-581 | one high-priority action per framework control, attributed to the framework |
| RegulatoryCompliance.AmlAlwaysApplicable | agents/regulatory_compliance/regulatory_compliance.py:536-545 | with the sample tables, the global AML/KYC regulation applies in every jurisdiction |
| RegulatoryCompliance.InitializedReportAdvice | agents/regulatory_compliance/regulatory_compliance.py:524-529 | as constructed, every framework code is unknown and the advice is "Select a supported framework: " with no code after it |
| RegulatoryCompliance.SampleFrameworksFound | agents/regulatory_compliance/regulatory_compliance.py:524-529 | with the sample tables, every sample framework is found, and the advice lists iso_27001, pci_dss, nist and rbi_guidelines in table order |
| Agents.Agent.HealthCheck | fin/base_agent.py:58-69 | an agent is always healthy and reports its own name and module |
| Agents.Agent.Respond | fin/orchestrator.py:64 | every agent answers every query in the state its constructor leaves, with a confidence between 0.3 and 0.9 given by the shared formula over its line counts |
| Agents.NamesDistinct | fin/orchestrator.py:42 | different agents register under different names |
| Agents.Consult | fin/orchestrator.py:64 | calling an agent's `process_query` yields exactly its specified reply |
| Orchestrator.RoutingTable | fin/orchestrator.py:86-103 | the router's five agent names map to their keyword lists, in check order |
| Orchestrator.KeywordPrefix | fin/orchestrator.py:83-103 | the first k keyword checks select exactly the matching agents among the first k names |
| Orchestrator.KeywordMatchesFacts | fin/orchestrator.py:83-103 | an agent is a keyword match iff one of its keywords occurs; matches appear once each, in check order |
| Orchestrator.KeywordMatchesUnfolded | fin/orchestrator.py:83-103 | the keyword table selects agents check by check, in the router's order |
| Orchestrator.RouterSelection | fin/orchestrator.py:71-109 | an agent is selected iff its keyword occurs, or no keyword occurs and it is registered; the selection has no duplicates and keeps the router's order |
| Orchestrator.KeywordSelects | fin/orchestrator.py:86-103 | an agent whose keyword occurs is always selected |
| Orchestrator.ConsultedAgents | fin/orchestrator.py:61-64 | the consulted agents are the selected ones that are registered, in selection order, each with its own reply |
| Orchestrator.ScaledSumIsMean | fin/orchestrator.py:149-151 | adding every confidence divided by N gives the sum of the confidences divided by N |
| Orchestrator.CollectedAttribution | fin/orchestrator.py:133-147 | a tagged item is in the answer iff some reply lists it and the tag names that reply's agent |
| Orchestrator.LinesCollected | fin/orchestrator.py:133-147 | the lines one reply lists are all in the answer, tagged with that reply's agent |
| Orchestrator.CollectedCount | fin/orchestrator.py:133-147 | nothing is dropped or merged: the answer holds as many items as all replies together |
| Orchestrator.ConfidenceSumBounds | fin/orchestrator.py:149-151 | n replies with confidences in [0.3, 0.9] sum to between 0.3n and 0.9n |
| Orchestrator.SynthesisConfidenceBounds | fin/orchestrator.py:149-151 | the mean of such confidences lies in [0.3, 0.9] |
| Orchestrator.ConsultedConfidences | fin/orchestrator.py:61-64 | every reply the agents give carries a confidence in [0.3, 0.9] |
| Orchestrator.RegistrySize | fin/orchestrator.py:174 | `len(self.agents)` equals the number of registered names |
| Orchestrator.ProcessAnswer | fin/orchestrator.py:45-69 | the consulted agents are exactly the selected, registered ones, without duplicates; confidence is 0.0 with none consulted and in [0.3, 0.9] otherwise |
| Orchestrator.ProcessConsultsSelected | fin/orchestrator.py:45-69 | every selected agent that is registered is consulted |
| Orchestrator.DefiQueriesAnswered | fin/orchestrator.py:45-103 | with the crypto-economics agent registered, a query mentioning "defi" or "yield" consults it, and the answer holds every general DeFi insight and recommendation tagged with its name |
| Orchestrator.HealthEntries | fin/orchestrator.py:179-180 | one health entry per registered name, in registration order, each the agent's own |
| Orchestrator.FinChainOrchestrator.constructor | fin/orchestrator.py:19-29 | an empty, valid registry |
| Orchestrator.FinChainOrchestrator.RegisterAgent | fin/orchestrator.py:35-43 | the agent is stored under its name, silently replacing a previous one; a new name is appended to the order and a known name keeps its place |
| Orchestrator.FinChainOrchestrator.GetRegisteredAgents | fin/orchestrator.py:155-162 | every registered name once, in registration order |
| Orchestrator.FinChainOrchestrator.IdentifyRelevantAgents | fin/orchestrator.py:71-109 | the five keyword checks compute the router's selection, including the fallback |
| Orchestrator.FinChainOrchestrator.ConsultAgents | fin/orchestrator.py:61-64 | the loop collects exactly the specified replies of the selected, registered agents, in selection order |
| Orchestrator.FinChainOrchestrator.AppendAttributed | fin/orchestrator.py:136-147 | the inner loop appends every item tagged with its agent |
| Orchestrator.FinChainOrchestrator.SynthesizeResponses | fin/orchestrator.py:111-153 | the loop that adds `confidence / N` computes the answer whose confidence is the mean (0.0 without replies), with all items attributed |
| Orchestrator.FinChainOrchestrator.ProcessQuery | fin/orchestrator.py:45-69 | the answer is the synthesis of the consulted replies for the routed selection |
| Orchestrator.FinChainOrchestrator.HealthCheck | fin/orchestrator.py:164-182 | status "healthy", agent count equal to the registry size, and each agent's own health in registration order |
| Scenarios.SmartContractQueryLower | tests/test_basic.py:70 | the lower-cased form of the first test query |
| Scenarios.SmartContractQueryRoutes | tests/test_basic.py:70-72 | "Analyze smart contract security" selects the blockchain analyst |
| Scenarios.PortfolioQueryLower | tests/test_basic.py:74 | the lower-cased form of the second test query |
| Scenarios.PortfolioQueryRoutes | tests/test_basic.py:74-76 | "Optimize my investment portfolio" selects the investment strategist |
| Scenarios.PaymentKeywordMatches | fin/orchestrator.py:86-103 | "payment" matches the fintech keywords and no others |
| Scenarios.UnregisteredSelectionIsEmpty | fin/orchestrator.py:62-63 | with only the blockchain and investment agents registered, a payment query consults nobody (no fallback) and returns an empty answer with confidence 0.0 |
| Scenarios.NoKeywordFallsBack | fin/orchestrator.py:105-107 | a query without any keyword selects every registered agent |
| Scenarios.SetUp | tests/test_basic.py:14-20 | registering the two test agents yields both names in that order |
| Scenarios.TestSession | tests/test_basic.py:61-81 | the test's expectations: two registered agents; each test query consults its agent; health "healthy" with count 2 |

## Left out

- Logging, configuration dictionaries and the agents' descriptions: they do not affect any result.
- `get_capabilities` of every agent: fixed lists of text that the orchestrator never reads.
- `app.py`, the command-line front end: I/O only.
- The crypto-economics agent's `evaluate_token_model`, `analyze_defi_opportunity` and its sample DeFi protocol table: the orchestrator never calls them, and the constructor empties the table.
- The DeFi helper's per-protocol lines: the helper raises on the first protocol of a non-empty table before it can reach them, and an empty table never reaches them. The model keeps the raise (`CryptoEconomics.Response.AnalyzeDefiProtocols`) and the general lines.
- Exception propagation in the orchestrator: no agent raises in the state its constructor leaves, so `Orchestrator.Process` has no failure path.
- The call order inside the constructors: it is modelled by its outcome, the `Initialized` tables, and not step by step.
- Agents other than the five: Python accepts any subclass of the base agent, but the model's agent type is closed. The orchestrator's lemmas do not depend on which agents exist, except the ones that name the crypto-economics agent.
- Floating point: confidences, shares and the mean are reals. Python's rounding in `confidence / N` is not modelled.
- RegulatoryCompliance.LargeTransactionReported: the amount is an integer, so a fractional amount is not modelled; the thresholds are integers, so the reporting decision agrees with the source for every integral amount.
- RegulatoryCompliance.AssessTransactionCompliance: the risk factor that names the amount prints the integer amount; the text Python prints for a float amount (such as "10000.5" or "10000.0") is not modelled.
- The denominator quirk: a reply without a confidence adds 0 but still counts in N. This is modelled (`ConfidenceOf`), but every modelled agent always reports a confidence.
- String formatting of numbers (`:.1%`, `:.2f`, `$…B`) in the fintech tables: the formatted texts are fixed strings in the tables.
- `str.lower` and `str.title`: modelled on ASCII letters only.
- Dictionaries:
  - The reply dictionaries are records with only the fields the source writes.
  - `agent_responses` is a sequence of (name, reply) pairs. The router never selects a name twice (`Orchestrator.RouterSelection`), so no key is overwritten.
- Random draws in `analyze_asset`: they become parameters of `MLInvestmentStrategist.AnalyzeAsset`.
- `FintechNavigator.TrendsAnalysisSizes`: the market-overview entry that the general trends branch adds is one opaque trend entry, and its numeric fields are not modelled.
- `FintechNavigator.Response.AnalyzeRegulations`: regulations named in the query are matched against the whole table, as in the source, but the table's summaries are fixed strings.
- The general description of the system calls per-agent confidences floats in [0, 1]. The code's formula keeps them in [0.3, 0.9], and the model follows the code.

## Findings

| source | as written | input that shows it | evidently intended | confidence | as-written member | corrected member |
|---|---|---|---|---|---|---|
| agents/fintech_navigator/fintech_navigator.py:29-33 | the constructor rebinds the four tables to empty dictionaries after the base constructor has filled them with the sample data | the query "eu law": a regulation keyword and a region keyword, yet the reply is empty, with confidence 0.3 | the sample tables stay in place, and every query that asks about a topic gets at least one insight | not executed | FintechNavigator.RegionQueryEmptyReply | FintechNavigator.EmptyReplyIffNoTopic |
| agents/regulatory_compliance/regulatory_compliance.py:29-32 | the constructor rebinds the three tables to empty dictionaries after the base constructor has filled them with the sample data | `generate_compliance_report("iso_27001", {})`: the framework is not found, and the advice lists no framework | the sample frameworks are found, and the advice for an unknown one lists the four sample codes | not executed | RegulatoryCompliance.InitializedReportAdvice | RegulatoryCompliance.SampleFrameworksFound |
