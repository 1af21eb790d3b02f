/**
 * The FinChain orchestrator: a registry of agents keyed by name, a keyword
 * router that picks the agents a query concerns, the consultation of the
 * registered ones, and the synthesis of their replies into one answer with
 * every insight and recommendation attributed to its agent and the mean of
 * the agents' confidences.
 */
module Orchestrator {
  import opened Wrappers
  import opened Text
  import opened AgentApi
  import opened Seqs
  import opened Agents
  import CE = CryptoEconomics

  // ---------------------------------------------------------------------
  // Routing
  // ---------------------------------------------------------------------

  const BlockchainTerms: seq<string> := ["blockchain", "transaction", "smart contract", "crypto"]
  const FintechTerms: seq<string> := ["fintech", "payment", "banking", "financial news"]
  const InvestmentTerms: seq<string> := ["investment", "predict", "portfolio", "strategy"]
  const TokenTerms: seq<string> := ["token", "defi", "yield", "tokenomics"]
  const RegulatoryTerms: seq<string> := ["regulation", "compliance", "legal", "jurisdiction"]

  /** The agent names the router knows, in the order its checks run. */
  const RoutingOrder: seq<string> :=
    ["blockchain_analyst", "fintech_navigator", "ml_investment_strategist", "crypto_economics", "regulatory_compliance"]

  /** The keywords that route a query to the named agent. */
  function RoutingTerms(name: string): seq<string>
  {
    if name == "blockchain_analyst" then BlockchainTerms
    else if name == "fintech_navigator" then FintechTerms
    else if name == "ml_investment_strategist" then InvestmentTerms
    else if name == "crypto_economics" then TokenTerms
    else if name == "regulatory_compliance" then RegulatoryTerms
    else []
  }

  /** The lower-cased query contains one of the named agent's keywords. */
  predicate Routes(queryLower: string, name: string)
  {
    AnyIn(RoutingTerms(name), queryLower)
  }

  /** The agents whose keywords the lower-cased query contains, in routing order. */
  function KeywordMatches(queryLower: string): seq<string>
  {
    Filter(RoutingOrder, (name: string) => Routes(queryLower, name))
  }

  /**
   * The agents `_identify_relevant_agents` selects: the keyword matches,
   * or, when no keyword matches, every registered agent in registration order.
   */
  function RelevantAgents(query: string, registered: seq<string>): seq<string>
  {
    var matches := KeywordMatches(Lower(query));
    if matches == [] then registered else matches
  }

  /** The router's table, position by position. */
  lemma RoutingTable()
    ensures RoutingTerms(RoutingOrder[0]) == BlockchainTerms
    ensures RoutingTerms(RoutingOrder[1]) == FintechTerms
    ensures RoutingTerms(RoutingOrder[2]) == InvestmentTerms
    ensures RoutingTerms(RoutingOrder[3]) == TokenTerms
    ensures RoutingTerms(RoutingOrder[4]) == RegulatoryTerms
  {
  }

  /** The agents the router's first k checks add, written check by check. */
  function FirstChecks(queryLower: string, k: nat): seq<string>
    requires k <= |RoutingOrder|
  {
    if k == 0 then []
    else FirstChecks(queryLower, k - 1)
         + (if AnyIn(RoutingTerms(RoutingOrder[k - 1]), queryLower) then [RoutingOrder[k - 1]] else [])
  }

  /** The first k checks select the keyword matches among the first k agents. */
  lemma {:induction false} KeywordPrefix(queryLower: string, k: nat)
    requires k <= |RoutingOrder|
    ensures Filter(RoutingOrder[..k], (name: string) => Routes(queryLower, name)) == FirstChecks(queryLower, k)
  {
    if k > 0 {
      KeywordPrefix(queryLower, k - 1);
      FilterPrefixStep(RoutingOrder, (name: string) => Routes(queryLower, name), k - 1);
    }
  }

  /** The keyword matches written out check by check, as the router performs them. */
  lemma KeywordMatchesUnfolded(queryLower: string)
    ensures KeywordMatches(queryLower)
         == (if AnyIn(BlockchainTerms, queryLower) then ["blockchain_analyst"] else [])
          + (if AnyIn(FintechTerms, queryLower) then ["fintech_navigator"] else [])
          + (if AnyIn(InvestmentTerms, queryLower) then ["ml_investment_strategist"] else [])
          + (if AnyIn(TokenTerms, queryLower) then ["crypto_economics"] else [])
          + (if AnyIn(RegulatoryTerms, queryLower) then ["regulatory_compliance"] else [])
  {
    var m0 := if AnyIn(BlockchainTerms, queryLower) then ["blockchain_analyst"] else [];
    var m1 := if AnyIn(FintechTerms, queryLower) then ["fintech_navigator"] else [];
    var m2 := if AnyIn(InvestmentTerms, queryLower) then ["ml_investment_strategist"] else [];
    var m3 := if AnyIn(TokenTerms, queryLower) then ["crypto_economics"] else [];
    var m4 := if AnyIn(RegulatoryTerms, queryLower) then ["regulatory_compliance"] else [];
    RoutingTable();
    assert FirstChecks(queryLower, 1) == m0;
    assert FirstChecks(queryLower, 2) == m0 + m1;
    assert FirstChecks(queryLower, 3) == m0 + m1 + m2;
    assert FirstChecks(queryLower, 4) == m0 + m1 + m2 + m3;
    assert FirstChecks(queryLower, 5) == m0 + m1 + m2 + m3 + m4;
    KeywordPrefix(queryLower, 5);
    assert RoutingOrder[..5] == RoutingOrder;
  }

  /**
   * What the router selects: an agent whose keywords the query contains,
   * or, exactly when no keyword matches at all, any registered agent. The
   * selection never names an agent twice, and keyword matches keep the
   * router's order.
   */
  lemma RouterSelection(query: string, registered: seq<string>)
    requires NoDuplicates(registered)
    ensures var selected := RelevantAgents(query, registered);
      && NoDuplicates(selected)
      && (forall name :: name in selected <==>
            (name in RoutingOrder && Routes(Lower(query), name))
            || ((forall n :: n in RoutingOrder ==> !Routes(Lower(query), n)) && name in registered))
      && ((exists n :: n in RoutingOrder && Routes(Lower(query), n)) ==> IsSubsequence(selected, RoutingOrder))
  {
    var ql := Lower(query);
    KeywordMatchesFacts(ql);
    if KeywordMatches(ql) == [] {
      assert RelevantAgents(query, registered) == registered;
    } else {
      var n := KeywordMatches(ql)[0];
      assert n in KeywordMatches(ql);
      assert RelevantAgents(query, registered) == KeywordMatches(ql);
    }
  }

  /** The keyword matches are the routed agents, once each, in the router's order. */
  lemma KeywordMatchesFacts(queryLower: string)
    ensures forall name :: name in KeywordMatches(queryLower) <==> name in RoutingOrder && Routes(queryLower, name)
    ensures NoDuplicates(KeywordMatches(queryLower)) && IsSubsequence(KeywordMatches(queryLower), RoutingOrder)
  {
    RoutingOrderDistinct();
    FilterFacts(RoutingOrder, (name: string) => Routes(queryLower, name));
  }

  lemma RoutingOrderDistinct()
    ensures NoDuplicates(RoutingOrder)
  {
  }

  /** An agent whose keyword the query contains is always selected. */
  lemma KeywordSelects(query: string, registered: seq<string>, name: string)
    requires name in RoutingOrder && Routes(Lower(query), name)
    ensures name in RelevantAgents(query, registered)
  {
    FilterMembership(RoutingOrder, (n: string) => Routes(Lower(query), n), name);
  }

  // ---------------------------------------------------------------------
  // Consultation
  // ---------------------------------------------------------------------

  /**
   * The replies collected from the selected agents, in selection order,
   * skipping names that are not registered.
   */
  function Consulted(selected: seq<string>, agents: map<string, Agent>, query: string): seq<(string, Reply)>
  {
    if selected == [] then []
    else
      var name := selected[|selected| - 1];
      var replies := Consulted(selected[..|selected| - 1], agents, query);
      if name !in agents then replies else replies + [(name, agents[name].Respond(query))]
  }

  function SourceOf(entry: (string, Reply)): string
  {
    entry.0
  }

  /**
   * The consulted agents are exactly the selected names that are registered,
   * in selection order, each with the reply its agent gave.
   */
  lemma {:induction false} ConsultedAgents(selected: seq<string>, agents: map<string, Agent>, query: string)
    ensures var replies := Consulted(selected, agents, query);
      && Map(replies, SourceOf) == Filter(selected, (name: string) => name in agents)
      && forall j :: 0 <= j < |replies| ==>
           replies[j].0 in agents && agents[replies[j].0].Respond(query) == replies[j].1
  {
    if selected != [] {
      var init := selected[..|selected| - 1];
      ConsultedAgents(init, agents, query);
    }
  }

  // ---------------------------------------------------------------------
  // Synthesis
  // ---------------------------------------------------------------------

  /** An insight or recommendation together with the agent it came from. */
  datatype Tagged = Tagged(content: string, source: string)

  /** The orchestrated answer `_synthesize_responses` builds. */
  datatype Synthesized = Synthesized(
    query: string,
    agentsConsulted: seq<string>,
    insights: seq<Tagged>,
    recommendations: seq<Tagged>,
    confidence: real)

  /** Which list of a reply is being collected. */
  datatype Kind = InsightItems | RecommendationItems

  function Items(reply: Reply, kind: Kind): seq<string>
  {
    match kind
    case InsightItems => reply.insights
    case RecommendationItems => reply.recommendations
  }

  /** Every item tagged with the agent it came from. */
  function Attributed(items: seq<string>, source: string): (r: seq<Tagged>)
    ensures |r| == |items|
    ensures forall i :: 0 <= i < |items| ==> r[i] == Tagged(items[i], source)
  {
    seq(|items|, i requires 0 <= i < |items| => Tagged(items[i], source))
  }

  /** The items of one kind from every reply, tagged, in reply order. */
  function Collected(replies: seq<(string, Reply)>, kind: Kind): seq<Tagged>
  {
    if replies == [] then []
    else
      var last := replies[|replies| - 1];
      Collected(replies[..|replies| - 1], kind) + Attributed(Items(last.1, kind), last.0)
  }

  /** The number of items of one kind over all replies. */
  function ItemCount(replies: seq<(string, Reply)>, kind: Kind): nat
  {
    if replies == [] then 0
    else ItemCount(replies[..|replies| - 1], kind) + |Items(replies[|replies| - 1].1, kind)|
  }

  /** A reply without a confidence adds nothing to the sum. */
  function ConfidenceOf(reply: Reply): real
  {
    if reply.confidence.Some? then reply.confidence.value else 0.0
  }

  function ConfidenceSum(replies: seq<(string, Reply)>): real
  {
    if replies == [] then 0.0
    else ConfidenceSum(replies[..|replies| - 1]) + ConfidenceOf(replies[|replies| - 1].1)
  }

  /** The running total `confidence += c / n` after the given replies. */
  function ScaledSum(replies: seq<(string, Reply)>, n: nat): real
    requires |replies| <= n
  {
    if replies == [] then 0.0
    else ScaledSum(replies[..|replies| - 1], n) + ConfidenceOf(replies[|replies| - 1].1) / (n as real)
  }

  /**
   * The answer for a query and the collected replies: the consulted agents in
   * order, all their insights and recommendations attributed, and the mean
   * confidence (0.0 when no agent was consulted).
   */
  function Synthesis(query: string, replies: seq<(string, Reply)>): Synthesized
  {
    Synthesized(query, Map(replies, SourceOf),
                Collected(replies, InsightItems), Collected(replies, RecommendationItems),
                if replies == [] then 0.0 else ConfidenceSum(replies) / (|replies| as real))
  }

  /** Adding every confidence divided by n gives the sum of the confidences divided by n. */
  lemma {:induction false} ScaledSumIsMean(replies: seq<(string, Reply)>, n: nat)
    requires 0 < n && |replies| <= n
    ensures ScaledSum(replies, n) == ConfidenceSum(replies) / (n as real)
  {
    if replies != [] {
      var init := replies[..|replies| - 1];
      ScaledSumIsMean(init, n);
      var c := ConfidenceOf(replies[|replies| - 1].1);
      assert ConfidenceSum(init) / (n as real) + c / (n as real) == (ConfidenceSum(init) + c) / (n as real);
    }
  }

  /** A tagged item is collected exactly when some reply lists it and the tag names that reply's agent. */
  lemma {:induction false} CollectedAttribution(replies: seq<(string, Reply)>, kind: Kind)
    ensures forall t :: t in Collected(replies, kind) <==>
      exists j :: 0 <= j < |replies| && t.source == replies[j].0 && t.content in Items(replies[j].1, kind)
  {
    if replies != [] {
      var init := replies[..|replies| - 1];
      var last := replies[|replies| - 1];
      CollectedAttribution(init, kind);
      forall t ensures t in Attributed(Items(last.1, kind), last.0)
                   <==> t.source == last.0 && t.content in Items(last.1, kind) {
        var items := Items(last.1, kind);
        if t.source == last.0 && t.content in items {
          var i :| 0 <= i < |items| && items[i] == t.content;
          assert Attributed(items, last.0)[i] == t;
        }
      }
      forall t | t in Collected(replies, kind)
        ensures exists j :: 0 <= j < |replies| && t.source == replies[j].0 && t.content in Items(replies[j].1, kind)
      {
        if t in Collected(init, kind) {
          var j :| 0 <= j < |init| && t.source == init[j].0 && t.content in Items(init[j].1, kind);
          assert replies[j] == init[j];
        } else {
          assert replies[|replies| - 1] == last;
        }
      }
      forall t: Tagged, j | 0 <= j < |replies| && t.source == replies[j].0 && t.content in Items(replies[j].1, kind)
        ensures t in Collected(replies, kind)
      {
        if j < |init| {
          assert init[j] == replies[j];
        }
      }
    }
  }

  /** Nothing is dropped or merged: the synthesis holds every item of every reply. */
  lemma {:induction false} CollectedCount(replies: seq<(string, Reply)>, kind: Kind)
    ensures |Collected(replies, kind)| == ItemCount(replies, kind)
  {
    if replies != [] {
      CollectedCount(replies[..|replies| - 1], kind);
    }
  }

  /** Every reply carries a confidence in the range the agents' formula produces. */
  predicate ConfidencesInRange(replies: seq<(string, Reply)>)
  {
    forall j :: 0 <= j < |replies| ==>
      replies[j].1.confidence.Some? && 0.3 <= replies[j].1.confidence.value <= 0.9
  }

  lemma {:induction false} ConfidenceSumBounds(replies: seq<(string, Reply)>)
    requires ConfidencesInRange(replies)
    ensures 0.3 * (|replies| as real) <= ConfidenceSum(replies) <= 0.9 * (|replies| as real)
  {
    if replies != [] {
      var init := replies[..|replies| - 1];
      assert ConfidencesInRange(init) by {
        forall j | 0 <= j < |init| ensures init[j] == replies[j] { }
      }
      ConfidenceSumBounds(init);
    }
  }

  lemma DivideMonotone(a: real, b: real, n: real)
    requires a <= b && 0.0 < n
    ensures a / n <= b / n
  {
    assert b / n - a / n == (b - a) / n;
  }

  /** When every consulted agent reports a confidence between 0.3 and 0.9, so does the mean. */
  lemma SynthesisConfidenceBounds(query: string, replies: seq<(string, Reply)>)
    requires replies != [] && ConfidencesInRange(replies)
    ensures 0.3 <= Synthesis(query, replies).confidence <= 0.9
  {
    ConfidenceSumBounds(replies);
    var n := |replies| as real;
    DivideMonotone(0.3 * n, ConfidenceSum(replies), n);
    DivideMonotone(ConfidenceSum(replies), 0.9 * n, n);
    assert (0.3 * n) / n == 0.3 && (0.9 * n) / n == 0.9;
  }

  /** The replies the agents give always carry a confidence in range. */
  lemma {:induction false} ConsultedConfidences(selected: seq<string>, agents: map<string, Agent>, query: string)
    ensures ConfidencesInRange(Consulted(selected, agents, query))
  {
    ConsultedAgents(selected, agents, query);
  }

  // ---------------------------------------------------------------------
  // The whole query
  // ---------------------------------------------------------------------

  /**
   * `process_query`: route, consult, synthesize. No agent raises in the state
   * its constructor leaves, so every query is answered.
   */
  function Process(query: string, registered: seq<string>, agents: map<string, Agent>): Synthesized
  {
    Synthesis(query, Consulted(RelevantAgents(query, registered), agents, query))
  }

  /** The registry invariant: names in registration order, each registered once under its agent's own name. */
  ghost predicate Registry(names: seq<string>, agents: map<string, Agent>)
  {
    && NoDuplicates(names)
    && (forall name :: name in agents <==> name in names)
    && (forall name :: name in agents ==> agents[name].Name() == name)
  }

  /** `len(self.agents)` counts the registration-ordered names. */
  lemma RegistrySize(names: seq<string>, agents: map<string, Agent>)
    requires Registry(names, agents)
    ensures |agents| == |names|
  {
    DistinctCount(names);
    assert agents.Keys == set name | name in names;
  }

  /**
   * The consulted agents are the selected agents that are registered, none
   * listed twice. An answer either consulted no agent and has confidence 0.0,
   * or its confidence lies between 0.3 and 0.9.
   */
  lemma ProcessAnswer(query: string, names: seq<string>, agents: map<string, Agent>)
    requires Registry(names, agents)
    ensures var answer := Process(query, names, agents);
      && NoDuplicates(answer.agentsConsulted)
      && (forall name :: name in answer.agentsConsulted <==> name in agents && name in RelevantAgents(query, names))
      && (answer.agentsConsulted == [] ==> answer.confidence == 0.0)
      && (answer.agentsConsulted != [] ==> 0.3 <= answer.confidence <= 0.9)
  {
    var selected := RelevantAgents(query, names);
    var replies := Consulted(selected, agents, query);
    RouterSelection(query, names);
    ConsultedAgents(selected, agents, query);
    ConsultedConfidences(selected, agents, query);
    var registeredOnly := (name: string) => name in agents;
    FilterNoDuplicates(selected, registeredOnly);
    forall name ensures name in Map(replies, SourceOf) <==> name in agents && name in selected {
      FilterMembership(selected, registeredOnly, name);
    }
    if replies != [] {
      SynthesisConfidenceBounds(query, replies);
    }
  }

  /** Every selected agent that is registered is consulted, whichever agents are registered. */
  lemma ProcessConsultsSelected(query: string, names: seq<string>, agents: map<string, Agent>, name: string)
    requires Registry(names, agents)
    requires name in agents && name in RelevantAgents(query, names)
    ensures name in Process(query, names, agents).agentsConsulted
  {
    ProcessAnswer(query, names, agents);
  }

  /**
   * With the crypto-economics agent registered, a query that mentions "defi"
   * or "yield" routes to that agent and reaches its DeFi helper, whose general
   * lines appear in the answer attributed to it.
   */
  lemma DefiQueriesAnswered(query: string, names: seq<string>, agents: map<string, Agent>)
    requires Registry(names, agents)
    requires CE.AgentName in agents
    requires Contains(Lower(query), "defi") || Contains(Lower(query), "yield")
    ensures CE.AgentName in Process(query, names, agents).agentsConsulted
    ensures forall line :: line in CE.DefiInsights ==>
      Tagged(line, CE.AgentName) in Process(query, names, agents).insights
    ensures forall line :: line in CE.DefiRecommendations ==>
      Tagged(line, CE.AgentName) in Process(query, names, agents).recommendations
  {
    DefiQueryRoutes(query, names);
    assert agents[CE.AgentName] == CryptoEconomicsAgent;
    DefiLinesAnswered(query, RelevantAgents(query, names), agents);
  }

  /** A query mentioning "defi" or "yield" selects the crypto-economics agent and asks its DeFi helper. */
  lemma DefiQueryRoutes(query: string, names: seq<string>)
    requires NoDuplicates(names)
    requires Contains(Lower(query), "defi") || Contains(Lower(query), "yield")
    ensures CE.AgentName in RelevantAgents(query, names) && CE.AsksDefi(query)
  {
    var ql := Lower(query);
    assert AnyIn(TokenTerms, ql) && CE.AsksDefi(query) by {
      if Contains(ql, "defi") {
        assert "defi" in TokenTerms && "defi" in CE.DefiTerms;
      } else {
        assert "yield" in TokenTerms && "yield" in CE.DefiTerms;
      }
    }
    RouterSelection(query, names);
    assert CE.AgentName in RoutingOrder && Routes(ql, CE.AgentName);
  }

  /** When the crypto-economics agent is selected for a DeFi query, the answer holds its DeFi lines under its name. */
  lemma DefiLinesAnswered(query: string, selected: seq<string>, agents: map<string, Agent>)
    requires CE.AgentName in agents && agents[CE.AgentName] == CryptoEconomicsAgent
    requires CE.AgentName in selected && CE.AsksDefi(query)
    ensures CE.AgentName in Synthesis(query, Consulted(selected, agents, query)).agentsConsulted
    ensures forall line :: line in CE.DefiInsights ==>
      Tagged(line, CE.AgentName) in Synthesis(query, Consulted(selected, agents, query)).insights
    ensures forall line :: line in CE.DefiRecommendations ==>
      Tagged(line, CE.AgentName) in Synthesis(query, Consulted(selected, agents, query)).recommendations
  {
    var replies := Consulted(selected, agents, query);
    var j := CryptoReplyIndex(query, selected, agents);
    assert Map(replies, SourceOf)[j] == CE.AgentName;
    DefiLinesInReply(query);
    LinesCollected(replies, j, InsightItems, CE.DefiInsights);
    LinesCollected(replies, j, RecommendationItems, CE.DefiRecommendations);
  }

  /** A DeFi query's crypto-economics reply lists the DeFi helper's lines. */
  lemma DefiLinesInReply(query: string)
    requires CE.AsksDefi(query)
    ensures forall line :: line in CE.DefiInsights ==> line in CryptoEconomicsAgent.Respond(query).insights
    ensures forall line :: line in CE.DefiRecommendations ==> line in CryptoEconomicsAgent.Respond(query).recommendations
  {
    CryptoReplyLines(query);
  }

  /** Where the crypto-economics agent is consulted, its reply is among the replies. */
  lemma CryptoReplyIndex(query: string, selected: seq<string>, agents: map<string, Agent>) returns (j: nat)
    requires CE.AgentName in agents && agents[CE.AgentName] == CryptoEconomicsAgent
    requires CE.AgentName in selected
    ensures var replies := Consulted(selected, agents, query);
      j < |replies| && replies[j] == (CE.AgentName, CryptoEconomicsAgent.Respond(query))
  {
    var replies := Consulted(selected, agents, query);
    ConsultedAgents(selected, agents, query);
    FilterMembership(selected, (name: string) => name in agents, CE.AgentName);
    var sources := Map(replies, SourceOf);
    var k :| 0 <= k < |sources| && sources[k] == CE.AgentName;
    j := k;
  }

  /** Lines that one reply lists are collected under that reply's agent. */
  lemma LinesCollected(replies: seq<(string, Reply)>, j: nat, kind: Kind, lines: seq<string>)
    requires j < |replies|
    requires forall line :: line in lines ==> line in Items(replies[j].1, kind)
    ensures forall line :: line in lines ==> Tagged(line, replies[j].0) in Collected(replies, kind)
  {
    CollectedAttribution(replies, kind);
    forall line | line in lines
      ensures Tagged(line, replies[j].0) in Collected(replies, kind)
    {
      var t := Tagged(line, replies[j].0);
      assert 0 <= j < |replies| && t.source == replies[j].0 && t.content in Items(replies[j].1, kind);
    }
  }

  /** The crypto-economics agent's reply carries exactly its analysis lines. */
  lemma CryptoReplyLines(query: string)
    ensures CryptoEconomicsAgent.Respond(query).insights == CE.Insights(query)
    ensures CryptoEconomicsAgent.Respond(query).recommendations == CE.Recommendations(query)
  {
  }

  /** The orchestrator's own status and each registered agent's health, in registration order. */
  datatype HealthReport = HealthReport(status: string, agentCount: nat, agents: seq<(string, Health)>)

  function HealthEntries(names: seq<string>, agents: map<string, Agent>): (r: seq<(string, Health)>)
    requires forall name :: name in names ==> name in agents
    ensures |r| == |names|
    ensures forall i :: 0 <= i < |names| ==> r[i] == (names[i], agents[names[i]].HealthCheck())
  {
    if names == [] then []
    else HealthEntries(names[..|names| - 1], agents) + [(names[|names| - 1], agents[names[|names| - 1]].HealthCheck())]
  }

  // ---------------------------------------------------------------------
  // The orchestrator object
  // ---------------------------------------------------------------------

  class FinChainOrchestrator {
    /** The registry's keys in insertion order (a Python dict keeps that order). */
    var names: seq<string>
    var agents: map<string, Agent>

    ghost predicate Valid()
      reads this
    {
      Registry(names, agents)
    }

    constructor()
      ensures Valid() && names == [] && agents == map[]
    {
      names := [];
      agents := map[];
    }

    /** `self.agents[agent.name] = agent`: a new name is appended, a known name keeps its place. */
    method RegisterAgent(agent: Agent)
      requires Valid()
      modifies this
      ensures Valid()
      ensures agents == old(agents)[agent.Name() := agent]
      ensures names == if agent.Name() in old(agents) then old(names) else old(names) + [agent.Name()]
    {
      var name := agent.Name();
      if name !in agents {
        names := names + [name];
      }
      agents := agents[name := agent];
      forall n | n in agents ensures agents[n].Name() == n {
        if n == name {
          assert agents[n] == agent;
        }
      }
    }

    /** `list(self.agents.keys())`: every registered name once, in registration order. */
    method GetRegisteredAgents() returns (r: seq<string>)
      requires Valid()
      ensures r == names
      ensures NoDuplicates(r) && |r| == |agents|
      ensures forall name :: name in r <==> name in agents
    {
      r := names;
      RegistrySize(names, agents);
    }

    /** `_identify_relevant_agents`: the five keyword checks, then the fallback to every registered agent. */
    method IdentifyRelevantAgents(query: string) returns (r: seq<string>)
      ensures r == RelevantAgents(query, names)
    {
      var queryLower := Lower(query);
      ghost var m0 := if AnyIn(BlockchainTerms, queryLower) then ["blockchain_analyst"] else [];
      ghost var m1 := if AnyIn(FintechTerms, queryLower) then ["fintech_navigator"] else [];
      ghost var m2 := if AnyIn(InvestmentTerms, queryLower) then ["ml_investment_strategist"] else [];
      ghost var m3 := if AnyIn(TokenTerms, queryLower) then ["crypto_economics"] else [];
      ghost var m4 := if AnyIn(RegulatoryTerms, queryLower) then ["regulatory_compliance"] else [];
      r := [];
      if AnyIn(BlockchainTerms, queryLower) {
        r := r + ["blockchain_analyst"];
      }
      assert r == m0;
      if AnyIn(FintechTerms, queryLower) {
        r := r + ["fintech_navigator"];
      }
      assert r == m0 + m1;
      if AnyIn(InvestmentTerms, queryLower) {
        r := r + ["ml_investment_strategist"];
      }
      assert r == m0 + m1 + m2;
      if AnyIn(TokenTerms, queryLower) {
        r := r + ["crypto_economics"];
      }
      assert r == m0 + m1 + m2 + m3;
      if AnyIn(RegulatoryTerms, queryLower) {
        r := r + ["regulatory_compliance"];
      }
      assert r == m0 + m1 + m2 + m3 + m4;
      KeywordMatchesUnfolded(queryLower);
      if r == [] {
        r := names;
      }
    }

    /** The consultation loop: each selected name that is registered is asked in turn. */
    method ConsultAgents(selected: seq<string>, query: string) returns (replies: seq<(string, Reply)>)
      ensures replies == Consulted(selected, agents, query)
    {
      replies := [];
      for i := 0 to |selected|
        invariant Consulted(selected[..i], agents, query) == replies
      {
        assert selected[..i + 1][..i] == selected[..i];
        var name := selected[i];
        if name in agents {
          var reply := Consult(agents[name], query);
          replies := replies + [(name, reply)];
        }
      }
      assert selected[..|selected|] == selected;
    }

    /** One of the inner loops of `_synthesize_responses`: append each item tagged with its agent. */
    method AppendAttributed(tagged: seq<Tagged>, items: seq<string>, source: string) returns (r: seq<Tagged>)
      ensures r == tagged + Attributed(items, source)
    {
      r := tagged;
      for k := 0 to |items|
        invariant r == tagged + Attributed(items[..k], source)
      {
        assert Attributed(items[..k + 1], source) == Attributed(items[..k], source) + [Tagged(items[k], source)];
        r := r + [Tagged(items[k], source)];
      }
      assert items[..|items|] == items;
    }

    /** `_synthesize_responses`: attribute every item to its agent and add up `confidence / n`. */
    method SynthesizeResponses(query: string, replies: seq<(string, Reply)>) returns (s: Synthesized)
      ensures s == Synthesis(query, replies)
    {
      var consulted := Map(replies, SourceOf);
      var insights: seq<Tagged> := [];
      var recommendations: seq<Tagged> := [];
      var confidence := 0.0;
      for i := 0 to |replies|
        invariant insights == Collected(replies[..i], InsightItems)
        invariant recommendations == Collected(replies[..i], RecommendationItems)
        invariant confidence == ScaledSum(replies[..i], |replies|)
      {
        assert replies[..i + 1][..i] == replies[..i];
        var name := replies[i].0;
        var response := replies[i].1;
        insights := AppendAttributed(insights, response.insights, name);
        recommendations := AppendAttributed(recommendations, response.recommendations, name);
        if response.confidence.Some? {
          confidence := confidence + response.confidence.value / (|replies| as real);
        }
      }
      assert replies[..|replies|] == replies;
      if replies != [] {
        ScaledSumIsMean(replies, |replies|);
      }
      s := Synthesized(query, consulted, insights, recommendations, confidence);
    }

    /** `process_query`. */
    method ProcessQuery(query: string) returns (answer: Synthesized)
      ensures answer == Process(query, names, agents)
    {
      var relevant := IdentifyRelevantAgents(query);
      var consulted := ConsultAgents(relevant, query);
      answer := SynthesizeResponses(query, consulted);
    }

    /** `health_check`: the orchestrator is healthy, counts its agents, and reports each agent's health. */
    method HealthCheck() returns (report: HealthReport)
      requires Valid()
      ensures report.status == "healthy"
      ensures report.agentCount == |agents|
      ensures report.agents == HealthEntries(names, agents)
    {
      var entries := [];
      for i := 0 to |names|
        invariant entries == HealthEntries(names[..i], agents)
      {
        assert names[..i + 1][..i] == names[..i];
        var name := names[i];
        entries := entries + [(name, agents[name].HealthCheck())];
      }
      assert names[..|names|] == names;
      RegistrySize(names, agents);
      report := HealthReport("healthy", |agents|, entries);
    }
  }
}
