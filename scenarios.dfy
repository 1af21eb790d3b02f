/**
 * The orchestrator on the queries of its unit tests and on two edge cases:
 * a query whose keywords select only an agent that is not registered, and a
 * query without any keyword.
 */
module Scenarios {
  import opened Wrappers
  import opened Text
  import opened Seqs
  import opened Agents
  import opened Orchestrator

  const SmartContractQuery := "Analyze smart contract security"
  const PortfolioQuery := "Optimize my investment portfolio"

  lemma SmartContractQueryLower()
    ensures Lower(SmartContractQuery) == "analyze smart contract security"
  {
    LowerAppend("A", "nalyze smart contract security");
    LowerIdentity("nalyze smart contract security");
  }

  /** The security query mentions "smart contract", so the router selects the blockchain analyst. */
  lemma SmartContractQueryRoutes(registered: seq<string>)
    ensures "blockchain_analyst" in RelevantAgents(SmartContractQuery, registered)
  {
    assert Routes(Lower(SmartContractQuery), "blockchain_analyst") by {
      SmartContractQueryLower();
      ContainsWitness("analyze smart contract security", "smart contract", 8);
      assert "smart contract" in BlockchainTerms;
    }
    KeywordSelects(SmartContractQuery, registered, "blockchain_analyst");
  }

  lemma PortfolioQueryLower()
    ensures Lower(PortfolioQuery) == "optimize my investment portfolio"
  {
    LowerAppend("O", "ptimize my investment portfolio");
    LowerIdentity("ptimize my investment portfolio");
  }

  /** The portfolio query mentions "investment", so the router selects the investment strategist. */
  lemma PortfolioQueryRoutes(registered: seq<string>)
    ensures "ml_investment_strategist" in RelevantAgents(PortfolioQuery, registered)
  {
    assert Routes(Lower(PortfolioQuery), "ml_investment_strategist") by {
      PortfolioQueryLower();
      ContainsWitness("optimize my investment portfolio", "investment", 12);
      assert "investment" in InvestmentTerms;
    }
    KeywordSelects(PortfolioQuery, registered, "ml_investment_strategist");
  }

  /** "payment" matches the fintech keywords and no other agent's. */
  lemma PaymentKeywordMatches()
    ensures KeywordMatches("payment") == ["fintech_navigator"]
  {
    var h := "payment";
    assert !AnyIn(BlockchainTerms, h) by {
      NoneContained(h, BlockchainTerms, [0, 1, 0, 0]);
    }
    assert AnyIn(FintechTerms, h) by {
      ContainsWitness(h, "payment", 0);
      assert "payment" in FintechTerms;
    }
    assert !AnyIn(InvestmentTerms, h) by {
      NoneContained(h, InvestmentTerms, [0, 1, 1, 0]);
    }
    assert !AnyIn(TokenTerms, h) by {
      NoneContained(h, TokenTerms, [1, 0, 1, 1]);
    }
    assert !AnyIn(RegulatoryTerms, h) by {
      NoneContained(h, RegulatoryTerms, [0, 0, 0, 0]);
    }
    KeywordMatchesUnfolded(h);
  }

  /**
   * With only the blockchain analyst and the investment strategist
   * registered, a payment query selects the fintech navigator alone; it is
   * not registered, so no agent is consulted, the registered agents are not
   * used as a fallback, and the answer is empty with confidence 0.0.
   */
  lemma UnregisteredSelectionIsEmpty()
    ensures Process("payment", ["blockchain_analyst", "ml_investment_strategist"],
                    map["blockchain_analyst" := BlockchainAnalystAgent,
                        "ml_investment_strategist" := MLInvestmentStrategistAgent])
         == Synthesized("payment", [], [], [], 0.0)
  {
    PaymentKeywordMatches();
    assert Lower("payment") == "payment" by {
      LowerIdentity("payment");
    }
    var agents := map["blockchain_analyst" := BlockchainAnalystAgent,
                      "ml_investment_strategist" := MLInvestmentStrategistAgent];
    assert RelevantAgents("payment", ["blockchain_analyst", "ml_investment_strategist"]) == ["fintech_navigator"];
    assert "fintech_navigator" !in agents;
    assert ["fintech_navigator"][..0] == [];
    assert Consulted(["fintech_navigator"], agents, "payment") == [];
  }

  /** "hello" contains none of the router's keywords, so every registered agent is consulted. */
  lemma NoKeywordFallsBack(registered: seq<string>)
    ensures RelevantAgents("hello", registered) == registered
  {
    var h := "hello";
    assert Lower(h) == h by {
      LowerIdentity(h);
    }
    assert !AnyIn(BlockchainTerms, h) by {
      NoneContained(h, BlockchainTerms, [0, 0, 0, 0]);
    }
    assert !AnyIn(FintechTerms, h) by {
      NoneContained(h, FintechTerms, [0, 0, 0, 0]);
    }
    assert !AnyIn(InvestmentTerms, h) by {
      NoneContained(h, InvestmentTerms, [0, 0, 0, 0]);
    }
    assert !AnyIn(TokenTerms, h) by {
      NoneContained(h, TokenTerms, [0, 0, 0, 0]);
    }
    assert !AnyIn(RegulatoryTerms, h) by {
      NoneContained(h, RegulatoryTerms, [0, 0, 2, 0]);
    }
    assert KeywordMatches(h) == [] by {
      KeywordMatchesUnfolded(h);
    }
  }

  /** The unit test's fixture: an orchestrator holding the blockchain analyst and the investment strategist. */
  method SetUp() returns (orchestrator: FinChainOrchestrator)
    ensures fresh(orchestrator) && orchestrator.Valid()
    ensures orchestrator.names == ["blockchain_analyst", "ml_investment_strategist"]
    ensures orchestrator.agents == map["blockchain_analyst" := BlockchainAnalystAgent,
                                       "ml_investment_strategist" := MLInvestmentStrategistAgent]
  {
    orchestrator := new FinChainOrchestrator();
    orchestrator.RegisterAgent(BlockchainAnalystAgent);
    orchestrator.RegisterAgent(MLInvestmentStrategistAgent);
  }

  /**
   * The orchestrator unit test: list the registered agents, send the two
   * test queries, and check the orchestrator's health.
   */
  method TestSession() returns (registered: seq<string>, consulted1: seq<string>, consulted2: seq<string>,
                                report: HealthReport)
    ensures |registered| == 2
    ensures "blockchain_analyst" in registered && "ml_investment_strategist" in registered
    ensures "blockchain_analyst" in consulted1
    ensures "ml_investment_strategist" in consulted2
    ensures report.status == "healthy" && report.agentCount == 2
  {
    var orchestrator := SetUp();
    registered := orchestrator.GetRegisteredAgents();

    var response1 := orchestrator.ProcessQuery(SmartContractQuery);
    SmartContractQueryRoutes(orchestrator.names);
    ProcessConsultsSelected(SmartContractQuery, orchestrator.names, orchestrator.agents, "blockchain_analyst");
    consulted1 := response1.agentsConsulted;

    var response2 := orchestrator.ProcessQuery(PortfolioQuery);
    PortfolioQueryRoutes(orchestrator.names);
    ProcessConsultsSelected(PortfolioQuery, orchestrator.names, orchestrator.agents, "ml_investment_strategist");
    consulted2 := response2.agentsConsulted;

    report := orchestrator.HealthCheck();
  }
}
