/**
 * The fintech navigator agent: four independent keyword tests, each running a
 * helper that appends to the reply; regulatory impact per region; and the
 * analysis of one market trend looked up by its normalised name.
 *
 * The four tables are fields of the agent. The base constructor fills them
 * with sample data through `_initialize_agent`, and the agent's own
 * constructor then rebinds every one of them to an empty dictionary; so the
 * operations take the tables as a parameter, the agent as registered runs on
 * `Initialized`, and `SampleData` is the state the sample data was meant to
 * leave.
 *
 * Numbers that the source renders with a format specification (growth and
 * adoption rates as whole percentages, market sizes in billions with one
 * decimal) are stored in the tables below already rendered.
 */
module FintechNavigator {
  import opened Wrappers
  import opened Text
  import opened AgentApi
  import opened Seqs

  const AgentName := "fintech_navigator"
  const ModulePath := "agents.fintech_navigator.fintech_navigator"

  // ---------------------------------------------------------------- tables

  datatype Trend = Trend(
    key: string, growthRate: real, growthText: string, marketSize: nat, marketSizeText: string,
    keyPlayers: seq<string>, maturity: string)

  const FintechTrends: seq<Trend> := [
    Trend("embedded_finance", 0.26, "26%", 43000000000, "43.0", ["Stripe", "Plaid", "Marqeta"], "growing"),
    Trend("decentralized_finance", 0.18, "18%", 11000000000, "11.0", ["MakerDAO", "Compound", "Aave"], "emerging"),
    Trend("buy_now_pay_later", 0.22, "22%", 125000000000, "125.0", ["Klarna", "Afterpay", "Affirm"], "maturing")]

  datatype RegulatoryUpdate = RegulatoryUpdate(key: string, region: string, status: string, impact: string, summary: string)

  const EuSummary := "Comprehensive framework for crypto-assets (MiCA) and digital operational resilience (DORA)"
  const UsSummary := "Proposed framework for regulating stablecoin issuers as banks"
  const UkSummary := "Mandatory API access to banking data for authorized third parties"

  const RegulatoryUpdates: seq<RegulatoryUpdate> := [
    RegulatoryUpdate("eu_digital_finance_package", "Europe", "implemented", "high", EuSummary),
    RegulatoryUpdate("us_stablecoin_regulation", "United States", "proposed", "medium", UsSummary),
    RegulatoryUpdate("uk_open_banking", "United Kingdom", "implemented", "high", UkSummary)]

  datatype PaymentSystem = PaymentSystem(
    key: string, adoptionText: string, regions: seq<string>, keyTechnologies: seq<string>, integrationComplexity: string)

  const PaymentSystems: seq<PaymentSystem> := [
    PaymentSystem("real_time_payments", "65%", ["US", "EU", "UK", "Asia"], ["ISO 20022", "API connectivity"], "medium"),
    PaymentSystem("crypto_payments", "12%", ["Global", "El Salvador"], ["Lightning Network", "Stablecoins"], "high"),
    PaymentSystem("mobile_wallets", "78%", ["Global", "China", "Africa"], ["NFC", "QR codes"], "low")]

  datatype FinancialApi = FinancialApi(
    key: string, standards: seq<string>, dataAccess: seq<string>, security: string, marketPenetration: string)

  const FinancialApis: seq<FinancialApi> := [
    FinancialApi("open_banking", ["UK Open Banking", "Berlin Group", "FDX"],
                 ["Account information", "Payment initiation"], "OAuth 2.0 + MTLS", "high"),
    FinancialApi("payment_processing", ["ISO 8583", "ISO 20022"],
                 ["Payment processing", "Authorization"], "TLS + API keys", "high"),
    FinancialApi("financial_data", ["FIX Protocol", "REST APIs"],
                 ["Market data", "Analytics", "Risk assessment"], "API keys + IP whitelisting", "medium")]

  /** The agent's four tables, each in its key order. */
  datatype Tables = Tables(fintechTrends: seq<Trend>, regulatoryUpdates: seq<RegulatoryUpdate>,
                           paymentSystems: seq<PaymentSystem>, financialApis: seq<FinancialApi>)

  /** The tables as the constructor leaves them: rebound to empty dictionaries. */
  const Initialized := Tables([], [], [], [])

  /** The tables as `_initialize_sample_fintech_data` fills them. */
  const SampleData := Tables(FintechTrends, RegulatoryUpdates, PaymentSystems, FinancialApis)

  /** The region keyword table, in the source's key order. */
  const RegionKeywords: seq<(string, string)> := [
    ("europe", "Europe"), ("eu", "Europe"), ("european", "Europe"),
    ("us", "United States"), ("usa", "United States"), ("america", "United States"),
    ("uk", "United Kingdom"), ("britain", "United Kingdom")]

  const TrendTerms: seq<string> := ["trend", "market", "growth", "emerging", "technology", "innovation"]
  const RegulationTerms: seq<string> := ["regulation", "compliance", "legal", "law", "framework", "policy"]
  const PaymentTerms: seq<string> := ["payment", "transaction", "transfer", "wallet", "banking"]
  const ApiTerms: seq<string> := ["api", "integration", "data", "connect", "platform", "open banking"]

  /** `key.replace("_", " ")`: how a table key is looked for in a query. */
  function Spaced(key: string): string { Replace(key, '_', ' ') }

  /** `key.replace("_", " ").title()`: how a table key is displayed. */
  function DisplayName(key: string): string { Title(Spaced(key)) }

  /** The key, with underscores read as spaces, occurs in the lower-cased query. */
  predicate Mentions(queryLower: string, key: string) { Contains(queryLower, Spaced(key)) }

  // --------------------------------------------------------- reply contents

  datatype TrendEntry =
    | MarketOverview
    | TrendDetail(category: string, growthRate: real, marketSize: nat, maturity: string, keyPlayers: seq<string>)

  /** What one helper (or one table entry inside a helper) appends to the reply. */
  datatype Part = Part(insights: seq<string>, recommendations: seq<string>, trends: seq<TrendEntry>)

  const Nothing := Part([], [], [])

  function Then(a: Part, b: Part): Part
  {
    Part(a.insights + b.insights, a.recommendations + b.recommendations, a.trends + b.trends)
  }

  lemma ThenAssociative(a: Part, b: Part, c: Part)
    ensures Then(Then(a, b), c) == Then(a, Then(b, c))
  {
    assert (a.insights + b.insights) + c.insights == a.insights + (b.insights + c.insights);
    assert (a.recommendations + b.recommendations) + c.recommendations
        == a.recommendations + (b.recommendations + c.recommendations);
    assert (a.trends + b.trends) + c.trends == a.trends + (b.trends + c.trends);
  }

  lemma NothingThen(a: Part)
    ensures Then(Nothing, a) == a
  {
    assert [] + a.insights == a.insights;
    assert [] + a.recommendations == a.recommendations;
    assert [] + a.trends == a.trends;
  }

  lemma ThenNothing(a: Part)
    ensures Then(a, Nothing) == a
  {
    assert a.insights + [] == a.insights;
    assert a.recommendations + [] == a.recommendations;
    assert a.trends + [] == a.trends;
  }

  /** The parts of a list of entries, in list order. */
  function PartsOf<T>(items: seq<T>, f: T -> Part): Part
  {
    if items == [] then Nothing else Then(PartsOf(items[..|items| - 1], f), f(items[|items| - 1]))
  }

  // Trends.

  const GeneralTrends := Part(
    ["Embedded finance continues to be the fastest-growing fintech sector with a 26% annual growth rate",
     "Regulatory technology (RegTech) is gaining importance as financial regulations become more complex",
     "Traditional banks are increasingly partnering with fintech startups rather than competing directly"],
    ["Focus on open banking and API-first solutions for maximum market connectivity",
     "Monitor the impact of BNPL regulations which may constrain growth in that sector"],
    [MarketOverview])

  function MaturityAdvice(t: Trend): seq<string>
  {
    var name := DisplayName(t.key);
    if t.maturity == "emerging" then ["Consider early strategic investments in " + name + " for long-term positioning"]
    else if t.maturity == "growing" then ["Build partnerships with established " + name + " providers to enhance your offerings"]
    else if t.maturity == "maturing" then ["Focus on differentiation and value-add features in the competitive " + name + " space"]
    else []
  }

  function TrendPart(t: Trend): Part
  {
    var name := DisplayName(t.key);
    Part([name + " market is growing at " + t.growthText + " annually with an estimated market size of $"
          + t.marketSizeText + "B",
          "Key players in " + name + ": " + Join(", ", t.keyPlayers)],
         MaturityAdvice(t),
         [TrendDetail(name, t.growthRate, t.marketSize, t.maturity, t.keyPlayers)])
  }

  function SpecificTrends(tables: Tables, queryLower: string): seq<Trend>
  {
    Filter(tables.fintechTrends, (t: Trend) => Mentions(queryLower, t.key))
  }

  /** What `_analyze_fintech_trends` appends for a query. */
  function TrendsAnalysis(tables: Tables, query: string): Part
  {
    var specific := SpecificTrends(tables, Lower(query));
    if specific == [] then GeneralTrends else PartsOf(specific, TrendPart)
  }

  // Regulations.

  const GeneralRegulations := Part(
    ["Global financial regulations are becoming increasingly harmonized for digital assets and payments",
     "Regulatory focus on consumer protection and data privacy is intensifying across major markets",
     "Compliance requirements for fintech firms are growing more complex, creating barriers to entry"],
    ["Invest in flexible compliance infrastructure that can adapt to evolving regulations",
     "Consider regulatory requirements in product design from the earliest stages"],
    [])

  function StatusAdvice(u: RegulatoryUpdate): seq<string>
  {
    var name := DisplayName(u.key);
    if u.status == "proposed" then ["Monitor developments in " + name + " and prepare contingency plans"]
    else if u.status == "implemented" then ["Ensure compliance with " + name + " requirements immediately"]
    else []
  }

  function RegulationPart(u: RegulatoryUpdate): Part
  {
    var name := DisplayName(u.key);
    Part([name + " in " + u.region + " is currently " + u.status + " with " + u.impact + " impact",
          "Summary: " + u.summary],
         StatusAdvice(u), [])
  }

  function RegionUpdates(tables: Tables, region: string): seq<RegulatoryUpdate>
  {
    Filter(tables.regulatoryUpdates, (u: RegulatoryUpdate) => u.region == region)
  }

  function HighImpactUpdates(tables: Tables, region: string): seq<RegulatoryUpdate>
  {
    Filter(tables.regulatoryUpdates, (u: RegulatoryUpdate) => u.region == region && u.impact == "high")
  }

  /** What `_analyze_regulations` appends for one occurrence of a region. */
  function RegionPart(tables: Tables, region: string): Part
  {
    var regs := RegionUpdates(tables, region);
    var high := HighImpactUpdates(tables, region);
    if regs == [] then Nothing
    else Part(
      [region + " has " + NatToString(|regs|) + " major regulatory frameworks affecting fintech operations"]
      + (if high == [] then []
         else ["High-impact regulations in " + region + ": "
               + Join(", ", Map(high, (u: RegulatoryUpdate) => DisplayName(u.key)))]),
      ["Consider regulatory expertise specific to " + region + " for expansion plans"], [])
  }

  /** The parts of a list of regions, in list order. */
  function RegionParts(tables: Tables, regions: seq<string>): Part
  {
    if regions == [] then Nothing
    else Then(RegionParts(tables, regions[..|regions| - 1]), RegionPart(tables, regions[|regions| - 1]))
  }

  function SpecificRegulations(tables: Tables, queryLower: string): seq<RegulatoryUpdate>
  {
    Filter(tables.regulatoryUpdates, (u: RegulatoryUpdate) => Mentions(queryLower, u.key))
  }

  function RegionOf(kv: (string, string)): string { kv.1 }

  function MatchedKeywords(queryLower: string): seq<(string, string)>
  {
    Filter(RegionKeywords, (kv: (string, string)) => Contains(queryLower, kv.0))
  }

  /** One region per matching keyword, so a region can occur several times. */
  function Regions(queryLower: string): seq<string>
  {
    Map(MatchedKeywords(queryLower), RegionOf)
  }

  /** What `_analyze_regulations` appends for a query. */
  function RegulationsAnalysis(tables: Tables, query: string): Part
  {
    var specific := SpecificRegulations(tables, Lower(query));
    var regions := Regions(Lower(query));
    if specific == [] && regions == [] then GeneralRegulations
    else Then(PartsOf(specific, RegulationPart), RegionParts(tables, regions))
  }

  // Payment systems.

  const GeneralPayments := Part(
    ["Real-time payment systems are becoming the global standard with 65% adoption in major economies",
     "Mobile wallets have reached 78% adoption in developed markets, led by contactless payments",
     "Cryptocurrency payment acceptance is growing but remains niche at 12% global adoption"],
    ["Implement real-time payment capabilities to meet growing consumer expectations",
     "Ensure mobile wallet compatibility across your payment stack"],
    [])

  function ComplexityAdvice(p: PaymentSystem): seq<string>
  {
    var name := DisplayName(p.key);
    if p.integrationComplexity == "low" then
      ["Implement " + name + " as a priority due to high ROI and low integration complexity"]
    else if p.integrationComplexity == "medium" then
      ["Plan a phased approach to " + name + " integration, focusing on high-value use cases first"]
    else if p.integrationComplexity == "high" then
      ["Consider partnership with specialized providers for " + name + " integration to reduce complexity"]
    else []
  }

  function PaymentPart(p: PaymentSystem): Part
  {
    var name := DisplayName(p.key);
    Part([name + " have " + p.adoptionText + " adoption across " + Join(", ", p.regions),
          "Key technologies for " + name + ": " + Join(", ", p.keyTechnologies)],
         ComplexityAdvice(p), [])
  }

  function SpecificPaymentSystems(tables: Tables, queryLower: string): seq<PaymentSystem>
  {
    Filter(tables.paymentSystems, (p: PaymentSystem) => Mentions(queryLower, p.key))
  }

  /** What `_analyze_payment_systems` appends for a query. */
  function PaymentsAnalysis(tables: Tables, query: string): Part
  {
    var specific := SpecificPaymentSystems(tables, Lower(query));
    if specific == [] then GeneralPayments else PartsOf(specific, PaymentPart)
  }

  // Financial APIs.

  const GeneralApis := Part(
    ["API-first infrastructure is becoming the standard for financial services delivery",
     "Open Banking APIs have seen rapid adoption with PSD2 in Europe and similar initiatives globally",
     "Financial data APIs are consolidating through major acquisitions (e.g., Visa-Plaid, Mastercard-Finicity)"],
    ["Design with API-first architecture to maximize flexibility and partnership opportunities",
     "Standardize API security using OAuth 2.0 and MTLS for industry best practices"],
    [])

  function ApiPart(a: FinancialApi): Part
  {
    var name := DisplayName(a.key);
    Part([name + " APIs use standards including: " + Join(", ", a.standards),
          name + " APIs provide access to: " + Join(", ", a.dataAccess),
          "Market penetration: " + a.marketPenetration + ", Security: " + a.security],
         [if a.marketPenetration == "high" then "Prioritize " + name + " API integration as part of core infrastructure"
          else "Evaluate " + name + " API providers based on data quality and reliability metrics"],
         [])
  }

  function SpecificApis(tables: Tables, queryLower: string): seq<FinancialApi>
  {
    Filter(tables.financialApis, (a: FinancialApi) => Mentions(queryLower, a.key))
  }

  /** What `_analyze_financial_apis` appends for a query. */
  function ApisAnalysis(tables: Tables, query: string): Part
  {
    var specific := SpecificApis(tables, Lower(query));
    if specific == [] then GeneralApis else PartsOf(specific, ApiPart)
  }

  // The whole reply.

  predicate AsksTrends(query: string) { AnyIn(TrendTerms, Lower(query)) }
  predicate AsksRegulations(query: string) { AnyIn(RegulationTerms, Lower(query)) }
  predicate AsksPayments(query: string) { AnyIn(PaymentTerms, Lower(query)) }
  predicate AsksApis(query: string) { AnyIn(ApiTerms, Lower(query)) }

  /** Everything `process_query` appends, helper by helper in the source's order. */
  function Analysis(tables: Tables, query: string): Part
  {
    Then(Then(Then(
      if AsksTrends(query) then TrendsAnalysis(tables, query) else Nothing,
      if AsksRegulations(query) then RegulationsAnalysis(tables, query) else Nothing),
      if AsksPayments(query) then PaymentsAnalysis(tables, query) else Nothing),
      if AsksApis(query) then ApisAnalysis(tables, query) else Nothing)
  }

  // ------------------------------------------------------------- lemmas

  /** Entries that each add the same number of lines add that many per entry. */
  lemma {:induction false} PartsOfSizes<T>(items: seq<T>, f: T -> Part, ni: nat, nr: nat, nt: nat)
    requires forall x :: x in items ==>
      |f(x).insights| == ni && |f(x).recommendations| == nr && |f(x).trends| == nt
    ensures |PartsOf(items, f).insights| == ni * |items|
    ensures |PartsOf(items, f).recommendations| == nr * |items|
    ensures |PartsOf(items, f).trends| == nt * |items|
  {
    if items != [] {
      var init := items[..|items| - 1];
      var last := items[|items| - 1];
      forall x | x in init
        ensures |f(x).insights| == ni && |f(x).recommendations| == nr && |f(x).trends| == nt
      {
        assert x in items;
      }
      assert last in items;
      PartsOfSizes(init, f, ni, nr, nt);
      var whole, front := PartsOf(items, f), PartsOf(init, f);
      assert whole == Then(front, f(last));
      assert |whole.insights| == |front.insights| + ni;
      assert |whole.recommendations| == |front.recommendations| + nr;
      assert |whole.trends| == |front.trends| + nt;
      MulSucc(ni, |init|);
      MulSucc(nr, |init|);
      MulSucc(nt, |init|);
    }
  }

  lemma MulSucc(a: nat, n: nat)
    ensures a * (n + 1) == a * n + a
  {
  }

  // The tables as constructed.

  /** Without regulatory updates, no region adds anything. */
  lemma {:induction false} RegionPartsWithoutUpdates(tables: Tables, regions: seq<string>)
    requires tables.regulatoryUpdates == []
    ensures RegionParts(tables, regions) == Nothing
  {
    if regions != [] {
      RegionPartsWithoutUpdates(tables, regions[..|regions| - 1]);
      assert RegionPart(tables, regions[|regions| - 1]) == Nothing;
      NothingThen(Nothing);
    }
  }

  /**
   * With the tables the constructor leaves, the trend, payment and API
   * helpers always append exactly their general lines; the regulation helper
   * appends its general lines when no region keyword occurs, and nothing when
   * one does.
   */
  lemma InitializedHelpers(query: string)
    ensures TrendsAnalysis(Initialized, query) == GeneralTrends
    ensures RegulationsAnalysis(Initialized, query)
         == if Regions(Lower(query)) == [] then GeneralRegulations else Nothing
    ensures PaymentsAnalysis(Initialized, query) == GeneralPayments
    ensures ApisAnalysis(Initialized, query) == GeneralApis
  {
    RegionPartsWithoutUpdates(Initialized, Regions(Lower(query)));
    NothingThen(Nothing);
  }

  /**
   * As constructed, the agent says nothing about a query exactly when no trend,
   * payment or API keyword occurs and a regulation keyword, if one occurs,
   * comes with a region keyword.
   */
  predicate Silent(query: string)
  {
    !AsksTrends(query) && !AsksPayments(query) && !AsksApis(query)
    && (AsksRegulations(query) ==> Regions(Lower(query)) != [])
  }

  /** As constructed, the reply is empty, with the floor confidence of 0.3, exactly when the query is silent. */
  lemma InitializedEmptyReply(query: string)
    ensures Analysis(Initialized, query).insights == [] <==> Silent(query)
    ensures Analysis(Initialized, query).recommendations == [] <==> Silent(query)
    ensures Confidence(|Analysis(Initialized, query).insights|, |Analysis(Initialized, query).recommendations|) == 0.3
        <==> Silent(query)
  {
    InitializedHelpers(query);
  }

  /**
   * "eu law" asks about regulations and names a region, and holds no other
   * topic keyword; so as constructed the agent appends nothing to it, and its
   * confidence is the floor of 0.3.
   */
  lemma RegionQueryEmptyReply()
    ensures AsksRegulations(EuLaw) && Regions(EuLaw) != []
    ensures Analysis(Initialized, EuLaw) == Nothing
    ensures Confidence(|Analysis(Initialized, EuLaw).insights|,
                       |Analysis(Initialized, EuLaw).recommendations|) == 0.3
  {
    EuLawAsksRegulations();
    EuLawNamesRegion();
    EuLawLacksOtherTopics();
    EuLawLower();
    InitializedHelpers(EuLaw);
    assert RegulationsAnalysis(Initialized, EuLaw) == Nothing;
    NothingThen(Nothing);
    assert Analysis(Initialized, EuLaw) == Then(Then(Then(Nothing, Nothing), Nothing), Nothing);
  }

  const EuLaw := "eu law"

  lemma EuLawLower()
    ensures Lower(EuLaw) == EuLaw
  {
    LowerIdentity(EuLaw);
  }

  lemma EuLawAsksRegulations()
    ensures AsksRegulations(EuLaw)
  {
    EuLawLower();
    ContainsWitness(EuLaw, "law", 3);
    assert "law" in RegulationTerms;
  }

  lemma EuLawNamesRegion()
    ensures Regions(EuLaw) != []
  {
    ContainsWitness(EuLaw, "eu", 0);
    FilterMembership(RegionKeywords, (kv: (string, string)) => Contains(EuLaw, kv.0), ("eu", "Europe"));
  }

  lemma EuLawLacksOtherTopics()
    ensures !AsksTrends(EuLaw) && !AsksPayments(EuLaw) && !AsksApis(EuLaw)
  {
    EuLawLower();
    NoneContained(EuLaw, TrendTerms, [0, 0, 0, 1, 0, 0]);
    NoneContained(EuLaw, PaymentTerms, [0, 0, 0, 5, 0]);
    NoneContained(EuLaw, ApiTerms, [1, 0, 0, 0, 0, 0]);
  }

  // The sample tables.

  /**
   * With the sample tables, the trend helper either gives the three general
   * insights, two recommendations and the market overview, or, for every trend
   * named in the query, two insights, one recommendation and one trend entry.
   */
  lemma TrendsAnalysisSizes(query: string)
    ensures var specific := SpecificTrends(SampleData, Lower(query));
      var a := TrendsAnalysis(SampleData, query);
      if specific == [] then a == GeneralTrends && |a.insights| == 3 && |a.recommendations| == 2
      else |a.insights| == 2 * |specific| && |a.recommendations| == |specific| && |a.trends| == |specific|
  {
    var specific := SpecificTrends(SampleData, Lower(query));
    forall t | t in specific
      ensures |TrendPart(t).insights| == 2 && |TrendPart(t).recommendations| == 1 && |TrendPart(t).trends| == 1
    {
      FilterMembership(FintechTrends, (t: Trend) => Mentions(Lower(query), t.key), t);
    }
    PartsOfSizes(specific, TrendPart, 2, 1, 1);
  }

  /** Every entry of the region keyword table names a region that has sample regulatory updates. */
  lemma RegionsHaveUpdates(queryLower: string)
    ensures forall r :: r in Regions(queryLower) ==> r in ["Europe", "United States", "United Kingdom"]
    ensures forall r :: r in Regions(queryLower) ==> RegionUpdates(SampleData, r) != []
  {
    var matched := MatchedKeywords(queryLower);
    forall r | r in Regions(queryLower)
      ensures r in ["Europe", "United States", "United Kingdom"] && RegionUpdates(SampleData, r) != []
    {
      var i :| 0 <= i < |matched| && Regions(queryLower)[i] == r;
      FilterMembership(RegionKeywords, (kv: (string, string)) => Contains(queryLower, kv.0), matched[i]);
      var u := if r == "Europe" then RegulatoryUpdates[0]
               else if r == "United States" then RegulatoryUpdates[1]
               else RegulatoryUpdates[2];
      FilterMembership(RegulatoryUpdates, (u: RegulatoryUpdate) => u.region == r, u);
    }
  }

  /** With the sample tables, each region mentioned contributes at least one insight and exactly one recommendation. */
  lemma {:induction false} RegionPartsSizes(regions: seq<string>)
    requires forall r :: r in regions ==> RegionUpdates(SampleData, r) != []
    ensures |RegionParts(SampleData, regions).insights| >= |regions|
    ensures |RegionParts(SampleData, regions).recommendations| == |regions|
  {
    if regions != [] {
      var init := regions[..|regions| - 1];
      forall r | r in init ensures RegionUpdates(SampleData, r) != [] {
        assert r in regions;
      }
      assert regions[|regions| - 1] in regions;
      RegionPartsSizes(init);
    }
  }

  /** With the sample tables, the regulation helper always adds at least one insight and one recommendation. */
  lemma RegulationsAnalysisNonEmpty(query: string)
    ensures |RegulationsAnalysis(SampleData, query).insights| >= 1
    ensures |RegulationsAnalysis(SampleData, query).recommendations| >= 1
  {
    var specific := SpecificRegulations(SampleData, Lower(query));
    var regions := Regions(Lower(query));
    forall u | u in specific
      ensures |RegulationPart(u).insights| == 2 && |RegulationPart(u).recommendations| == 1
           && |RegulationPart(u).trends| == 0
    {
      FilterMembership(RegulatoryUpdates, (u: RegulatoryUpdate) => Mentions(Lower(query), u.key), u);
    }
    PartsOfSizes(specific, RegulationPart, 2, 1, 0);
    RegionsHaveUpdates(Lower(query));
    RegionPartsSizes(regions);
  }

  /** With the sample tables, the payment helper always adds at least two insights and one recommendation. */
  lemma PaymentsAnalysisNonEmpty(query: string)
    ensures |PaymentsAnalysis(SampleData, query).insights| >= 2
    ensures |PaymentsAnalysis(SampleData, query).recommendations| >= 1
  {
    var specific := SpecificPaymentSystems(SampleData, Lower(query));
    forall p | p in specific
      ensures |PaymentPart(p).insights| == 2 && |PaymentPart(p).recommendations| == 1
           && |PaymentPart(p).trends| == 0
    {
      FilterMembership(PaymentSystems, (p: PaymentSystem) => Mentions(Lower(query), p.key), p);
    }
    PartsOfSizes(specific, PaymentPart, 2, 1, 0);
  }

  /** Whatever the tables, the API helper always adds at least three insights and one recommendation. */
  lemma ApisAnalysisNonEmpty(tables: Tables, query: string)
    ensures |ApisAnalysis(tables, query).insights| >= 3
    ensures |ApisAnalysis(tables, query).recommendations| >= 1
  {
    var specific := SpecificApis(tables, Lower(query));
    PartsOfSizes(specific, ApiPart, 3, 1, 0);
  }

  /**
   * With the sample tables, the reply is empty, and its confidence the floor
   * of 0.3, exactly when the query triggers none of the four topics.
   */
  lemma EmptyReplyIffNoTopic(query: string)
    ensures Analysis(SampleData, query).insights == [] <==>
      !AsksTrends(query) && !AsksRegulations(query) && !AsksPayments(query) && !AsksApis(query)
    ensures Confidence(|Analysis(SampleData, query).insights|, |Analysis(SampleData, query).recommendations|) == 0.3 <==>
      !AsksTrends(query) && !AsksRegulations(query) && !AsksPayments(query) && !AsksApis(query)
  {
    TrendsAnalysisSizes(query);
    RegulationsAnalysisNonEmpty(query);
    PaymentsAnalysisNonEmpty(query);
    ApisAnalysisNonEmpty(SampleData, query);
  }

  lemma EuropeanKeywordMatches()
    ensures Contains("european", "europe") && Contains("european", "eu") && Contains("european", "european")
    ensures !Contains("european", "us") && !Contains("european", "usa") && !Contains("european", "america")
    ensures !Contains("european", "uk") && !Contains("european", "britain")
  {
    ContainsWitness("european", "europe", 0);
    ContainsWitness("european", "eu", 0);
    ContainsWitness("european", "european", 0);
    EuropeanLacksOtherKeywords();
  }

  lemma EuropeanLacksOtherKeywords()
    ensures !Contains("european", "us") && !Contains("european", "usa") && !Contains("european", "america")
    ensures !Contains("european", "uk") && !Contains("european", "britain")
  {
    MissingCharNotContained("european", "us", 1);
    MissingCharNotContained("european", "usa", 1);
    MissingCharNotContained("european", "america", 1);
    MissingCharNotContained("european", "uk", 1);
    MissingCharNotContained("european", "britain", 0);
  }

  /**
   * Region keywords are matched as substrings, each on its own: "european"
   * contains "europe", "eu" and "european", so Europe is analysed three times.
   */
  lemma EuropeanCountsThrice()
    ensures Regions("european") == ["Europe", "Europe", "Europe"]
  {
    EuropeanKeywordMatches();
    var k := RegionKeywords;
    KeywordsOfEurope((kv: (string, string)) => Contains("european", kv.0));
    assert MatchedKeywords("european") == [k[0], k[1], k[2]];
  }

  /** A test that accepts exactly the three Europe keywords keeps exactly those. */
  lemma KeywordsOfEurope(p: ((string, string)) -> bool)
    requires p(RegionKeywords[0]) && p(RegionKeywords[1]) && p(RegionKeywords[2])
    requires forall i :: 3 <= i < |RegionKeywords| ==> !p(RegionKeywords[i])
    ensures Filter(RegionKeywords, p) == RegionKeywords[..3]
  {
    var k := RegionKeywords;
    assert Filter(k[..0], p) == [];
    FilterPrefixStep(k, p, 0);
    FilterPrefixStep(k, p, 1);
    FilterPrefixStep(k, p, 2);
    FilterPrefixStep(k, p, 3);
    FilterPrefixStep(k, p, 4);
    FilterPrefixStep(k, p, 5);
    FilterPrefixStep(k, p, 6);
    FilterPrefixStep(k, p, 7);
    assert k[..8] == k;
  }

  // ------------------------------------------------------ direct lookups

  /** `trend_name.lower().replace(" ", "_")`. */
  function TrendKey(trendName: string): string { Replace(Lower(trendName), ' ', '_') }

  datatype TrendAnalysis =
    | TrendNotFound(error: string, recommendations: seq<string>)
    | TrendAnalysis(trend: string, growthRate: real, marketSize: nat, maturity: string,
                    keyPlayers: seq<string>, analysis: string, recommendations: seq<string>)

  const UnknownTrendAdvice := "Focus on established trends with verifiable market momentum"

  function MaturityOutlook(maturity: string): string
  {
    if maturity == "emerging" then "Consider early investment for long-term positioning"
    else if maturity == "growing" then "Build strategic partnerships with established players"
    else "Focus on differentiation in this maturing market"
  }

  function TrendAnalysisOf(trendName: string, t: Trend): TrendAnalysis
  {
    TrendAnalysis(
      trendName, t.growthRate, t.marketSize, t.maturity, t.keyPlayers,
      "The " + trendName + " market is " + t.maturity + " with a " + t.growthText + " annual growth rate",
      [MaturityOutlook(t.maturity),
       "Identify specific niches within " + trendName + " that align with your core competencies",
       "Monitor regulatory developments around " + trendName + " as they may impact growth trajectory"])
  }

  /** `analyze_market_trend`: the detail record of one trend, looked up by its normalised name. */
  function AnalyzeMarketTrend(tables: Tables, trendName: string): (r: TrendAnalysis)
    ensures r.TrendNotFound? <==> forall t :: t in tables.fintechTrends ==> t.key != TrendKey(trendName)
    ensures r.TrendNotFound? ==>
      r.error == "Trend " + trendName + " not found in database" && r.recommendations == [UnknownTrendAdvice]
    ensures r.TrendAnalysis? ==>
      exists t :: t in tables.fintechTrends && t.key == TrendKey(trendName) && r == TrendAnalysisOf(trendName, t)
  {
    var trends := tables.fintechTrends;
    var found := Filter(trends, (t: Trend) => t.key == TrendKey(trendName));
    if found == [] then
      assert forall t :: t in trends ==> t.key != TrendKey(trendName) by {
        forall t | t in trends ensures t.key != TrendKey(trendName) {
          FilterMembership(trends, (t: Trend) => t.key == TrendKey(trendName), t);
        }
      }
      TrendNotFound("Trend " + trendName + " not found in database", [UnknownTrendAdvice])
    else
      assert found[0] in found;
      FilterMembership(trends, (t: Trend) => t.key == TrendKey(trendName), found[0]);
      TrendAnalysisOf(trendName, found[0])
  }

  datatype RegulatoryImpact =
    | NoRegulations(error: string, recommendations: seq<string>)
    | RegulatoryImpact(region: string, totalRegulations: nat, highImpactCount: nat,
                       implementedCount: nat, proposedCount: nat, keyRegulations: seq<string>,
                       analysis: string, recommendations: seq<string>)

  const ConsultExpertsAdvice := "Consider consulting with regional regulatory experts"
  const ComplyNowAdvice := "Ensure compliance with implemented regulations immediately"
  const MonitorProposedAdvice := "Monitor proposed regulations and prepare contingency plans"

  /** The updates whose region equals the given one, ignoring case. */
  function UpdatesIn(tables: Tables, region: string): seq<RegulatoryUpdate>
  {
    Filter(tables.regulatoryUpdates, (u: RegulatoryUpdate) => Lower(u.region) == Lower(region))
  }

  /** Every update's status is one of the two the impact analysis counts. */
  predicate KnownStatuses(updates: seq<RegulatoryUpdate>)
  {
    forall u :: u in updates ==> u.status == "implemented" || u.status == "proposed"
  }

  /**
   * `get_regulatory_impact`: counts of the updates in one region by impact and
   * status. The two status counts cover every update when each status is one
   * of the two, as in the sample data.
   */
  function GetRegulatoryImpact(tables: Tables, region: string): (r: RegulatoryImpact)
    ensures r.NoRegulations? <==> forall u :: u in tables.regulatoryUpdates ==> Lower(u.region) != Lower(region)
    ensures r.NoRegulations? ==>
      r.error == "No regulations found for region " + region + " in database"
      && r.recommendations == [ConsultExpertsAdvice]
    ensures r.RegulatoryImpact? ==>
      && r.region == region
      && r.totalRegulations == |UpdatesIn(tables, region)| == |r.keyRegulations| > 0
      && r.highImpactCount <= r.totalRegulations
      && r.implementedCount + r.proposedCount <= r.totalRegulations
      && (KnownStatuses(tables.regulatoryUpdates) ==> r.implementedCount + r.proposedCount == r.totalRegulations)
      && |r.recommendations| == 3
  {
    var updates := tables.regulatoryUpdates;
    var inRegion := (u: RegulatoryUpdate) => Lower(u.region) == Lower(region);
    var regs := UpdatesIn(tables, region);
    if regs == [] then
      assert forall u :: u in updates ==> Lower(u.region) != Lower(region) by {
        forall u | u in updates ensures Lower(u.region) != Lower(region) {
          FilterMembership(updates, inRegion, u);
        }
      }
      NoRegulations("No regulations found for region " + region + " in database", [ConsultExpertsAdvice])
    else
      var high := Filter(regs, (u: RegulatoryUpdate) => u.impact == "high");
      var implemented := Filter(regs, (u: RegulatoryUpdate) => u.status == "implemented");
      var proposed := Filter(regs, (u: RegulatoryUpdate) => u.status == "proposed");
      assert regs[0] in regs;
      FilterMembership(updates, inRegion, regs[0]);
      FilterDisjointLength(regs, (u: RegulatoryUpdate) => u.status == "implemented",
                           (u: RegulatoryUpdate) => u.status == "proposed");
      assert KnownStatuses(updates) ==> |implemented| + |proposed| == |regs| by {
        if KnownStatuses(updates) {
          forall u | u in regs ensures u.status == "proposed" <==> u.status != "implemented" {
            FilterMembership(updates, inRegion, u);
          }
          FilterComplementLength(regs, (u: RegulatoryUpdate) => u.status == "implemented",
                                 (u: RegulatoryUpdate) => u.status == "proposed");
        }
      }
      RegulatoryImpact(
        region, |regs|, |high|, |implemented|, |proposed|,
        Map(regs, (u: RegulatoryUpdate) => DisplayName(u.key)),
        region + " has " + NatToString(|high|) + " high-impact regulations affecting financial services",
        [ComplyNowAdvice, MonitorProposedAdvice, "Consider specialized legal counsel for " + region + " operations"])
  }

  /**
   * As constructed, every trend lookup returns the not-found error and every
   * region lookup the no-regulations error; with the sample tables, each
   * sample trend and region is found.
   */
  lemma LookupsByState(trendName: string, region: string)
    ensures AnalyzeMarketTrend(Initialized, trendName).TrendNotFound?
    ensures GetRegulatoryImpact(Initialized, region).NoRegulations?
    ensures AnalyzeMarketTrend(SampleData, "Embedded Finance").TrendAnalysis?
    ensures GetRegulatoryImpact(SampleData, "Europe").RegulatoryImpact?
  {
    assert TrendKey("Embedded Finance") == "embedded_finance" by {
      assert Lower("Embedded Finance") == "embedded finance";
    }
    assert FintechTrends[0].key == "embedded_finance";
    assert Lower("Europe") == "europe";
    assert RegulatoryUpdates[0].region == "Europe";
  }

  // ------------------------------------------------------------ imperative

  /** The reply dictionary that `process_query` fills in place. */
  class Response {
    var insights: seq<string>
    var recommendations: seq<string>
    var trends: seq<TrendEntry>
    var confidence: real

    constructor ()
      ensures insights == [] && recommendations == [] && trends == [] && confidence == 0.0
    {
      insights, recommendations, trends, confidence := [], [], [], 0.0;
    }

    function Contents(): Part
      reads this
    {
      Part(insights, recommendations, trends)
    }

    /** Append one part's lines, in order. */
    method Append(p: Part)
      modifies this
      ensures Contents() == Then(old(Contents()), p)
      ensures confidence == old(confidence)
    {
      insights := insights + p.insights;
      recommendations := recommendations + p.recommendations;
      trends := trends + p.trends;
    }

    /** The loop `for item in items: <append item's lines>`. */
    method AppendEach<T>(items: seq<T>, f: T -> Part)
      modifies this
      ensures Contents() == Then(old(Contents()), PartsOf(items, f))
      ensures confidence == old(confidence)
    {
      for i := 0 to |items|
        invariant Contents() == Then(old(Contents()), PartsOf(items[..i], f))
        invariant confidence == old(confidence)
      {
        assert items[..i + 1][..i] == items[..i];
        Append(f(items[i]));
      }
      assert items[..|items|] == items;
    }

    method AnalyzeFintechTrends(tables: Tables, query: string)
      modifies this
      ensures Contents() == Then(old(Contents()), TrendsAnalysis(tables, query))
      ensures confidence == old(confidence)
    {
      var queryLower := Lower(query);
      var specific := Select(tables.fintechTrends, (t: Trend) => Mentions(queryLower, t.key));
      if specific == [] {
        Append(GeneralTrends);
      } else {
        AppendEach(specific, TrendPart);
      }
    }

    /** The loop `for region in regions: ...`, each occurrence of a region in turn. */
    method AppendRegions(tables: Tables, regions: seq<string>)
      modifies this
      ensures Contents() == Then(old(Contents()), RegionParts(tables, regions))
      ensures confidence == old(confidence)
    {
      ThenNothing(Contents());
      for i := 0 to |regions|
        invariant Contents() == Then(old(Contents()), RegionParts(tables, regions[..i]))
        invariant confidence == old(confidence)
      {
        assert regions[..i + 1][..i] == regions[..i];
        ThenAssociative(old(Contents()), RegionParts(tables, regions[..i]), RegionPart(tables, regions[i]));
        var regs := Select(tables.regulatoryUpdates, (u: RegulatoryUpdate) => u.region == regions[i]);
        if regs != [] {
          Append(RegionPart(tables, regions[i]));
        } else {
          ThenNothing(Contents());
        }
      }
      assert regions[..|regions|] == regions;
    }

    method AnalyzeRegulations(tables: Tables, query: string)
      modifies this
      ensures Contents() == Then(old(Contents()), RegulationsAnalysis(tables, query))
      ensures confidence == old(confidence)
    {
      var queryLower := Lower(query);
      var specific := Select(tables.regulatoryUpdates, (u: RegulatoryUpdate) => Mentions(queryLower, u.key));
      var matched := Select(RegionKeywords, (kv: (string, string)) => Contains(queryLower, kv.0));
      var regions := Map(matched, RegionOf);
      if specific == [] && regions == [] {
        Append(GeneralRegulations);
      } else {
        ghost var before := Contents();
        AppendEach(specific, RegulationPart);
        AppendRegions(tables, regions);
        ThenAssociative(before, PartsOf(specific, RegulationPart), RegionParts(tables, regions));
      }
    }

    method AnalyzePaymentSystems(tables: Tables, query: string)
      modifies this
      ensures Contents() == Then(old(Contents()), PaymentsAnalysis(tables, query))
      ensures confidence == old(confidence)
    {
      var queryLower := Lower(query);
      var specific := Select(tables.paymentSystems, (p: PaymentSystem) => Mentions(queryLower, p.key));
      if specific == [] {
        Append(GeneralPayments);
      } else {
        AppendEach(specific, PaymentPart);
      }
    }

    method AnalyzeFinancialApis(tables: Tables, query: string)
      modifies this
      ensures Contents() == Then(old(Contents()), ApisAnalysis(tables, query))
      ensures confidence == old(confidence)
    {
      var queryLower := Lower(query);
      var specific := Select(tables.financialApis, (a: FinancialApi) => Mentions(queryLower, a.key));
      if specific == [] {
        Append(GeneralApis);
      } else {
        AppendEach(specific, ApiPart);
      }
    }

    function ToReply(): Reply
      reads this
    {
      Reply(insights, recommendations, Some(confidence))
    }
  }

  /** `process_query` over the agent's tables: the four topic tests in order, then the shared confidence. */
  method ProcessQuery(tables: Tables, query: string) returns (response: Response)
    ensures fresh(response)
    ensures response.Contents() == Analysis(tables, query)
    ensures response.confidence
         == Confidence(|Analysis(tables, query).insights|, |Analysis(tables, query).recommendations|)
  {
    var queryLower := Lower(query);
    response := new Response();
    ghost var trends := if AsksTrends(query) then TrendsAnalysis(tables, query) else Nothing;
    ghost var regulations := if AsksRegulations(query) then RegulationsAnalysis(tables, query) else Nothing;
    ghost var payments := if AsksPayments(query) then PaymentsAnalysis(tables, query) else Nothing;
    ghost var apis := if AsksApis(query) then ApisAnalysis(tables, query) else Nothing;
    if AnyIn(TrendTerms, queryLower) {
      response.AnalyzeFintechTrends(tables, query);
      NothingThen(trends);
    }
    assert response.Contents() == trends;
    if AnyIn(RegulationTerms, queryLower) {
      response.AnalyzeRegulations(tables, query);
    } else {
      ThenNothing(response.Contents());
    }
    assert response.Contents() == Then(trends, regulations);
    if AnyIn(PaymentTerms, queryLower) {
      response.AnalyzePaymentSystems(tables, query);
    } else {
      ThenNothing(response.Contents());
    }
    assert response.Contents() == Then(Then(trends, regulations), payments);
    if AnyIn(ApiTerms, queryLower) {
      response.AnalyzeFinancialApis(tables, query);
    } else {
      ThenNothing(response.Contents());
    }
    assert response.Contents() == Analysis(tables, query);
    response.confidence := Confidence(|response.insights|, |response.recommendations|);
  }
}
