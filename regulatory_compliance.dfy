/**
 * The regulatory compliance agent: jurisdiction, regulation and domain
 * matching for a query; the step-by-step risk assessment of one transaction;
 * and the compliance report for a framework and scope.
 *
 * The three tables are fields of the agent. The base constructor fills them
 * with sample data through `_initialize_agent`, and the agent's own
 * constructor then rebinds every one of them to an empty dictionary; so the
 * operations take the tables as a parameter, the agent as registered runs on
 * `Initialized`, and `SampleData` is the state the sample data was meant to
 * leave.
 */
module RegulatoryCompliance {
  import opened Wrappers
  import opened Text
  import opened AgentApi
  import opened Seqs

  const AgentName := "regulatory_compliance"
  const ModulePath := "agents.regulatory_compliance.regulatory_compliance"

  // ---------------------------------------------------------------- tables

  datatype Jurisdiction = Jurisdiction(
    code: string, name: string, keyRegulators: seq<string>, regulatoryApproach: string,
    cryptoStance: string, complianceComplexity: string)

  const Jurisdictions: seq<Jurisdiction> := [
    Jurisdiction("us", "United States", ["SEC", "CFTC", "FinCEN", "OCC", "FDIC"],
                 "multi-agency fragmented", "evolving", "high"),
    Jurisdiction("eu", "European Union", ["EBA", "ESMA", "ECB", "National Authorities"],
                 "harmonized framework", "regulated", "high"),
    Jurisdiction("uk", "United Kingdom", ["FCA", "PRA", "Bank of England"],
                 "principles-based", "regulated", "medium"),
    Jurisdiction("sg", "Singapore", ["MAS"], "centralized", "progressive", "medium"),
    Jurisdiction("in", "India", ["RBI", "SEBI", "IFSCA", "FIU-IND"],
                 "centralized-progressive", "evolving", "high")]

  datatype Regulation = Regulation(
    code: string, name: string, jurisdictions: seq<string>, keyRequirements: seq<string>,
    penalties: string, compliancePriority: string)

  const AmlKyc := Regulation(
    "aml_kyc", "Anti-Money Laundering / Know Your Customer", ["global", "us", "eu", "uk", "sg", "in"],
    ["Customer identification", "Transaction monitoring", "Suspicious activity reporting"],
    "Severe: criminal charges, heavy fines", "critical")

  const Regulations: seq<Regulation> := [
    AmlKyc,
    Regulation("gdpr", "General Data Protection Regulation", ["eu", "eea"],
               ["Data minimization", "User consent", "Right to be forgotten"],
               "Up to 4% of global annual revenue or €20M", "high"),
    Regulation("mifid_ii", "Markets in Financial Instruments Directive II", ["eu"],
               ["Transaction reporting", "Best execution", "Client categorization"],
               "Significant financial penalties", "high"),
    Regulation("mica", "Markets in Crypto-Assets Regulation", ["eu"],
               ["Licensing", "Reserve requirements for stablecoins", "Market abuse prevention"],
               "Similar to traditional financial instruments", "high"),
    Regulation("sec_regulations", "SEC Cryptocurrency Enforcement", ["us"],
               ["Registration of securities offerings", "Disclosure requirements", "Trading compliance"],
               "Disgorgement, civil penalties, cease and desist", "high"),
    Regulation("pmla", "Prevention of Money Laundering Act", ["in"],
               ["KYC procedures", "Reporting suspicious transactions", "Record keeping",
                "Designated Director appointment"],
               "Imprisonment up to 10 years and substantial fines", "critical"),
    Regulation("fema", "Foreign Exchange Management Act", ["in"],
               ["Cross-border transaction reporting", "Foreign investment rules compliance",
                "Repatriation requirements"],
               "Up to three times the amount involved in the contravention", "high"),
    Regulation("sebi_regulations", "SEBI Financial Market Regulations", ["in"],
               ["Registration requirements", "Investor protection", "Disclosure norms", "Corporate governance"],
               "Substantial monetary penalties and market access restrictions", "high"),
    Regulation("dpdp", "Digital Personal Data Protection Act", ["in"],
               ["Data consent", "Purpose limitation", "Data security", "Data fiduciary obligations"],
               "Up to INR 250 crore for serious breaches", "high"),
    Regulation("crypto_regulations_india", "Virtual Digital Assets Regulations", ["in"],
               ["30% tax on crypto income", "1% TDS on transfers", "Financial reporting", "No offsetting of losses"],
               "Tax penalties and potential legal consequences", "high")]

  datatype Framework = Framework(code: string, name: string, focus: string, keyControls: seq<string>, relevance: string)

  const ComplianceFrameworks: seq<Framework> := [
    Framework("iso_27001", "ISO/IEC 27001 - Information Security", "Data security and protection",
              ["Asset management", "Access control", "Incident management"],
              "Required for handling sensitive financial data"),
    Framework("pci_dss", "Payment Card Industry Data Security Standard", "Payment card data security",
              ["Network security", "Cardholder data protection", "Vulnerability management"],
              "Mandatory for handling payment card data"),
    Framework("nist", "NIST Cybersecurity Framework", "Cybersecurity risk management",
              ["Identify", "Protect", "Detect", "Respond", "Recover"],
              "Widely adopted standard for cybersecurity"),
    Framework("rbi_guidelines", "RBI Cybersecurity Framework for Banks", "Banking system security and risk management",
              ["IT governance", "Risk assessment", "Incident response", "Continuous surveillance"],
              "Mandatory for banks and financial institutions in India")]

  /** The agent's three tables, each in its key order. */
  datatype Tables = Tables(regulations: seq<Regulation>, jurisdictions: seq<Jurisdiction>,
                           complianceFrameworks: seq<Framework>)

  /** The tables as the constructor leaves them: rebound to empty dictionaries. */
  const Initialized := Tables([], [], [])

  /** The tables as `_initialize_sample_regulatory_data` fills them. */
  const SampleData := Tables(Regulations, Jurisdictions, ComplianceFrameworks)

  function JurisdictionCode(j: Jurisdiction): string { j.code }
  function RegulationCode(r: Regulation): string { r.code }
  function FrameworkCode(f: Framework): string { f.code }

  /** `self.jurisdictions.get(code)`. */
  function FindJurisdiction(tables: Tables, code: string): (r: Option<Jurisdiction>)
    ensures r.Some? ==> r.value in tables.jurisdictions && r.value.code == code
    ensures r.None? ==> forall j :: j in tables.jurisdictions ==> j.code != code
  {
    var found := Filter(tables.jurisdictions, (j: Jurisdiction) => j.code == code);
    FoundOrAbsent(tables.jurisdictions, (j: Jurisdiction) => j.code == code);
    if found == [] then None else Some(found[0])
  }

  /** `self.regulations.get(code)`. */
  function FindRegulation(tables: Tables, code: string): (r: Option<Regulation>)
    ensures r.Some? ==> r.value in tables.regulations && r.value.code == code
    ensures r.None? ==> forall g :: g in tables.regulations ==> g.code != code
  {
    var found := Filter(tables.regulations, (g: Regulation) => g.code == code);
    FoundOrAbsent(tables.regulations, (g: Regulation) => g.code == code);
    if found == [] then None else Some(found[0])
  }

  /** `self.compliance_frameworks.get(code)`. */
  function FindFramework(tables: Tables, code: string): (r: Option<Framework>)
    ensures r.Some? ==> r.value in tables.complianceFrameworks && r.value.code == code
    ensures r.None? ==> forall f :: f in tables.complianceFrameworks ==> f.code != code
  {
    var found := Filter(tables.complianceFrameworks, (f: Framework) => f.code == code);
    FoundOrAbsent(tables.complianceFrameworks, (f: Framework) => f.code == code);
    if found == [] then None else Some(found[0])
  }

  /** The first element of a filter is selected; an empty filter selected nothing. */
  lemma FoundOrAbsent<T>(s: seq<T>, p: T -> bool)
    ensures Filter(s, p) != [] ==> Filter(s, p)[0] in s && p(Filter(s, p)[0])
    ensures Filter(s, p) == [] ==> forall x :: x in s ==> !p(x)
  {
    if Filter(s, p) != [] {
      assert Filter(s, p)[0] in Filter(s, p);
      FilterMembership(s, p, Filter(s, p)[0]);
    } else {
      forall x | x in s ensures !p(x) {
        FilterMembership(s, p, x);
      }
    }
  }

  // --------------------------------------------------------- reply contents

  datatype Risk = Risk(category: string, description: string, severity: string, mitigation: string)
  datatype Requirement = Requirement(regulation: string, requirement: string, priority: string)

  /** What one helper call appends to the reply. */
  datatype Part = Part(insights: seq<string>, recommendations: seq<string>, risks: seq<Risk>,
                       requirements: seq<Requirement>)

  const Nothing := Part([], [], [], [])

  function Then(a: Part, b: Part): Part
  {
    Part(a.insights + b.insights, a.recommendations + b.recommendations, a.risks + b.risks,
         a.requirements + b.requirements)
  }

  lemma NothingThen(a: Part)
    ensures Then(Nothing, a) == a
  {
    assert [] + a.insights == a.insights;
    assert [] + a.recommendations == a.recommendations;
    assert [] + a.risks == a.risks;
    assert [] + a.requirements == a.requirements;
  }

  /** The parts of a list of entries, in list order. */
  function PartsOf<T>(items: seq<T>, f: T -> Part): Part
  {
    if items == [] then Nothing else Then(PartsOf(items[..|items| - 1], f), f(items[|items| - 1]))
  }

  /** Both lines of `_analyze_regulation`'s priority test: "critical" or "high". */
  predicate Pressing(priority: string) { priority == "critical" || priority == "high" }

  function RegulationName(g: Regulation): string { g.name }

  /** The regulations that list a jurisdiction code. */
  function RelevantRegulations(tables: Tables, code: string): seq<Regulation>
  {
    Filter(tables.regulations, (g: Regulation) => code in g.jurisdictions)
  }

  function ComplexityAdvice(j: Jurisdiction): seq<string>
  {
    if j.complianceComplexity == "high" then
      ["Allocate significant resources to " + j.name + " compliance due to high complexity",
       "Consider specialized legal counsel for " + j.name + " operations"]
    else if j.complianceComplexity == "medium" then
      ["Implement structured compliance programs for " + j.name + " with regular updates"]
    else ["Standard compliance measures should be sufficient for " + j.name]
  }

  function JurisdictionProfile(j: Jurisdiction): Part
  {
    Part([j.name + " has a " + j.regulatoryApproach + " approach to financial regulation",
          "Key regulatory bodies in " + j.name + ": " + Join(", ", j.keyRegulators),
          j.name + "'s stance on cryptocurrency is " + j.cryptoStance],
         ComplexityAdvice(j), [], [])
  }

  /** The lines about the regulations in force in a jurisdiction. */
  function RegulationsInForce(tables: Tables, j: Jurisdiction): Part
  {
    var relevant := RelevantRegulations(tables, j.code);
    var pressing := Filter(relevant, (g: Regulation) => Pressing(g.compliancePriority));
    if relevant == [] then Nothing
    else Part(["Key regulations in " + j.name + ": " + Join(", ", Map(relevant, RegulationName))],
              if pressing == [] then []
              else ["Prioritize compliance with " + Join(", ", Map(pressing, RegulationName))],
              [], [])
  }

  /** What `_analyze_jurisdiction` appends for a jurisdiction code. */
  function JurisdictionPart(tables: Tables, code: string): Part
  {
    match FindJurisdiction(tables, code)
    case None => Nothing
    case Some(j) => Then(JurisdictionProfile(j), RegulationsInForce(tables, j))
  }

  /** The parts of a list of jurisdiction codes, in list order. */
  function JurisdictionParts(tables: Tables, codes: seq<string>): Part
  {
    if codes == [] then Nothing
    else Then(JurisdictionParts(tables, codes[..|codes| - 1]), JurisdictionPart(tables, codes[|codes| - 1]))
  }

  /** A jurisdiction's display name, or the code itself when the table lacks it. */
  function JurisdictionName(tables: Tables, code: string): string
  {
    match FindJurisdiction(tables, code)
    case None => code
    case Some(j) => j.name
  }

  function RequirementOf(g: Regulation, req: string): Requirement
  {
    Requirement(g.name, req, g.compliancePriority)
  }

  /** What `_analyze_regulation` appends for a regulation code. */
  function RegulationPart(tables: Tables, code: string): Part
  {
    match FindRegulation(tables, code)
    case None => Nothing
    case Some(g) =>
      Part([g.name + " applies in: " + Join(", ", Map(g.jurisdictions, (c: string) => JurisdictionName(tables, c))),
            "Key requirements: " + Join(", ", g.keyRequirements),
            "Penalties for non-compliance: " + g.penalties],
           ["Implement specific controls for " + g.name + " based on its requirements"]
           + (if Pressing(g.compliancePriority)
              then ["Conduct regular audits for " + g.name + " compliance due to its "
                    + g.compliancePriority + " priority"]
              else []),
           [],
           Map(g.keyRequirements, (req: string) => RequirementOf(g, req)))
  }

  /** The parts of a list of regulation codes, in list order. */
  function RegulationParts(tables: Tables, codes: seq<string>): Part
  {
    if codes == [] then Nothing
    else Then(RegulationParts(tables, codes[..|codes| - 1]), RegulationPart(tables, codes[|codes| - 1]))
  }

  // Domains.

  datatype Domain = Domain(key: string, keywords: seq<string>)

  const Domains: seq<Domain> := [
    Domain("cryptocurrency", ["crypto", "bitcoin", "blockchain", "token", "ico", "defi"]),
    Domain("data_privacy", ["data", "privacy", "personal information", "gdpr"]),
    Domain("financial_services", ["banking", "payment", "investment", "trading"]),
    Domain("aml", ["money laundering", "terrorism financing", "kyc", "customer due diligence"])]

  const CryptoDomain := Part(
    ["Cryptocurrency regulations vary widely by jurisdiction but are generally becoming more comprehensive",
     "The EU's MiCA provides the most comprehensive framework for crypto-asset regulation",
     "US regulation is evolving with various agencies claiming jurisdiction over different aspects"],
    ["Implement robust AML/KYC procedures as they are universally required for crypto operations",
     "Engage with regulators proactively when launching new crypto products or services"],
    [Risk("Regulatory", "Uncertain classification of tokens as securities, commodities, or currencies",
          "High", "Legal opinion for each token type before launch")],
    [])

  const PrivacyDomain := Part(
    ["Data privacy regulations are becoming more stringent globally, with GDPR setting the standard",
     "Cross-border data transfers face increasing restrictions, especially from EU to non-adequate jurisdictions"],
    ["Implement data minimization and purpose limitation in all systems and processes",
     "Maintain detailed records of processing activities and data protection impact assessments"],
    [Risk("Compliance", "Inadequate user consent mechanisms for data processing",
          "High", "Implement granular consent management system")],
    [])

  const ServicesDomain := Part(
    ["Financial services regulations are increasingly focusing on consumer protection and market stability",
     "Digital-only banks and services face evolving regulatory requirements across jurisdictions"],
    ["Implement robust governance and risk management frameworks that satisfy regulatory expectations",
     "Ensure clear disclosure of fees, risks, and terms to customers"],
    [Risk("Operational", "Inadequate segregation of client funds",
          "Critical", "Implement rigorous accounting controls and regular audits")],
    [])

  const AmlDomain := Part(
    ["AML regulations are universal with increasing emphasis on beneficial ownership identification",
     "Transaction monitoring expectations are becoming more sophisticated, requiring advanced analytics"],
    ["Implement risk-based approach to customer due diligence with enhanced measures for high-risk clients",
     "Ensure suspicious activity reporting processes are efficient and meet timing requirements"],
    [Risk("Compliance", "Inadequate screening against sanctions and PEP lists",
          "Critical", "Implement automated screening with regular updates")],
    [])

  /** What `_analyze_domain` appends; a domain it does not know adds nothing. */
  function DomainPart(d: Domain): Part
  {
    if d.key == "cryptocurrency" then CryptoDomain
    else if d.key == "data_privacy" then PrivacyDomain
    else if d.key == "financial_services" then ServicesDomain
    else if d.key == "aml" then AmlDomain
    else Nothing
  }

  // The whole reply.

  const GeneralJurisdictions := Part(
    ["Regulatory approaches vary significantly across jurisdictions, requiring tailored compliance strategies",
     "The EU has the most comprehensive regulatory framework for crypto-assets with MiCA",
     "Singapore offers a balanced approach with clear regulatory guidance while promoting innovation"],
    [], [], [])

  /** A jurisdiction is mentioned when its code or its lower-cased name occurs in the query. */
  predicate MentionsJurisdiction(queryLower: string, j: Jurisdiction)
  {
    Contains(queryLower, j.code) || Contains(queryLower, Lower(j.name))
  }

  predicate MentionsRegulation(queryLower: string, g: Regulation)
  {
    Contains(queryLower, Lower(g.code)) || Contains(queryLower, Lower(g.name))
  }

  function MentionedJurisdictions(tables: Tables, queryLower: string): seq<string>
  {
    Map(Filter(tables.jurisdictions, (j: Jurisdiction) => MentionsJurisdiction(queryLower, j)), JurisdictionCode)
  }

  function MentionedRegulations(tables: Tables, queryLower: string): seq<string>
  {
    Map(Filter(tables.regulations, (g: Regulation) => MentionsRegulation(queryLower, g)), RegulationCode)
  }

  function MatchedDomains(queryLower: string): seq<Domain>
  {
    Filter(Domains, (d: Domain) => AnyIn(d.keywords, queryLower))
  }

  function JurisdictionsAnalysis(tables: Tables, query: string): Part
  {
    var mentioned := MentionedJurisdictions(tables, Lower(query));
    if mentioned == [] then GeneralJurisdictions else JurisdictionParts(tables, mentioned)
  }

  function RegulationsAnalysis(tables: Tables, query: string): Part
  {
    var mentioned := MentionedRegulations(tables, Lower(query));
    if mentioned == [] then PartsOf(MatchedDomains(Lower(query)), DomainPart)
    else RegulationParts(tables, mentioned)
  }

  /** Everything `process_query` appends: jurisdictions first, then regulations or domains. */
  function Analysis(tables: Tables, query: string): Part
  {
    Then(JurisdictionsAnalysis(tables, query), RegulationsAnalysis(tables, query))
  }

  // ------------------------------------------------------------- lemmas

  // The tables as constructed.

  /**
   * As constructed, no jurisdiction or regulation is ever mentioned, so every
   * reply is the three general jurisdiction lines followed by the analysis of
   * the domains whose keywords occur.
   */
  lemma InitializedAnalysis(query: string)
    ensures MentionedJurisdictions(Initialized, Lower(query)) == []
    ensures MentionedRegulations(Initialized, Lower(query)) == []
    ensures Analysis(Initialized, query) == Then(GeneralJurisdictions, PartsOf(MatchedDomains(Lower(query)), DomainPart))
  {
  }

  const Business := "business"

  /** "business" holds none of the domain keywords. */
  lemma BusinessMatchesNoDomain()
    ensures MatchedDomains(Business) == []
  {
    NoneContained(Business, Domains[0].keywords, [0, 2, 1, 0, 1, 0]);
    NoneContained(Business, Domains[1].keywords, [0, 0, 0, 0]);
    NoneContained(Business, Domains[2].keywords, [1, 0, 2, 0]);
    NoneContained(Business, Domains[3].keywords, [0, 0, 0, 0]);
    FilterNone(Domains, (d: Domain) => AnyIn(d.keywords, Business));
  }

  /** As constructed, a query about a "business" gets exactly the three general jurisdiction lines. */
  lemma BusinessGetsGeneralLines()
    ensures Analysis(Initialized, Business) == GeneralJurisdictions
    ensures Confidence(|Analysis(Initialized, Business).insights|,
                       |Analysis(Initialized, Business).recommendations|) == 0.9
  {
    assert Lower(Business) == Business by {
      LowerIdentity(Business);
    }
    BusinessMatchesNoDomain();
    InitializedAnalysis(Business);
    ThenNothing(GeneralJurisdictions);
  }

  // Any tables.

  /** A jurisdiction code from the table is always found. */
  lemma KnownJurisdiction(tables: Tables, j: Jurisdiction)
    requires j in tables.jurisdictions
    ensures FindJurisdiction(tables, j.code).Some?
    ensures FindJurisdiction(tables, j.code).value.code == j.code
  {
  }

  /** The parts of a list of codes hold at least as many lines as the part of its last code. */
  lemma JurisdictionPartsCoverLast(tables: Tables, codes: seq<string>)
    requires codes != []
    ensures |JurisdictionParts(tables, codes).insights| >= |JurisdictionPart(tables, codes[|codes| - 1]).insights|
    ensures |JurisdictionParts(tables, codes).recommendations|
         >= |JurisdictionPart(tables, codes[|codes| - 1]).recommendations|
  {
  }

  /**
   * Whatever the tables, every query gets at least three insights from the
   * jurisdiction step, either the three general lines or the profile of a
   * matched jurisdiction, so the agent's confidence is always the cap of 0.9.
   */
  lemma ConfidenceAlwaysCapped(tables: Tables, query: string)
    ensures |Analysis(tables, query).insights| >= 3
    ensures Confidence(|Analysis(tables, query).insights|, |Analysis(tables, query).recommendations|) == 0.9
  {
    var ql := Lower(query);
    var matched := Filter(tables.jurisdictions, (j: Jurisdiction) => MentionsJurisdiction(ql, j));
    var mentioned := MentionedJurisdictions(tables, ql);
    if mentioned != [] {
      var j := matched[|matched| - 1];
      assert j in matched;
      FilterMembership(tables.jurisdictions, (j: Jurisdiction) => MentionsJurisdiction(ql, j), j);
      KnownJurisdiction(tables, j);
      assert mentioned[|mentioned| - 1] == j.code;
      JurisdictionPartsCoverLast(tables, mentioned);
    }
  }

  /** A jurisdiction of the table whose code occurs anywhere in the lower-cased query is analysed. */
  lemma CodeSubstringMentions(tables: Tables, query: string, j: Jurisdiction)
    requires j in tables.jurisdictions && Contains(Lower(query), j.code)
    ensures j.code in MentionedJurisdictions(tables, Lower(query))
  {
    var ql := Lower(query);
    var matched := Filter(tables.jurisdictions, (j: Jurisdiction) => MentionsJurisdiction(ql, j));
    FilterMembership(tables.jurisdictions, (j: Jurisdiction) => MentionsJurisdiction(ql, j), j);
    var k :| 0 <= k < |matched| && matched[k] == j;
    assert MentionedJurisdictions(tables, ql)[k] == j.code;
  }

  /** Analysing a regulation found in the table adds one compliance requirement per key requirement, at its priority. */
  lemma RegulationRequirements(tables: Tables, code: string, g: Regulation)
    requires FindRegulation(tables, code) == Some(g)
    ensures |RegulationPart(tables, code).requirements| == |g.keyRequirements|
    ensures forall i :: 0 <= i < |g.keyRequirements| ==>
      RegulationPart(tables, code).requirements[i] == Requirement(g.name, g.keyRequirements[i], g.compliancePriority)
    ensures |RegulationPart(tables, code).insights| == 3
    ensures |RegulationPart(tables, code).recommendations| == if Pressing(g.compliancePriority) then 2 else 1
  {
  }

  // The sample tables.

  /** Every sample jurisdiction code is one that the anti-money-laundering regulation lists. */
  lemma AmlCoversJurisdiction(j: Jurisdiction)
    requires j in Jurisdictions
    ensures j.code in AmlKyc.jurisdictions
  {
  }

  /**
   * Every sample jurisdiction is listed by the anti-money-laundering
   * regulation, whose priority is critical; so with the sample tables,
   * analysing one adds its three profile lines plus one line of regulations in
   * force, and its complexity advice plus one line of priorities.
   */
  lemma JurisdictionPartSizes(code: string, j: Jurisdiction)
    requires FindJurisdiction(SampleData, code) == Some(j)
    ensures |JurisdictionPart(SampleData, code).insights| == 4
    ensures |JurisdictionPart(SampleData, code).recommendations| == if j.complianceComplexity == "high" then 3 else 2
  {
    AmlCoversJurisdiction(j);
    assert AmlKyc in Regulations;
    FilterMembership(Regulations, (g: Regulation) => j.code in g.jurisdictions, AmlKyc);
    var relevant := RelevantRegulations(SampleData, j.code);
    FilterMembership(relevant, (g: Regulation) => Pressing(g.compliancePriority), AmlKyc);
  }

  /**
   * With the sample tables, codes are matched as bare substrings: a query
   * about a "business" is analysed for the United States.
   */
  lemma BusinessMentionsUnitedStates()
    ensures "us" in MentionedJurisdictions(SampleData, Lower(Business))
  {
    LowerIdentity(Business);
    ContainsWitness(Business, "us", 1);
    CodeSubstringMentions(SampleData, Business, Jurisdictions[0]);
  }

  // ------------------------------------------------------------ imperative

  /** The reply dictionary that `process_query` fills in place. */
  class Response {
    var insights: seq<string>
    var recommendations: seq<string>
    var risks: seq<Risk>
    var complianceRequirements: seq<Requirement>
    var confidence: real

    constructor ()
      ensures insights == [] && recommendations == [] && risks == [] && complianceRequirements == []
      ensures confidence == 0.0
    {
      insights, recommendations, risks, complianceRequirements, confidence := [], [], [], [], 0.0;
    }

    function Contents(): Part
      reads this
    {
      Part(insights, recommendations, risks, complianceRequirements)
    }

    method Append(p: Part)
      modifies this
      ensures Contents() == Then(old(Contents()), p)
      ensures confidence == old(confidence)
    {
      insights := insights + p.insights;
      recommendations := recommendations + p.recommendations;
      risks := risks + p.risks;
      complianceRequirements := complianceRequirements + p.requirements;
    }

    method AnalyzeJurisdiction(tables: Tables, code: string)
      modifies this
      ensures Contents() == Then(old(Contents()), JurisdictionPart(tables, code))
      ensures confidence == old(confidence)
    {
      var found := FindJurisdiction(tables, code);
      if found.None? {
        ThenNothing(Contents());
        return;
      }
      var j := found.value;
      Append(JurisdictionProfile(j));
      var relevant := Select(tables.regulations, (g: Regulation) => code in g.jurisdictions);
      if relevant != [] {
        var pressing := Select(relevant, (g: Regulation) => Pressing(g.compliancePriority));
        Append(Part(["Key regulations in " + j.name + ": " + Join(", ", Map(relevant, RegulationName))],
                    if pressing == [] then []
                    else ["Prioritize compliance with " + Join(", ", Map(pressing, RegulationName))],
                    [], []));
      } else {
        ThenNothing(Contents());
      }
      ThenAssociative(old(Contents()), JurisdictionProfile(j), RegulationsInForce(tables, j));
    }

    method AnalyzeRegulation(tables: Tables, code: string)
      modifies this
      ensures Contents() == Then(old(Contents()), RegulationPart(tables, code))
      ensures confidence == old(confidence)
    {
      var found := FindRegulation(tables, code);
      if found.None? {
        ThenNothing(Contents());
        return;
      }
      Append(RegulationPart(tables, code));
    }

    method AnalyzeDomain(d: Domain)
      modifies this
      ensures Contents() == Then(old(Contents()), DomainPart(d))
      ensures confidence == old(confidence)
    {
      if d.key == "cryptocurrency" {
        Append(CryptoDomain);
      } else if d.key == "data_privacy" {
        Append(PrivacyDomain);
      } else if d.key == "financial_services" {
        Append(ServicesDomain);
      } else if d.key == "aml" {
        Append(AmlDomain);
      } else {
        ThenNothing(Contents());
      }
    }

    /** The loop `for jcode in jurisdictions_mentioned: self._analyze_jurisdiction(jcode, response)`. */
    method AnalyzeEachJurisdiction(tables: Tables, codes: seq<string>)
      modifies this
      ensures Contents() == Then(old(Contents()), JurisdictionParts(tables, codes))
      ensures confidence == old(confidence)
    {
      ghost var start := Contents();
      NothingThen(start);
      ThenNothing(start);
      for i := 0 to |codes|
        invariant Contents() == Then(start, JurisdictionParts(tables, codes[..i]))
        invariant confidence == old(confidence)
      {
        assert codes[..i + 1][..i] == codes[..i];
        ThenAssociative(start, JurisdictionParts(tables, codes[..i]), JurisdictionPart(tables, codes[i]));
        AnalyzeJurisdiction(tables, codes[i]);
      }
      assert codes[..|codes|] == codes;
    }

    /** The loop `for rcode in regulations_mentioned: self._analyze_regulation(rcode, response)`. */
    method AnalyzeEachRegulation(tables: Tables, codes: seq<string>)
      modifies this
      ensures Contents() == Then(old(Contents()), RegulationParts(tables, codes))
      ensures confidence == old(confidence)
    {
      ghost var start := Contents();
      ThenNothing(start);
      for i := 0 to |codes|
        invariant Contents() == Then(start, RegulationParts(tables, codes[..i]))
        invariant confidence == old(confidence)
      {
        assert codes[..i + 1][..i] == codes[..i];
        ThenAssociative(start, RegulationParts(tables, codes[..i]), RegulationPart(tables, codes[i]));
        AnalyzeRegulation(tables, codes[i]);
      }
      assert codes[..|codes|] == codes;
    }

    /** The loop over the domain table, analysing each domain one of whose keywords occurs. */
    method AnalyzeMatchingDomains(domains: seq<Domain>, queryLower: string)
      modifies this
      ensures Contents()
           == Then(old(Contents()), PartsOf(Filter(domains, (d: Domain) => AnyIn(d.keywords, queryLower)), DomainPart))
      ensures confidence == old(confidence)
    {
      ghost var start := Contents();
      var matches := (d: Domain) => AnyIn(d.keywords, queryLower);
      ThenNothing(start);
      for i := 0 to |domains|
        invariant Contents() == Then(start, PartsOf(Filter(domains[..i], matches), DomainPart))
        invariant confidence == old(confidence)
      {
        ghost var before := Filter(domains[..i], matches);
        FilterPrefixStep(domains, matches, i);
        if matches(domains[i]) {
          ThenAssociative(start, PartsOf(before, DomainPart), DomainPart(domains[i]));
          assert (before + [domains[i]])[..|before|] == before;
          assert PartsOf(before + [domains[i]], DomainPart) == Then(PartsOf(before, DomainPart), DomainPart(domains[i]));
          AnalyzeDomain(domains[i]);
          assert Filter(domains[..i + 1], matches) == before + [domains[i]];
          assert Contents() == Then(start, PartsOf(before + [domains[i]], DomainPart));
        } else {
          assert Filter(domains[..i + 1], matches) == before;
          assert Contents() == Then(start, PartsOf(before, DomainPart));
        }
      }
      assert domains[..|domains|] == domains;
    }

    function ToReply(): Reply
      reads this
    {
      Reply(insights, recommendations, Some(confidence))
    }
  }

  lemma ThenNothing(a: Part)
    ensures Then(a, Nothing) == a
  {
    assert a.insights + [] == a.insights;
    assert a.recommendations + [] == a.recommendations;
    assert a.risks + [] == a.risks;
    assert a.requirements + [] == a.requirements;
  }

  lemma ThenAssociative(a: Part, b: Part, c: Part)
    ensures Then(Then(a, b), c) == Then(a, Then(b, c))
  {
    assert (a.insights + b.insights) + c.insights == a.insights + (b.insights + c.insights);
    assert (a.recommendations + b.recommendations) + c.recommendations
        == a.recommendations + (b.recommendations + c.recommendations);
    assert (a.risks + b.risks) + c.risks == a.risks + (b.risks + c.risks);
    assert (a.requirements + b.requirements) + c.requirements
        == a.requirements + (b.requirements + c.requirements);
  }

  /** `process_query` over the agent's tables: jurisdictions, then regulations or domains, then the confidence. */
  method ProcessQuery(tables: Tables, query: string) returns (response: Response)
    ensures fresh(response)
    ensures response.Contents() == Analysis(tables, query)
    ensures response.confidence
         == Confidence(|Analysis(tables, query).insights|, |Analysis(tables, query).recommendations|)
  {
    var queryLower := Lower(query);
    response := new Response();
    var matchedJurisdictions := Select(tables.jurisdictions, (j: Jurisdiction) => MentionsJurisdiction(queryLower, j));
    var jurisdictionsMentioned := Map(matchedJurisdictions, JurisdictionCode);
    var matchedRegulations := Select(tables.regulations, (g: Regulation) => MentionsRegulation(queryLower, g));
    var regulationsMentioned := Map(matchedRegulations, RegulationCode);

    if jurisdictionsMentioned != [] {
      response.AnalyzeEachJurisdiction(tables, jurisdictionsMentioned);
      NothingThen(JurisdictionParts(tables, jurisdictionsMentioned));
    } else {
      response.Append(GeneralJurisdictions);
      NothingThen(GeneralJurisdictions);
    }
    if regulationsMentioned != [] {
      response.AnalyzeEachRegulation(tables, regulationsMentioned);
    } else {
      response.AnalyzeMatchingDomains(Domains, queryLower);
    }
    response.confidence := Confidence(|response.insights|, |response.recommendations|);
  }

  // ------------------------------------------------- transaction assessment

  /** The transaction dictionary; a missing key is None. */
  datatype TransactionDetails = TransactionDetails(
    originJurisdiction: Option<string>, destinationJurisdiction: Option<string>,
    assetType: Option<string>, amount: Option<int>, partyType: Option<string>)

  /** `dict.get(key, default)`. */
  function GetOr<T>(o: Option<T>, default: T): T
  {
    match o
    case None => default
    case Some(v) => v
  }

  function Origin(t: TransactionDetails): string { GetOr(t.originJurisdiction, "unknown") }
  function Destination(t: TransactionDetails): string { GetOr(t.destinationJurisdiction, "unknown") }
  function AssetType(t: TransactionDetails): string { GetOr(t.assetType, "unknown") }
  function Amount(t: TransactionDetails): int { GetOr(t.amount, 0) }
  function PartyType(t: TransactionDetails): string { GetOr(t.partyType, "individual") }

  const HighRiskJurisdictions: seq<string> := ["sanctioned", "high-risk"]
  const DigitalAssetTypes: seq<string> := ["cryptocurrency", "crypto", "digital asset", "token"]
  const EntityPartyTypes: seq<string> := ["business", "corporation", "entity"]
  const FiatReportingThreshold := 10000
  const DigitalAssetReportingThreshold := 3000

  predicate HighRiskOrigin(t: TransactionDetails) { Origin(t) in HighRiskJurisdictions }
  predicate HighRiskDestination(t: TransactionDetails) { Destination(t) in HighRiskJurisdictions }
  predicate CrossBorder(t: TransactionDetails) { Origin(t) != Destination(t) }
  predicate DigitalAsset(t: TransactionDetails) { Lower(AssetType(t)) in DigitalAssetTypes }
  predicate EntityParty(t: TransactionDetails) { Lower(PartyType(t)) in EntityPartyTypes }

  /** The amount reaches the reporting threshold of its asset class. */
  predicate ThresholdReporting(t: TransactionDetails)
  {
    (Lower(AssetType(t)) == "fiat" && Amount(t) >= FiatReportingThreshold)
    || (DigitalAsset(t) && Amount(t) >= DigitalAssetReportingThreshold)
  }

  datatype RiskLevel = Low | Medium | High
  {
    function Label(): string
    {
      match this
      case Low => "low"
      case Medium => "medium"
      case High => "high"
    }
  }

  datatype Assessment = Assessment(
    overallRisk: RiskLevel, riskFactors: seq<string>, requiredChecks: seq<string>,
    jurisdictionalRequirements: seq<string>, recommendations: seq<string>)

  const CrossBorderCheck := "Cross-border transfer reporting"
  const SourceOfFundsCheck := "Digital asset source of funds verification"
  const ChainScreeningCheck := "Blockchain analytics screening"
  const LargeTransactionCheck := "Large transaction reporting"
  const OwnershipCheck := "Beneficial ownership verification"
  const EntityStructureCheck := "Entity purpose and structure assessment"
  const AmlKycCheck := "AML/KYC verification"
  const SanctionsCheck := "Sanctions screening"

  const CrossBorderFactor := "Cross-border transaction requiring additional scrutiny"
  const DigitalAssetFactor := "Digital asset transaction with enhanced compliance requirements"

  const HighRiskAdvice: seq<string> := [
    "Conduct enhanced due diligence on all parties",
    "Consider filing suspicious activity report based on risk factors",
    "Obtain senior management approval before proceeding"]
  const MediumRiskAdvice: seq<string> := [
    "Verify source of funds with appropriate documentation",
    "Conduct standard due diligence on all parties"]
  const LowRiskAdvice: seq<string> := [
    "Process according to standard procedures",
    "Maintain appropriate transaction records"]

  function AdviceFor(risk: RiskLevel): seq<string>
  {
    match risk
    case High => HighRiskAdvice
    case Medium => MediumRiskAdvice
    case Low => LowRiskAdvice
  }

  /** A known jurisdiction that is the origin or the destination. */
  predicate Involved(t: TransactionDetails, j: Jurisdiction)
  {
    j.code == Origin(t) || j.code == Destination(t)
  }

  function RegulatorNote(j: Jurisdiction): string
  {
    j.name + ": Verify compliance with " + Join(", ", j.keyRegulators) + " requirements"
  }

  /**
   * At most two sample jurisdictions can match an origin and a destination,
   * since their codes differ.
   */
  lemma AtMostTwoInvolved(t: TransactionDetails)
    ensures |JurisdictionalRequirements(SampleData, t)| <= 2
  {
    var p := (j: Jurisdiction) => Involved(t, j);
    var js := Jurisdictions;
    assert JurisdictionalRequirements(SampleData, t) == Map(Filter(js, p), RegulatorNote);
    FilterPrefixStep(js, p, 0);
    FilterPrefixStep(js, p, 1);
    FilterPrefixStep(js, p, 2);
    FilterPrefixStep(js, p, 3);
    FilterPrefixStep(js, p, 4);
    assert js[..5] == js;
  }

  /** The final risk level: high for a high-risk end, medium for any other concern, low otherwise. */
  function RiskOf(t: TransactionDetails): RiskLevel
  {
    if HighRiskOrigin(t) || HighRiskDestination(t) then High
    else if CrossBorder(t) || DigitalAsset(t) || ThresholdReporting(t) then Medium
    else Low
  }

  /** The checks, in the order in which the steps add them. */
  function RequiredChecks(t: TransactionDetails): seq<string>
  {
    (if CrossBorder(t) then [CrossBorderCheck] else [])
    + (if DigitalAsset(t) then [SourceOfFundsCheck, ChainScreeningCheck] else [])
    + (if ThresholdReporting(t) then [LargeTransactionCheck] else [])
    + (if EntityParty(t) then [OwnershipCheck, EntityStructureCheck] else [])
    + [AmlKycCheck, SanctionsCheck]
  }

  /** The risk factors, in the order in which the steps add them. */
  function RiskFactors(t: TransactionDetails): seq<string>
  {
    (if HighRiskOrigin(t) then ["Origin jurisdiction (" + Origin(t) + ") is high-risk"] else [])
    + (if HighRiskDestination(t) then ["Destination jurisdiction (" + Destination(t) + ") is high-risk"] else [])
    + (if CrossBorder(t) then [CrossBorderFactor] else [])
    + (if DigitalAsset(t) then [DigitalAssetFactor] else [])
    + (if ThresholdReporting(t)
       then ["Transaction amount (" + IntToString(Amount(t)) + ") exceeds reporting threshold"] else [])
  }

  /** One note per known jurisdiction that is the origin or the destination, in table order. */
  function JurisdictionalRequirements(tables: Tables, t: TransactionDetails): seq<string>
  {
    Map(Filter(tables.jurisdictions, (j: Jurisdiction) => Involved(t, j)), RegulatorNote)
  }

  /**
   * A note is given for a table entry exactly when it is the origin or the
   * destination; as constructed the table is empty, so no note is ever given.
   */
  lemma JurisdictionalNotes(tables: Tables, t: TransactionDetails)
    ensures forall j :: j in tables.jurisdictions && Involved(t, j) ==> RegulatorNote(j) in JurisdictionalRequirements(tables, t)
    ensures forall note :: note in JurisdictionalRequirements(tables, t) ==>
      exists j :: j in tables.jurisdictions && Involved(t, j) && note == RegulatorNote(j)
    ensures JurisdictionalRequirements(Initialized, t) == []
  {
    var p := (j: Jurisdiction) => Involved(t, j);
    var involved := Filter(tables.jurisdictions, p);
    forall j | j in tables.jurisdictions && Involved(t, j)
      ensures RegulatorNote(j) in JurisdictionalRequirements(tables, t)
    {
      FilterMembership(tables.jurisdictions, p, j);
      var k :| 0 <= k < |involved| && involved[k] == j;
      assert JurisdictionalRequirements(tables, t)[k] == RegulatorNote(j);
    }
    forall note | note in JurisdictionalRequirements(tables, t)
      ensures exists j :: j in tables.jurisdictions && Involved(t, j) && note == RegulatorNote(j)
    {
      var k :| 0 <= k < |involved| && JurisdictionalRequirements(tables, t)[k] == note;
      FilterMembership(tables.jurisdictions, p, involved[k]);
    }
  }

  /**
   * The jurisdiction steps of `assess_transaction_compliance`: a high-risk
   * origin or destination sets the risk to high, and a cross-border transfer
   * raises it to medium unless it is already high.
   */
  method ScreenJurisdictions(t: TransactionDetails)
    returns (risk: RiskLevel, riskFactors: seq<string>, requiredChecks: seq<string>)
    ensures risk == if HighRiskOrigin(t) || HighRiskDestination(t) then High
                    else if CrossBorder(t) then Medium else Low
    ensures riskFactors ==
      (if HighRiskOrigin(t) then ["Origin jurisdiction (" + Origin(t) + ") is high-risk"] else [])
      + (if HighRiskDestination(t) then ["Destination jurisdiction (" + Destination(t) + ") is high-risk"] else [])
      + (if CrossBorder(t) then [CrossBorderFactor] else [])
    ensures requiredChecks == if CrossBorder(t) then [CrossBorderCheck] else []
  {
    var origin := Origin(t);
    var destination := Destination(t);
    var isCrossBorder := origin != destination;
    risk := Low;
    riskFactors := [];
    requiredChecks := [];
    if origin in HighRiskJurisdictions {
      risk := High;
      riskFactors := riskFactors + ["Origin jurisdiction (" + origin + ") is high-risk"];
    }
    if destination in HighRiskJurisdictions {
      risk := High;
      riskFactors := riskFactors + ["Destination jurisdiction (" + destination + ") is high-risk"];
    }
    if isCrossBorder {
      requiredChecks := requiredChecks + [CrossBorderCheck];
      if risk != High {
        risk := Medium;
      }
      riskFactors := riskFactors + [CrossBorderFactor];
    }
  }

  /**
   * The asset steps of `assess_transaction_compliance`: a digital asset raises
   * the risk to medium unless it is high, and so does an amount at the
   * reporting threshold; neither ever lowers it.
   */
  method ScreenAsset(t: TransactionDetails, risk0: RiskLevel, riskFactors0: seq<string>, requiredChecks0: seq<string>)
    returns (risk: RiskLevel, riskFactors: seq<string>, requiredChecks: seq<string>)
    ensures risk == if risk0 == High then High
                    else if DigitalAsset(t) || ThresholdReporting(t) then Medium else risk0
    ensures riskFactors == riskFactors0
      + (if DigitalAsset(t) then [DigitalAssetFactor] else [])
      + (if ThresholdReporting(t)
         then ["Transaction amount (" + IntToString(Amount(t)) + ") exceeds reporting threshold"] else [])
    ensures requiredChecks == requiredChecks0
      + (if DigitalAsset(t) then [SourceOfFundsCheck, ChainScreeningCheck] else [])
      + (if ThresholdReporting(t) then [LargeTransactionCheck] else [])
  {
    var assetType := Lower(AssetType(t));
    var amount := Amount(t);
    risk, riskFactors, requiredChecks := risk0, riskFactors0, requiredChecks0;
    if assetType in DigitalAssetTypes {
      if risk != High {
        risk := Medium;
      }
      riskFactors := riskFactors + [DigitalAssetFactor];
      requiredChecks := requiredChecks + [SourceOfFundsCheck, ChainScreeningCheck];
    }
    var thresholdReporting := false;
    if assetType == "fiat" && amount >= FiatReportingThreshold {
      thresholdReporting := true;
    } else if assetType in DigitalAssetTypes && amount >= DigitalAssetReportingThreshold {
      thresholdReporting := true;
    }
    if thresholdReporting {
      requiredChecks := requiredChecks + [LargeTransactionCheck];
      if risk == Low {
        risk := Medium;
      }
      riskFactors := riskFactors + ["Transaction amount (" + IntToString(amount) + ") exceeds reporting threshold"];
    }
  }

  /**
   * `assess_transaction_compliance`: the risk level is raised step by step and
   * never lowered, the required checks and risk factors are appended in the
   * order of the steps, and the advice follows the final level.
   */
  method AssessTransactionCompliance(tables: Tables, t: TransactionDetails) returns (a: Assessment)
    ensures a.overallRisk == RiskOf(t)
    ensures a.riskFactors == RiskFactors(t)
    ensures a.requiredChecks == RequiredChecks(t)
    ensures a.jurisdictionalRequirements == JurisdictionalRequirements(tables, t)
    ensures a.recommendations == AdviceFor(RiskOf(t))
  {
    var risk, riskFactors, requiredChecks := ScreenJurisdictions(t);
    risk, riskFactors, requiredChecks := ScreenAsset(t, risk, riskFactors, requiredChecks);
    if Lower(PartyType(t)) in EntityPartyTypes {
      requiredChecks := requiredChecks + [OwnershipCheck, EntityStructureCheck];
    }
    requiredChecks := requiredChecks + [AmlKycCheck, SanctionsCheck];

    var involved := Select(tables.jurisdictions, (j: Jurisdiction) => Involved(t, j));
    var jurisdictionalRequirements := Map(involved, RegulatorNote);

    var recommendations: seq<string>;
    if risk == High {
      recommendations := HighRiskAdvice;
    } else if risk == Medium {
      recommendations := MediumRiskAdvice;
    } else {
      recommendations := LowRiskAdvice;
    }
    a := Assessment(risk, riskFactors, requiredChecks, jurisdictionalRequirements, recommendations);
  }

  /**
   * The risk is high exactly when an end of the transaction is high-risk, and
   * low exactly when no step raised it.
   */
  lemma RiskClassification(t: TransactionDetails)
    ensures RiskOf(t) == High <==> HighRiskOrigin(t) || HighRiskDestination(t)
    ensures RiskOf(t) == Low <==>
      !HighRiskOrigin(t) && !HighRiskDestination(t) && !CrossBorder(t) && !DigitalAsset(t) && !ThresholdReporting(t)
    ensures |AdviceFor(RiskOf(t))| == if RiskOf(t) == High then 3 else 2
  {
  }

  /** Large-transaction reporting is required exactly when the amount reaches its asset's threshold. */
  lemma LargeTransactionReported(t: TransactionDetails)
    ensures LargeTransactionCheck in RequiredChecks(t) <==> ThresholdReporting(t)
    ensures ThresholdReporting(t) <==>
      (Lower(AssetType(t)) == "fiat" && Amount(t) >= 10000) || (DigitalAsset(t) && Amount(t) >= 3000)
  {
  }

  /**
   * Whatever the transaction, the required checks end with the two checks that
   * are always run, preceded by the two ownership checks for a business party.
   */
  lemma AlwaysScreened(t: TransactionDetails)
    ensures |RequiredChecks(t)| >= 2
    ensures RequiredChecks(t)[|RequiredChecks(t)| - 2..] == [AmlKycCheck, SanctionsCheck]
    ensures EntityParty(t) ==>
      |RequiredChecks(t)| >= 4
      && RequiredChecks(t)[|RequiredChecks(t)| - 4..|RequiredChecks(t)| - 2] == [OwnershipCheck, EntityStructureCheck]
    ensures !EntityParty(t) ==> OwnershipCheck !in RequiredChecks(t)
  {
    var front := (if CrossBorder(t) then [CrossBorderCheck] else [])
      + (if DigitalAsset(t) then [SourceOfFundsCheck, ChainScreeningCheck] else [])
      + (if ThresholdReporting(t) then [LargeTransactionCheck] else []);
    var entity := if EntityParty(t) then [OwnershipCheck, EntityStructureCheck] else [];
    var always := [AmlKycCheck, SanctionsCheck];
    var checks := RequiredChecks(t);
    assert checks == (front + entity) + always;
    assert checks[|checks| - 2..] == always;
    if EntityParty(t) {
      assert checks[|checks| - 4..|checks| - 2] == entity;
    } else {
      assert OwnershipCheck !in front;
      assert checks == front + always;
    }
  }

  // ------------------------------------------------------ compliance report

  /** The scope dictionary; a missing key is None. */
  datatype Scope = Scope(jurisdiction: Option<string>, businessActivities: Option<seq<string>>,
                         productTypes: Option<seq<string>>)

  datatype ComplianceAction = ComplianceAction(regulation: string, requirement: string, priority: string,
                                               action: string)

  datatype ComplianceReport =
    | FrameworkNotFound(error: string, recommendations: seq<string>)
    | ComplianceReport(
        frameworkCode: string, frameworkName: string, focus: string,
        jurisdiction: string, businessActivities: seq<string>, productTypes: seq<string>,
        applicableRegulations: seq<Regulation>, keyControls: seq<string>,
        complianceActions: seq<ComplianceAction>, recommendations: seq<string>)

  /** A regulation applies to a jurisdiction it lists, and everywhere when it lists "global". */
  predicate Applies(jurisdiction: string, g: Regulation)
  {
    jurisdiction in g.jurisdictions || "global" in g.jurisdictions
  }

  function RequirementAction(g: Regulation, req: string): ComplianceAction
  {
    ComplianceAction(g.name, req, g.compliancePriority, "Implement controls to ensure compliance with " + req)
  }

  function ControlAction(f: Framework, control: string): ComplianceAction
  {
    ComplianceAction(f.name, control, "high",
                     "Implement " + control + " controls according to " + f.name + " standards")
  }

  /** One action per key requirement of each regulation, regulation by regulation. */
  function RequirementActions(regs: seq<Regulation>): seq<ComplianceAction>
  {
    if regs == [] then []
    else RequirementActions(regs[..|regs| - 1])
         + Map(regs[|regs| - 1].keyRequirements, (req: string) => RequirementAction(regs[|regs| - 1], req))
  }

  function ControlActions(f: Framework): seq<ComplianceAction>
  {
    Map(f.keyControls, (c: string) => ControlAction(f, c))
  }

  function TotalRequirements(regs: seq<Regulation>): nat
  {
    if regs == [] then 0 else TotalRequirements(regs[..|regs| - 1]) + |regs[|regs| - 1].keyRequirements|
  }

  function UnknownFrameworkAdvice(tables: Tables): string
  {
    "Select a supported framework: " + Join(", ", Map(tables.complianceFrameworks, FrameworkCode))
  }

  /** The loop over the applicable regulations, one action per key requirement. */
  method CollectRequirementActions(applicable: seq<Regulation>) returns (actions: seq<ComplianceAction>)
    ensures actions == RequirementActions(applicable)
  {
    actions := [];
    for i := 0 to |applicable|
      invariant actions == RequirementActions(applicable[..i])
    {
      var g := applicable[i];
      for k := 0 to |g.keyRequirements|
        invariant actions == RequirementActions(applicable[..i])
                           + Map(g.keyRequirements[..k], (req: string) => RequirementAction(g, req))
      {
        MapPrefixStep(g.keyRequirements, (req: string) => RequirementAction(g, req), k);
        actions := actions + [RequirementAction(g, g.keyRequirements[k])];
      }
      assert g.keyRequirements[..|g.keyRequirements|] == g.keyRequirements;
      assert applicable[..i + 1][..i] == applicable[..i];
      assert RequirementActions(applicable[..i + 1])
          == RequirementActions(applicable[..i]) + Map(g.keyRequirements, (req: string) => RequirementAction(g, req));
    }
    assert applicable[..|applicable|] == applicable;
  }

  /** The loop over the framework's controls, one high-priority action each. */
  method AppendControlActions(actions0: seq<ComplianceAction>, f: Framework) returns (actions: seq<ComplianceAction>)
    ensures actions == actions0 + ControlActions(f)
  {
    actions := actions0;
    for k := 0 to |f.keyControls|
      invariant actions == actions0 + Map(f.keyControls[..k], (c: string) => ControlAction(f, c))
    {
      MapPrefixStep(f.keyControls, (c: string) => ControlAction(f, c), k);
      actions := actions + [ControlAction(f, f.keyControls[k])];
    }
    assert f.keyControls[..|f.keyControls|] == f.keyControls;
  }

  /**
   * `generate_compliance_report`: the regulations applicable to the scope, then
   * one action per requirement of each and one high-priority action per
   * control of the framework.
   */
  method GenerateComplianceReport(tables: Tables, framework: string, scope: Scope) returns (r: ComplianceReport)
    ensures r.FrameworkNotFound? <==> forall f :: f in tables.complianceFrameworks ==> f.code != framework
    ensures r.FrameworkNotFound? ==>
      r.error == "Framework " + framework + " not found in available compliance frameworks"
      && r.recommendations == [UnknownFrameworkAdvice(tables)]
    ensures r.ComplianceReport? ==>
      && FindFramework(tables, framework).Some?
      && var f := FindFramework(tables, framework).value;
      && r.frameworkCode == framework && r.frameworkName == f.name && r.focus == f.focus
      && r.jurisdiction == GetOr(scope.jurisdiction, "global")
      && r.businessActivities == GetOr(scope.businessActivities, [])
      && r.productTypes == GetOr(scope.productTypes, [])
      && r.applicableRegulations == Filter(tables.regulations, (g: Regulation) => Applies(r.jurisdiction, g))
      && r.keyControls == f.keyControls
      && r.complianceActions == RequirementActions(r.applicableRegulations) + ControlActions(f)
      && r.recommendations == [
           "Prioritize high-priority compliance actions for immediate implementation",
           "Conduct regular audits against " + f.name + " standards",
           "Maintain documentation of all compliance controls and their effectiveness"]
  {
    var found := FindFramework(tables, framework);
    if found.None? {
      return FrameworkNotFound("Framework " + framework + " not found in available compliance frameworks",
                               [UnknownFrameworkAdvice(tables)]);
    }
    var f := found.value;
    var jurisdiction := GetOr(scope.jurisdiction, "global");
    var businessActivities := GetOr(scope.businessActivities, []);
    var productTypes := GetOr(scope.productTypes, []);

    var applicable := Select(tables.regulations, (g: Regulation) => Applies(jurisdiction, g));

    var actions := CollectRequirementActions(applicable);
    actions := AppendControlActions(actions, f);

    r := ComplianceReport(
      framework, f.name, f.focus, jurisdiction, businessActivities, productTypes,
      applicable, f.keyControls, actions,
      ["Prioritize high-priority compliance actions for immediate implementation",
       "Conduct regular audits against " + f.name + " standards",
       "Maintain documentation of all compliance controls and their effectiveness"]);
  }

  /** The number of requirement actions is the sum of the regulations' requirement counts. */
  lemma {:induction false} RequirementActionCount(regs: seq<Regulation>)
    ensures |RequirementActions(regs)| == TotalRequirements(regs)
  {
    if regs != [] {
      RequirementActionCount(regs[..|regs| - 1]);
    }
  }

  /** Every action taken from the framework's controls has priority "high". */
  lemma ControlActionsHigh(f: Framework)
    ensures |ControlActions(f)| == |f.keyControls|
    ensures forall a :: a in ControlActions(f) ==> a.priority == "high" && a.regulation == f.name
  {
  }

  /**
   * The sample anti-money-laundering regulation lists "global", so with the
   * sample tables it is applicable to every scope.
   */
  lemma AmlAlwaysApplicable(jurisdiction: string)
    ensures AmlKyc in Filter(SampleData.regulations, (g: Regulation) => Applies(jurisdiction, g))
  {
    FilterMembership(Regulations, (g: Regulation) => Applies(jurisdiction, g), AmlKyc);
  }

  /**
   * As constructed, the framework table is empty: every framework code is
   * unknown, and the advice lists no supported framework at all.
   */
  lemma InitializedReportAdvice(framework: string)
    ensures FindFramework(Initialized, framework).None?
    ensures forall f :: f in Initialized.complianceFrameworks ==> f.code != framework
    ensures UnknownFrameworkAdvice(Initialized) == "Select a supported framework: "
  {
    assert Map(Initialized.complianceFrameworks, FrameworkCode) == [];
    assert "Select a supported framework: " + "" == "Select a supported framework: ";
  }

  /**
   * With the sample tables, every sample framework code is found, and the
   * advice for an unknown one lists the four codes in table order.
   */
  lemma SampleFrameworksFound(f: Framework)
    requires f in ComplianceFrameworks
    ensures FindFramework(SampleData, f.code).Some?
    ensures UnknownFrameworkAdvice(SampleData)
         == "Select a supported framework: " + Join(", ", ["iso_27001", "pci_dss", "nist", "rbi_guidelines"])
  {
    SampleFrameworkCodes();
  }

  lemma SampleFrameworkCodes()
    ensures Map(SampleData.complianceFrameworks, FrameworkCode) == ["iso_27001", "pci_dss", "nist", "rbi_guidelines"]
  {
    var codes := Map(ComplianceFrameworks, FrameworkCode);
    assert codes[0] == "iso_27001";
    assert codes[1] == "pci_dss";
    assert codes[2] == "nist";
    assert codes[3] == "rbi_guidelines";
  }
}
