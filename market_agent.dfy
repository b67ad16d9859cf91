/**
 * `MarketAgent`: the market analysis of a business payload from fixed
 * per-industry tables, and the 100-point investment score built from five
 * bounded tiers.
 */
module MarketAgent {
  import opened Wrappers
  import opened BusinessData
  import opened SeqUtil

  // ----- the industry tables -----

  /** The five industries with their own market data, trends and risks. */
  predicate Known(industry: Option<string>)
  {
    && industry.Some?
    && (|| industry.value == "SaaS" || industry.value == "E-commerce" || industry.value == "Mobile Apps"
        || industry.value == "Fintech" || industry.value == "AI/ML")
  }

  datatype MarketFigures = MarketFigures(marketSize: real, growthRate: real, cagr: real)

  const DefaultFigures := MarketFigures(50000000000.0, 10.0, 12.0)

  /**
   * `_fetch_market_data(industry, location)`: the table row of a known
   * industry, otherwise the default row (50B, 10.0, 12.0). The location is
   * not consulted. `None` stands for an industry that is not a string.
   */
  function FetchMarketData(industry: Option<string>): (r: MarketFigures)
    ensures !Known(industry) <==> r == DefaultFigures
    ensures r.marketSize >= 50000000000.0 && r.growthRate >= 10.0
  {
    match industry
    case None => DefaultFigures
    case Some(name) =>
      if name == "SaaS" then MarketFigures(195000000000.0, 18.2, 21.1)
      else if name == "E-commerce" then MarketFigures(6500000000000.0, 14.7, 16.8)
      else if name == "Mobile Apps" then MarketFigures(133000000000.0, 15.3, 17.2)
      else if name == "Fintech" then MarketFigures(116000000000.0, 23.5, 25.8)
      else if name == "AI/ML" then MarketFigures(190000000000.0, 38.1, 42.3)
      else DefaultFigures
  }

  datatype Competition = Competition(level: string, barriers: string)

  /**
   * `_analyze_competition(industry, business_type)`: the table row, or
   * Medium/Medium for an industry outside the table. The business type is
   * not consulted.
   */
  function AnalyzeCompetition(industry: Option<string>): (r: Competition)
    ensures !Known(industry) && industry != Some("Marketplace") ==> r == Competition("Medium", "Medium")
    ensures r.level in {"Medium", "High", "Very High"} && r.barriers in {"Low", "Medium", "High", "Very High"}
  {
    match industry
    case None => Competition("Medium", "Medium")
    case Some(name) =>
      if name == "SaaS" then Competition("High", "Medium")
      else if name == "E-commerce" then Competition("Very High", "Low")
      else if name == "Mobile Apps" then Competition("Very High", "Low")
      else if name == "Fintech" then Competition("High", "Very High")
      else if name == "AI/ML" then Competition("Medium", "Very High")
      else if name == "Marketplace" then Competition("High", "High")
      else Competition("Medium", "Medium")
  }

  // ----- the investment score: five tiers with strict `>` thresholds -----

  function MarketPoints(marketSize: real): (p: int)
    ensures 15 <= p <= 30
    ensures p == 30 <==> marketSize > 100000000000.0
    ensures p == 25 <==> 50000000000.0 < marketSize <= 100000000000.0
    ensures p == 20 <==> 10000000000.0 < marketSize <= 50000000000.0
    ensures p == 15 <==> marketSize <= 10000000000.0
  {
    if marketSize > 100000000000.0 then 30
    else if marketSize > 50000000000.0 then 25
    else if marketSize > 10000000000.0 then 20
    else 15
  }

  function GrowthPoints(growthRate: real): (p: int)
    ensures 10 <= p <= 25
    ensures p == 25 <==> growthRate > 25.0
    ensures p == 20 <==> 15.0 < growthRate <= 25.0
    ensures p == 15 <==> 10.0 < growthRate <= 15.0
    ensures p == 10 <==> growthRate <= 10.0
  {
    if growthRate > 25.0 then 25
    else if growthRate > 15.0 then 20
    else if growthRate > 10.0 then 15
    else 10
  }

  /** Lower competition scores higher; any level other than Low, Medium or High scores 5. */
  function CompetitionPoints(level: string): (p: int)
    ensures 5 <= p <= 20
    ensures level == "Low" ==> p == 20
    ensures level == "Medium" ==> p == 15
    ensures level == "High" ==> p == 10
    ensures level !in {"Low", "Medium", "High"} ==> p == 5
  {
    if level == "Low" then 20
    else if level == "Medium" then 15
    else if level == "High" then 10
    else 5
  }

  /** Higher barriers score higher; any barrier other than Very High, High or Medium scores 5. */
  function BarrierPoints(barriers: string): (p: int)
    ensures 5 <= p <= 15
    ensures barriers == "Very High" ==> p == 15
    ensures barriers == "High" ==> p == 12
    ensures barriers == "Medium" ==> p == 8
    ensures barriers !in {"Very High", "High", "Medium"} ==> p == 5
  {
    if barriers == "Very High" then 15
    else if barriers == "High" then 12
    else if barriers == "Medium" then 8
    else 5
  }

  function QualityPoints(years: real): (p: int)
    ensures 2 <= p <= 10
    ensures p == 10 <==> years > 5.0
    ensures p == 7 <==> 2.0 < years <= 5.0
    ensures p == 5 <==> 1.0 < years <= 2.0
    ensures p == 2 <==> years <= 1.0
  {
    if years > 5.0 then 10
    else if years > 2.0 then 7
    else if years > 1.0 then 5
    else 2
  }

  /**
   * `_calculate_investment_score`: the five tiers summed, capped at 100. The
   * score lies in [37, 100], and the cap never changes it: the five tier
   * maxima add up to exactly 100.
   */
  function InvestmentScore(figures: MarketFigures, competition: Competition, years: real): (s: int)
    ensures 37 <= s <= 100
    ensures s == MarketPoints(figures.marketSize) + GrowthPoints(figures.growthRate)
      + CompetitionPoints(competition.level) + BarrierPoints(competition.barriers) + QualityPoints(years)
  {
    var total := MarketPoints(figures.marketSize) + GrowthPoints(figures.growthRate)
      + CompetitionPoints(competition.level) + BarrierPoints(competition.barriers) + QualityPoints(years);
    if total < 100 then total else 100
  }

  /** Lower competition scores higher, as the source's comment promises. */
  lemma CompetitionOrdering()
    ensures CompetitionPoints("Low") > CompetitionPoints("Medium") > CompetitionPoints("High")
      > CompetitionPoints("Very High")
  {
  }

  /** Higher barriers to entry score higher, as the source's comment promises. */
  lemma BarrierOrdering()
    ensures BarrierPoints("Very High") > BarrierPoints("High") > BarrierPoints("Medium") > BarrierPoints("Low")
  {
  }

  /** More market, more growth or more years never lower the score. */
  lemma InvestmentMonotone(f: MarketFigures, g: MarketFigures, competition: Competition, a: real, b: real)
    requires f.marketSize <= g.marketSize && f.growthRate <= g.growthRate && a <= b
    ensures InvestmentScore(f, competition, a) <= InvestmentScore(g, competition, b)
  {
    assert MarketPoints(f.marketSize) <= MarketPoints(g.marketSize);
    assert GrowthPoints(f.growthRate) <= GrowthPoints(g.growthRate);
    assert QualityPoints(a) <= QualityPoints(b);
  }

  /** The thresholds are strict: a value on a boundary takes the lower tier. */
  lemma StrictBoundaries()
    ensures MarketPoints(100000000000.0) == 25 && MarketPoints(50000000000.0) == 20
    ensures GrowthPoints(25.0) == 20 && GrowthPoints(15.0) == 15
    ensures QualityPoints(5.0) == 7 && QualityPoints(2.0) == 5 && QualityPoints(1.0) == 2
  {
  }

  // ----- the list builders -----

  const SaaSTrends: seq<string> :=
    ["Shift to subscription-based models", "AI/ML integration in business tools",
     "Remote work driving SaaS adoption", "API-first architecture becoming standard"]
  const ECommerceTrends: seq<string> :=
    ["Mobile commerce growth", "Social commerce emergence",
     "Sustainability focus in shopping", "Personalization and AI recommendations"]
  const MobileAppsTrends: seq<string> :=
    ["Super app model expansion", "Cross-platform development trends",
     "Privacy-first app development", "Voice and AR integration"]
  const FintechTrends: seq<string> :=
    ["Digital banking acceleration", "Cryptocurrency mainstream adoption",
     "Open banking and API ecosystems", "Buy now, pay later services growth"]
  const AiMlTrends: seq<string> :=
    ["Generative AI explosion", "Edge AI computing growth",
     "AutoML democratization", "AI ethics and governance focus"]
  const GenericTrends: seq<string> := ["Digital transformation acceleration", "Cloud adoption growth"]

  /** `_get_market_trends(industry)`: four trends of a known industry, else the two generic ones. */
  function MarketTrends(industry: Option<string>): (r: seq<string>)
    ensures |r| == (if Known(industry) then 4 else 2)
    ensures !Known(industry) ==> r == GenericTrends
  {
    match industry
    case None => GenericTrends
    case Some(name) =>
      if name == "SaaS" then SaaSTrends
      else if name == "E-commerce" then ECommerceTrends
      else if name == "Mobile Apps" then MobileAppsTrends
      else if name == "Fintech" then FintechTrends
      else if name == "AI/ML" then AiMlTrends
      else GenericTrends
  }

  const CommonRisks: seq<string> :=
    ["Market saturation risk", "Technology disruption", "Regulatory changes", "Economic downturn impact"]

  const SaaSRisks: seq<string> := ["Customer churn risk", "Competition from big tech", "Data security concerns"]
  const ECommerceRisks: seq<string> := ["Supply chain disruptions", "Platform dependency risk", "Return fraud"]
  const MobileAppsRisks: seq<string> := ["App store policy changes", "Privacy regulations", "Market fragmentation"]
  const FintechRisks: seq<string> := ["Regulatory compliance", "Cybersecurity threats", "Credit risk exposure"]
  const AiMlRisks: seq<string> := ["Data privacy regulations", "Bias and fairness issues", "Model interpretability"]

  /** The three risks specific to a known industry, none for any other. */
  function IndustryRisks(industry: Option<string>): (r: seq<string>)
    ensures |r| == (if Known(industry) then 3 else 0)
  {
    match industry
    case None => []
    case Some(name) =>
      if name == "SaaS" then SaaSRisks
      else if name == "E-commerce" then ECommerceRisks
      else if name == "Mobile Apps" then MobileAppsRisks
      else if name == "Fintech" then FintechRisks
      else if name == "AI/ML" then AiMlRisks
      else []
  }

  /** `_identify_risks`: the four common risks, then the industry's own. */
  function IdentifyRisks(industry: Option<string>): (r: seq<string>)
    ensures |r| == (if Known(industry) then 7 else 4)
    ensures r[..4] == CommonRisks && r[4..] == IndustryRisks(industry)
  {
    CommonRisks + IndustryRisks(industry)
  }

  const HighGrowthSegment := "High-growth market segment"
  const BaseOpportunities: seq<string> :=
    ["Digital transformation acceleration", "Remote work normalization", "Cloud migration ongoing"]

  /** `_identify_opportunities`: the three base items, plus the high-growth item above 20% growth. */
  function IdentifyOpportunities(figures: MarketFigures): (r: seq<string>)
    ensures |r| == (if figures.growthRate > 20.0 then 4 else 3)
    ensures r[..3] == BaseOpportunities
    ensures HighGrowthSegment in r <==> figures.growthRate > 20.0
  {
    if figures.growthRate > 20.0 then BaseOpportunities + [HighGrowthSegment] else BaseOpportunities
  }

  /** `_get_customer_segments`: three segments for B2B and for B2C, one mixed segment otherwise. */
  function CustomerSegments(businessType: Value): (r: seq<string>)
    ensures businessType == Str("B2B") ==> r == ["Small businesses", "Mid-market companies", "Enterprise clients"]
    ensures businessType == Str("B2C") ==> r == ["Millennials", "Gen Z consumers", "High-income demographics"]
    ensures businessType !in {Str("B2B"), Str("B2C")} ==> r == ["Mixed market segments"]
  {
    if businessType == Str("B2B") then ["Small businesses", "Mid-market companies", "Enterprise clients"]
    else if businessType == Str("B2C") then ["Millennials", "Gen Z consumers", "High-income demographics"]
    else ["Mixed market segments"]
  }

  const VeryHighPotential := "Very High - Large and fast-growing market"
  const HighPotential := "High - Substantial market opportunity"
  const MediumPotential := "Medium - Reasonable market potential"
  const LowPotential := "Low - Limited market size"

  /** `_estimate_revenue_potential`: the first of four tiers whose size and growth thresholds hold. */
  function RevenuePotential(figures: MarketFigures): (r: string)
    ensures r == VeryHighPotential <==> figures.marketSize > 100000000000.0 && figures.growthRate > 15.0
    ensures r == HighPotential <==>
      && !(figures.marketSize > 100000000000.0 && figures.growthRate > 15.0)
      && figures.marketSize > 50000000000.0 && figures.growthRate > 10.0
    ensures r == MediumPotential <==>
      && !(figures.marketSize > 100000000000.0 && figures.growthRate > 15.0)
      && !(figures.marketSize > 50000000000.0 && figures.growthRate > 10.0)
      && figures.marketSize > 10000000000.0
    ensures r == LowPotential <==> figures.marketSize <= 10000000000.0
    ensures r in {VeryHighPotential, HighPotential, MediumPotential, LowPotential}
  {
    if figures.marketSize > 100000000000.0 && figures.growthRate > 15.0 then VeryHighPotential
    else if figures.marketSize > 50000000000.0 && figures.growthRate > 10.0 then HighPotential
    else if figures.marketSize > 10000000000.0 then MediumPotential
    else LowPotential
  }

  // ----- the analysis -----

  datatype MarketAnalysis = MarketAnalysis(
    industry: Value,
    marketSize: real,
    growthRate: real,
    competitionLevel: string,
    barriersToEntry: string,
    investmentScore: int,
    marketTrends: seq<string>,
    risks: seq<string>,
    opportunities: seq<string>,
    customerSegments: seq<string>,
    revenuePotential: string)

  /**
   * `analyze_market`. The industry (default 'General') keys every table; a
   * list there is unhashable and the first lookup raises. `years_operated`
   * (default 0) is compared with `>`, which raises for a non-number.
   */
  function AnalyzeMarket(d: Data): (r: Result<MarketAnalysis>)
    ensures r.Ok? <==> !("industry" in d && d["industry"].List?) && NumOk(d, "years_operated")
    ensures r.Ok? ==> 37 <= r.value.investmentScore <= 100
    ensures r.Ok? ==> r.value.industry == GetOr(d, "industry", "General")
    ensures r.Ok? ==>
      var figures := FetchMarketData(KeyOr(d, "industry", "General"));
      && r.value.marketSize == figures.marketSize && r.value.growthRate == figures.growthRate
      && r.value.investmentScore == InvestmentScore(figures, AnalyzeCompetition(KeyOr(d, "industry", "General")),
                                                    NumOr0(d, "years_operated"))
    ensures r.Ok? ==>
      var industry := KeyOr(d, "industry", "General");
      && r.value.competitionLevel == AnalyzeCompetition(industry).level
      && r.value.barriersToEntry == AnalyzeCompetition(industry).barriers
      && r.value.marketTrends == MarketTrends(industry)
      && r.value.risks == IdentifyRisks(industry)
      && r.value.opportunities == IdentifyOpportunities(FetchMarketData(industry))
      && r.value.customerSegments == CustomerSegments(GetOr(d, "type", "B2B"))
      && r.value.revenuePotential == RevenuePotential(FetchMarketData(industry))
  {
    FieldReaders(d, "industry", ">", "General");
    FieldReaders(d, "years_operated", ">", "");
    match KeyField(d, "industry", "General")
    case Err(e) => Err(e)
    case Ok(industry) =>
      var figures := FetchMarketData(industry);
      var competition := AnalyzeCompetition(industry);
      match NumberField(d, "years_operated", ">")
      case Err(e) => Err(e)
      case Ok(years) =>
        Ok(MarketAnalysis(
          GetOr(d, "industry", "General"),
          figures.marketSize, figures.growthRate,
          competition.level, competition.barriers,
          InvestmentScore(figures, competition, years),
          MarketTrends(industry),
          IdentifyRisks(industry),
          IdentifyOpportunities(figures),
          CustomerSegments(GetOr(d, "type", "B2B")),
          RevenuePotential(figures)))
  }

  /** The example payload of the source's demonstration run. */
  const Example: Data := map[
    "name" := Str("SaaS Company"), "industry" := Str("SaaS"), "location" := Str("US"),
    "type" := Str("B2B"), "years_operated" := Num(3.0)]

  /** SaaS, 3 years: market 30 + growth 20 (18.2%) + competition 10 (High) + barriers 8 (Medium) + quality 7 = 75. */
  lemma ExampleAnalysis()
    ensures AnalyzeMarket(Example).Ok?
    ensures AnalyzeMarket(Example).value.investmentScore == 75
    ensures AnalyzeMarket(Example).value.competitionLevel == "High"
    ensures |AnalyzeMarket(Example).value.risks| == 7
    ensures AnalyzeMarket(Example).value.revenuePotential == VeryHighPotential
  {
  }

  /**
   * An industry missing from the tables gets the default figures and
   * Medium/Medium competition: 20 (50B is not above 50B) + 10 (10% is not
   * above 10%) + 15 + 8, plus the years tier.
   */
  lemma UnknownIndustryDefaults(d: Data)
    requires "industry" in d && d["industry"] == Str("Robotics") && NumOk(d, "years_operated")
    ensures AnalyzeMarket(d).Ok?
    ensures AnalyzeMarket(d).value.investmentScore == 53 + QualityPoints(NumOr0(d, "years_operated"))
    ensures AnalyzeMarket(d).value.marketSize == 50000000000.0
    ensures |AnalyzeMarket(d).value.risks| == 4 && |AnalyzeMarket(d).value.opportunities| == 3
  {
  }

  // ----- batches -----

  /** One `batch_analyze` entry: the analysis with the payload's `id` and `name` (None when absent). */
  datatype TaggedAnalysis = TaggedAnalysis(analysis: MarketAnalysis, businessId: Value, businessName: Value)

  /** The entry `batch_analyze` appends for one payload, or None when the analysis raises. */
  function Tagged(d: Data): (r: Option<TaggedAnalysis>)
    ensures r.Some? <==> AnalyzeMarket(d).Ok?
    ensures r.Some? ==> r.value == TaggedAnalysis(AnalyzeMarket(d).value, Get(d, "id"), Get(d, "name"))
  {
    match AnalyzeMarket(d)
    case Ok(a) => Some(TaggedAnalysis(a, Get(d, "id"), Get(d, "name")))
    case Err(_) => None
  }

  /** `batch_analyze`: analyse each payload in order, tag it, and skip the ones that raise. */
  method BatchAnalyze(businesses: seq<Data>) returns (analyses: seq<TaggedAnalysis>)
    ensures analyses == FilterMap(Tagged, businesses)
    ensures |analyses| <= |businesses|
  {
    analyses := [];
    for i := 0 to |businesses|
      invariant analyses == FilterMap(Tagged, businesses[..i])
    {
      FilterMapPrefix(Tagged, businesses, i);
      match AnalyzeMarket(businesses[i]) {
        case Ok(a) => analyses := analyses + [TaggedAnalysis(a, Get(businesses[i], "id"), Get(businesses[i], "name"))];
        case Err(_) =>
      }
    }
    TakeAll(businesses);
  }

  /**
   * Each entry of the batch is the tagged analysis of a distinct input, in
   * input order, and every input left out is one whose analysis raises.
   */
  lemma BatchAnalyzeOrder(businesses: seq<Data>) returns (idx: seq<nat>)
    ensures |idx| == |FilterMap(Tagged, businesses)|
    ensures StrictlyIncreasing(idx)
    ensures forall k :: 0 <= k < |idx| ==>
      && idx[k] < |businesses|
      && AnalyzeMarket(businesses[idx[k]]).Ok?
      && FilterMap(Tagged, businesses)[k].businessId == Get(businesses[idx[k]], "id")
      && FilterMap(Tagged, businesses)[k].businessName == Get(businesses[idx[k]], "name")
    ensures forall i :: 0 <= i < |businesses| && i !in idx ==> AnalyzeMarket(businesses[i]).Err?
  {
    idx := FilterMapIndices(Tagged, businesses);
  }
}
