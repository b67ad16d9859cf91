/**
 * `Pipeline`: the listing pipeline that scores a batch of business
 * payloads, keeps the high scorers as listings, and deploys each listing.
 */
module Pipeline {
  import opened Wrappers
  import opened BusinessData
  import opened SeqUtil
  import Tiers
  import AiScorer
  import MarketAgent

  // ----- analyze_business_opportunities -----

  /** One opportunity: the payload's `id` and `name`, its market analysis and that analysis's score. */
  datatype Opportunity = Opportunity(
    businessId: Value, businessName: Value, analysis: MarketAgent.MarketAnalysis, investmentPotential: int)

  /** The opportunity a payload yields, or None when its market analysis raises. */
  function OpportunityOf(d: Data): (r: Option<Opportunity>)
    ensures r.Some? <==> MarketAgent.AnalyzeMarket(d).Ok?
    ensures r.Some? ==>
      && r.value.analysis == MarketAgent.AnalyzeMarket(d).value
      && r.value.investmentPotential == r.value.analysis.investmentScore
      && r.value.businessId == Get(d, "id") && r.value.businessName == Get(d, "name")
  {
    match MarketAgent.AnalyzeMarket(d)
    case Ok(a) => Some(Opportunity(Get(d, "id"), Get(d, "name"), a, a.investmentScore))
    case Err(_) => None
  }

  /** `analyze_business_opportunities`: one opportunity per payload whose analysis succeeds, in order. */
  method AnalyzeBusinessOpportunities(marketData: seq<Data>) returns (opportunities: seq<Opportunity>)
    ensures opportunities == FilterMap(OpportunityOf, marketData)
    ensures |opportunities| <= |marketData|
  {
    opportunities := [];
    for i := 0 to |marketData|
      invariant opportunities == FilterMap(OpportunityOf, marketData[..i])
    {
      FilterMapPrefix(OpportunityOf, marketData, i);
      match MarketAgent.AnalyzeMarket(marketData[i]) {
        case Ok(a) =>
          opportunities := opportunities + [Opportunity(Get(marketData[i], "id"), Get(marketData[i], "name"), a, a.investmentScore)];
        case Err(_) =>
      }
    }
    TakeAll(marketData);
  }

  /** Every opportunity's investment potential lies in [37, 100]. */
  lemma OpportunityBounds(marketData: seq<Data>)
    ensures forall o :: o in FilterMap(OpportunityOf, marketData) ==> 37 <= o.investmentPotential <= 100
  {
    var idx := FilterMapIndices(OpportunityOf, marketData);
    forall o | o in FilterMap(OpportunityOf, marketData)
      ensures 37 <= o.investmentPotential <= 100
    {
      var k :| 0 <= k < |FilterMap(OpportunityOf, marketData)| && FilterMap(OpportunityOf, marketData)[k] == o;
      assert OpportunityOf(marketData[idx[k]]) == Some(o);
    }
  }

  // ----- score_businesses -----

  datatype ScoredBusiness = ScoredBusiness(
    businessId: Value, businessName: Value,
    overall: real, revenue: real, growth: real, market: real, risk: real, reasoning: seq<string>)

  /** The scored entry a payload yields, or None when scoring raises. */
  function ScoredOf(d: Data): (r: Option<ScoredBusiness>)
    ensures r.Some? <==> AiScorer.ScoreBusiness(d).Ok?
    ensures r.Some? ==>
      var s := AiScorer.ScoreBusiness(d).value;
      && r.value.businessId == Get(d, "id") && r.value.businessName == Get(d, "name")
      && r.value.overall == s.overall && r.value.revenue == s.revenue && r.value.growth == s.growth
      && r.value.market == s.market && r.value.risk == s.risk && r.value.reasoning == s.reasoning
  {
    match AiScorer.ScoreBusiness(d)
    case Ok(s) => Some(ScoredBusiness(Get(d, "id"), Get(d, "name"), s.overall, s.revenue, s.growth, s.market, s.risk, s.reasoning))
    case Err(_) => None
  }

  /** `score_businesses`: one entry per payload that scores, in order; the others are skipped. */
  method ScoreBusinesses(businesses: seq<Data>) returns (scored: seq<ScoredBusiness>)
    ensures scored == FilterMap(ScoredOf, businesses)
    ensures |scored| <= |businesses|
  {
    scored := [];
    for i := 0 to |businesses|
      invariant scored == FilterMap(ScoredOf, businesses[..i])
    {
      FilterMapPrefix(ScoredOf, businesses, i);
      var entry := ScoredOf(businesses[i]);
      if entry.Some? {
        scored := scored + [entry.value];
      }
    }
    TakeAll(businesses);
  }

  /**
   * The scored entries are those of distinct payloads in input order, and a
   * payload is missing only when scoring it raises.
   */
  lemma ScoredOrder(businesses: seq<Data>) returns (idx: seq<nat>)
    ensures |idx| == |FilterMap(ScoredOf, businesses)|
    ensures StrictlyIncreasing(idx)
    ensures forall k :: 0 <= k < |idx| ==>
      && idx[k] < |businesses|
      && FilterMap(ScoredOf, businesses)[k].businessId == Get(businesses[idx[k]], "id")
      && AiScorer.ScoreBusiness(businesses[idx[k]]).Ok?
      && FilterMap(ScoredOf, businesses)[k].overall == AiScorer.ScoreBusiness(businesses[idx[k]]).value.overall
    ensures forall i :: 0 <= i < |businesses| && i !in idx ==> AiScorer.ScoreBusiness(businesses[i]).Err?
  {
    idx := FilterMapIndices(ScoredOf, businesses);
  }

  // ----- generate_listings -----

  /** The listing threshold and the recommendation rule of the investment summary. */
  const ListingThreshold := 70.0

  function Recommendation(overall: real): (r: string)
    ensures r == "STRONG BUY" <==> overall >= 85.0
    ensures r == "BUY" <==> 70.0 <= overall < 85.0
    ensures r == "HOLD" <==> overall < 70.0
  {
    if overall >= 85.0 then "STRONG BUY" else if overall >= 70.0 then "BUY" else "HOLD"
  }

  /** A listing: the business id it lists and the recommendation of its summary. */
  datatype Listing = Listing(businessId: Value, overall: real, recommendation: string)

  /** The listing of a scored entry, when it reaches the threshold. */
  function ListingOf(b: ScoredBusiness): (r: Option<Listing>)
    ensures r.Some? <==> b.overall >= ListingThreshold
    ensures r.Some? ==> r.value.businessId == b.businessId && r.value.overall == b.overall
    ensures r.Some? ==> r.value.recommendation == Recommendation(b.overall)
    ensures r.Some? ==> r.value.recommendation in {"STRONG BUY", "BUY"}
  {
    if b.overall >= ListingThreshold then Some(Listing(b.businessId, b.overall, Recommendation(b.overall))) else None
  }

  /** `generate_listings`: a listing for each scored entry at or above 70, in order. */
  method GenerateListings(scored: seq<ScoredBusiness>) returns (listings: seq<Listing>)
    ensures listings == FilterMap(ListingOf, scored)
  {
    listings := [];
    for i := 0 to |scored|
      invariant listings == FilterMap(ListingOf, scored[..i])
    {
      FilterMapPrefix(ListingOf, scored, i);
      if scored[i].overall >= ListingThreshold {
        listings := listings + [Listing(scored[i].businessId, scored[i].overall, Recommendation(scored[i].overall))];
      }
    }
    TakeAll(scored);
  }

  /** `[b for b in scored if b.overall >= 70]`, the high-quality count's list. */
  function HighQuality(scored: seq<ScoredBusiness>): (r: seq<ScoredBusiness>)
    ensures |r| <= |scored|
    ensures forall b :: b in r ==> b in scored && b.overall >= ListingThreshold
    ensures forall b :: b in scored && b.overall >= ListingThreshold ==> b in r
  {
    if scored == [] then []
    else
      assert scored == scored[..|scored| - 1] + [scored[|scored| - 1]];
      var rest := HighQuality(scored[..|scored| - 1]);
      var last := scored[|scored| - 1];
      if last.overall >= ListingThreshold then rest + [last] else rest
  }

  /**
   * The listings are exactly the high-quality entries: the same number,
   * and the k-th listing lists the k-th high-quality business.
   */
  lemma {:induction false} ListingsAreHighQuality(scored: seq<ScoredBusiness>)
    ensures |FilterMap(ListingOf, scored)| == |HighQuality(scored)|
    ensures forall k :: 0 <= k < |HighQuality(scored)| ==>
      FilterMap(ListingOf, scored)[k].businessId == HighQuality(scored)[k].businessId
  {
    if scored != [] {
      var n := |scored| - 1;
      ListingsAreHighQuality(scored[..n]);
      assert scored == scored[..n] + [scored[n]];
      FilterMapSnoc(ListingOf, scored[..n], scored[n]);
    }
  }

  /** No listing is ever recommended HOLD: HOLD lies below the listing threshold. */
  lemma ListingsNeverHold(scored: seq<ScoredBusiness>)
    ensures forall l :: l in FilterMap(ListingOf, scored) ==> l.recommendation != "HOLD"
  {
    var idx := FilterMapIndices(ListingOf, scored);
    forall l | l in FilterMap(ListingOf, scored)
      ensures l.recommendation != "HOLD"
    {
      var k :| 0 <= k < |FilterMap(ListingOf, scored)| && FilterMap(ListingOf, scored)[k] == l;
      assert ListingOf(scored[idx[k]]) == Some(l);
    }
  }

  // ----- deploy_listings -----

  /** An id as the source's f-string renders it: a string as itself, a missing id as `None`. */
  function Render(v: Value): (r: string)
    ensures v.Str? ==> r == v.s
    ensures v.Null? ==> r == "None"
  {
    match v
    case Str(s) => s
    case Null => "None"
    case _ => ""
  }

  const UrlPrefix := "https://marketplace.com/listing/"
  const DeployedAt := "2025-10-30T12:00:00Z"

  datatype DeploymentResult = DeploymentResult(listingId: Value, status: string, marketplaceUrl: string, deployedAt: string)

  /** The result of deploying one listing: always deployed, at the listing's marketplace URL. */
  function Deploy(l: Listing): (r: DeploymentResult)
    ensures r.listingId == l.businessId && r.status == "deployed"
    ensures |r.marketplaceUrl| == |UrlPrefix| + |Render(l.businessId)|
    ensures r.marketplaceUrl[..|UrlPrefix|] == UrlPrefix && r.marketplaceUrl[|UrlPrefix|..] == Render(l.businessId)
  {
    DeploymentResult(l.businessId, "deployed", UrlPrefix + Render(l.businessId), DeployedAt)
  }

  /** `deploy_listings`: one result per listing, in the same order. */
  method DeployListings(listings: seq<Listing>) returns (results: seq<DeploymentResult>)
    ensures |results| == |listings|
    ensures forall i :: 0 <= i < |listings| ==> results[i] == Deploy(listings[i])
  {
    results := [];
    for i := 0 to |listings|
      invariant |results| == i
      invariant forall j :: 0 <= j < i ==> results[j] == Deploy(listings[j])
    {
      results := results + [Deploy(listings[i])];
    }
  }

  /** `[r for r in results if r.status == 'deployed']`. */
  function Deployed(results: seq<DeploymentResult>): (r: seq<DeploymentResult>)
    ensures |r| <= |results|
    ensures forall x :: x in r <==> x in results && x.status == "deployed"
  {
    if results == [] then []
    else
      var rest := Deployed(results[..|results| - 1]);
      var last := results[|results| - 1];
      if last.status == "deployed" then rest + [last] else rest
  }

  /** When every result is deployed, the deployed count is the number of results. */
  lemma {:induction false} AllDeployed(results: seq<DeploymentResult>)
    requires forall i :: 0 <= i < |results| ==> results[i].status == "deployed"
    ensures |Deployed(results)| == |results|
  {
    if results != [] {
      AllDeployed(results[..|results| - 1]);
    }
  }

  // ----- full_pipeline -----

  datatype PipelineResult = PipelineResult(
    totalBusinessesProcessed: nat,
    highQualityOpportunities: nat,
    listingsGenerated: nat,
    successfulDeployments: nat,
    scoredBusinesses: seq<ScoredBusiness>,
    deploymentResults: seq<DeploymentResult>)

  /** The two payloads the pipeline runs on when it is given none. */
  const SampleStartup: Data := map[
    "id" := Str("1"), "name" := Str("Tech Startup A"), "monthly_revenue" := Num(50000.0),
    "monthly_profit" := Num(25000.0), "growth_rate" := Num(30.0), "market_size" := Num(100000000.0),
    "industry" := Str("SaaS"), "years_operated" := Num(2.0)]
  const SampleShop: Data := map[
    "id" := Str("2"), "name" := Str("E-commerce Business B"), "monthly_revenue" := Num(25000.0),
    "monthly_profit" := Num(12000.0), "growth_rate" := Num(20.0), "market_size" := Num(50000000.0),
    "industry" := Str("E-commerce"), "years_operated" := Num(4.0)]
  const SampleData: seq<Data> := [SampleStartup, SampleShop]

  /**
   * `full_pipeline`: analyse, score, list and deploy. Every payload counts
   * as processed, skipped or not; every high-quality entry becomes a
   * listing and every listing deploys.
   */
  method FullPipeline(marketData: Option<seq<Data>>) returns (results: PipelineResult)
    ensures var data := if marketData.Some? then marketData.value else SampleData;
      && results.totalBusinessesProcessed == |data|
      && results.scoredBusinesses == FilterMap(ScoredOf, data)
      && results.highQualityOpportunities == |HighQuality(results.scoredBusinesses)|
    ensures results.listingsGenerated == results.highQualityOpportunities
    ensures results.successfulDeployments == results.listingsGenerated
    ensures results.highQualityOpportunities <= results.totalBusinessesProcessed
    ensures |results.deploymentResults| == results.listingsGenerated
    ensures forall i :: 0 <= i < |results.deploymentResults| ==>
      && results.deploymentResults[i].status == "deployed"
      && results.deploymentResults[i].listingId == HighQuality(results.scoredBusinesses)[i].businessId
  {
    var data := if marketData.Some? then marketData.value else SampleData;
    var opportunities := AnalyzeBusinessOpportunities(data);
    var scored := ScoreBusinesses(data);
    var listings := GenerateListings(scored);
    var deployments := DeployListings(listings);
    ListingsAreHighQuality(scored);
    AllDeployed(deployments);
    results := PipelineResult(|data|, |HighQuality(scored)|, |listings|, |Deployed(deployments)|, scored, deployments);
  }

  /** Revenue 95, growth 95, market 90 x 1.2 = 108, risk 50 (2 years): overall 89.25, at the STRONG BUY level. */
  lemma SampleStartupScores()
    ensures ScoredOf(SampleStartup).Some? && ScoredOf(SampleStartup).value.overall == 89.25
  {
    assert NumOr0(SampleStartup, "monthly_revenue") == 50000.0 && NumOr0(SampleStartup, "growth_rate") == 30.0;
    assert NumOr0(SampleStartup, "market_size") == 100000000.0 && NumOr0(SampleStartup, "years_operated") == 2.0;
    assert KeyOr(SampleStartup, "industry", "Unknown") == Some("SaaS");
    assert Tiers.ComponentsOf(SampleStartup, "Unknown") == Ok(Tiers.Components(95, 95, 108.0, 50));
    assert AiScorer.RiskFactors(SampleStartup) == Ok([]);
  }

  /** Revenue 80, growth 80, market 90 x 1.1 = 99, risk 70 (4 years): overall 82.75, at the BUY level. */
  lemma SampleShopScores()
    ensures ScoredOf(SampleShop).Some? && ScoredOf(SampleShop).value.overall == 82.75
  {
    assert NumOr0(SampleShop, "monthly_revenue") == 25000.0 && NumOr0(SampleShop, "growth_rate") == 20.0;
    assert NumOr0(SampleShop, "market_size") == 50000000.0 && NumOr0(SampleShop, "years_operated") == 4.0;
    assert KeyOr(SampleShop, "industry", "Unknown") == Some("E-commerce");
    assert Tiers.ComponentsOf(SampleShop, "Unknown") == Ok(Tiers.Components(80, 80, 99.0, 70));
    assert AiScorer.RiskFactors(SampleShop) == Ok([]);
  }
}
