/**
 * The threshold tier functions. `queued_scorer.py` and `ai_scorer.py` carry
 * identical copies of the revenue, growth and market tiers, and the
 * experience tier of the queued scorer is the base of the AI scorer's risk
 * tier; they are defined here once. All thresholds are strict `<`.
 */
module Tiers {
  import opened Wrappers
  import opened BusinessData

  /** `_score_revenue(revenue, profit)`: profit is accepted and ignored. */
  function RevenueScore(revenue: real, profit: real): (r: int)
    ensures r in {20, 40, 60, 80, 95}
    ensures r == 20 <==> revenue < 1000.0
    ensures r == 40 <==> 1000.0 <= revenue < 5000.0
    ensures r == 60 <==> 5000.0 <= revenue < 15000.0
    ensures r == 80 <==> 15000.0 <= revenue < 50000.0
    ensures r == 95 <==> revenue >= 50000.0
  {
    if revenue < 1000.0 then 20
    else if revenue < 5000.0 then 40
    else if revenue < 15000.0 then 60
    else if revenue < 50000.0 then 80
    else 95
  }

  /** `_score_growth(growth_rate)`. */
  function GrowthScore(growthRate: real): (r: int)
    ensures r in {10, 30, 60, 80, 95}
    ensures r == 10 <==> growthRate < 0.0
    ensures r == 30 <==> 0.0 <= growthRate < 5.0
    ensures r == 60 <==> 5.0 <= growthRate < 15.0
    ensures r == 80 <==> 15.0 <= growthRate < 30.0
    ensures r == 95 <==> growthRate >= 30.0
  {
    if growthRate < 0.0 then 10
    else if growthRate < 5.0 then 30
    else if growthRate < 15.0 then 60
    else if growthRate < 30.0 then 80
    else 95
  }

  /** `_score_experience(years_operated)`, also the base of `_score_risk`. */
  function ExperienceScore(years: real): (r: int)
    ensures r in {30, 50, 70, 85}
    ensures r == 30 <==> years < 1.0
    ensures r == 50 <==> 1.0 <= years < 3.0
    ensures r == 70 <==> 3.0 <= years < 5.0
    ensures r == 85 <==> years >= 5.0
  {
    if years < 1.0 then 30
    else if years < 3.0 then 50
    else if years < 5.0 then 70
    else 85
  }

  /**
   * The industry multiplier table; any other industry, and an industry that
   * is not a string at all (`None`), gets 1.0.
   */
  function IndustryMultiplier(industry: Option<string>): (m: real)
    ensures 0.9 <= m <= 1.2
    ensures industry == Some("SaaS") ==> m == 1.2
    ensures industry == Some("E-commerce") ==> m == 1.1
    ensures industry == Some("Marketplace") ==> m == 1.15
    ensures industry == Some("Service") ==> m == 0.9
    ensures industry.None? || industry.value !in {"SaaS", "E-commerce", "Marketplace", "Service"} ==> m == 1.0
  {
    match industry
    case None => 1.0
    case Some(name) =>
      if name == "SaaS" then 1.2
      else if name == "E-commerce" then 1.1
      else if name == "Marketplace" then 1.15
      else if name == "Mobile App" then 1.0
      else if name == "Web App" then 1.0
      else if name == "Service" then 0.9
      else 1.0
  }

  /** The market size tier before the multiplier is applied. */
  function MarketBase(marketSize: real): (r: int)
    ensures r in {30, 50, 70, 90}
    ensures r == 30 <==> marketSize < 100000.0
    ensures r == 50 <==> 100000.0 <= marketSize < 1000000.0
    ensures r == 70 <==> 1000000.0 <= marketSize < 10000000.0
    ensures r == 90 <==> marketSize >= 10000000.0
  {
    if marketSize < 100000.0 then 30
    else if marketSize < 1000000.0 then 50
    else if marketSize < 10000000.0 then 70
    else 90
  }

  /**
   * `_score_market(market_size, industry)`: the tier times the multiplier,
   * with no clamp, so it can exceed 100 (SaaS on a large market gives 108).
   */
  function MarketScore(marketSize: real, industry: Option<string>): (r: real)
    ensures 27.0 <= r <= 108.0
    ensures IndustryMultiplier(industry) == 1.0 ==> r == MarketBase(marketSize) as real
  {
    MarketBase(marketSize) as real * IndustryMultiplier(industry)
  }

  /** The revenue tier is monotone and does not look at profit. */
  lemma RevenueMonotone(a: real, b: real, p: real, q: real)
    requires a <= b
    ensures RevenueScore(a, p) <= RevenueScore(b, q)
    ensures RevenueScore(a, p) == RevenueScore(a, q)
  {
  }

  lemma GrowthMonotone(a: real, b: real)
    requires a <= b
    ensures GrowthScore(a) <= GrowthScore(b)
  {
  }

  lemma ExperienceMonotone(a: real, b: real)
    requires a <= b
    ensures ExperienceScore(a) <= ExperienceScore(b)
  {
  }

  /** For a fixed industry the market score is monotone in market size. */
  lemma MarketMonotone(a: real, b: real, industry: Option<string>)
    requires a <= b
    ensures MarketScore(a, industry) <= MarketScore(b, industry)
  {
    var m := IndustryMultiplier(industry);
    assert MarketBase(a) as real <= MarketBase(b) as real;
    assert MarketBase(a) as real * m <= MarketBase(b) as real * m;
  }

  /** The unclamped top of the market tier: 90 times 1.2. */
  lemma MarketUnclamped()
    ensures MarketScore(10000000.0, Some("SaaS")) == 108.0
    ensures MarketScore(50000000.0, Some("Unknown")) == 90.0
  {
  }

  /** The four tier results of a payload before weighting. */
  datatype Components = Components(revenue: int, growth: int, market: real, experience: int)

  /**
   * The tiers both scorers compute from a payload, read with defaults 0 and
   * the scorer's own default industry. Fields are checked in the order the
   * scorers touch them (revenue, growth, the industry lookup, market size,
   * years), so the first field that makes Python raise supplies the message.
   */
  function ComponentsOf(d: Data, industryDefault: string): (r: Result<Components>)
    ensures r.Ok? <==>
      (NumOk(d, "monthly_revenue") && NumOk(d, "growth_rate")
       && !("industry" in d && d["industry"].List?) && NumOk(d, "market_size") && NumOk(d, "years_operated"))
    ensures r.Ok? ==> r.value == Components(
      RevenueScore(NumOr0(d, "monthly_revenue"), NumOr0(d, "monthly_profit")),
      GrowthScore(NumOr0(d, "growth_rate")),
      MarketScore(NumOr0(d, "market_size"), KeyOr(d, "industry", industryDefault)),
      ExperienceScore(NumOr0(d, "years_operated")))
  {
    FieldReaders(d, "monthly_revenue", "<", "");
    FieldReaders(d, "growth_rate", "<", "");
    FieldReaders(d, "industry", "<", industryDefault);
    FieldReaders(d, "market_size", "<", "");
    FieldReaders(d, "years_operated", "<", "");
    match NumberField(d, "monthly_revenue", "<")
    case Err(e) => Err(e)
    case Ok(revenue) =>
      match NumberField(d, "growth_rate", "<")
      case Err(e) => Err(e)
      case Ok(growth) =>
        match KeyField(d, "industry", industryDefault)
        case Err(e) => Err(e)
        case Ok(industry) =>
          match NumberField(d, "market_size", "<")
          case Err(e) => Err(e)
          case Ok(size) =>
            match NumberField(d, "years_operated", "<")
            case Err(e) => Err(e)
            case Ok(years) =>
              // monthly_profit is read but never compared, so any value passes
              Ok(Components(RevenueScore(revenue, NumOr0(d, "monthly_profit")), GrowthScore(growth),
                            MarketScore(size, industry), ExperienceScore(years)))
  }

  /**
   * The default industry only picks the 1.0 multiplier, like every name
   * outside the table, so it never changes the components.
   */
  lemma DefaultIndustryIrrelevant(d: Data, a: string, b: string)
    requires IndustryMultiplier(Some(a)) == 1.0 && IndustryMultiplier(Some(b)) == 1.0
    ensures ComponentsOf(d, a) == ComponentsOf(d, b)
  {
  }

  /**
   * The weighted average 0.3 / 0.25 / 0.25 / 0.2, in exact arithmetic. The
   * weights add up to one, so four equal scores average to that score.
   */
  function Weighted(revenue: real, growth: real, market: real, last: real): (r: real)
    ensures revenue == growth == market == last ==> r == revenue
  {
    revenue * 0.3 + growth * 0.25 + market * 0.25 + last * 0.2
  }

  /** The average lies between the lowest and the highest of the four scores. */
  lemma WeightedWithin(revenue: real, growth: real, market: real, last: real, lo: real, hi: real)
    requires lo <= revenue <= hi && lo <= growth <= hi && lo <= market <= hi && lo <= last <= hi
    ensures lo <= Weighted(revenue, growth, market, last) <= hi
  {
  }

  /** Raising any one score never lowers the average. */
  lemma WeightedMonotone(a: seq<real>, b: seq<real>)
    requires |a| == 4 && |b| == 4
    requires forall i :: 0 <= i < 4 ==> a[i] <= b[i]
    ensures Weighted(a[0], a[1], a[2], a[3]) <= Weighted(b[0], b[1], b[2], b[3])
  {
    assert a[0] <= b[0] && a[1] <= b[1] && a[2] <= b[2] && a[3] <= b[3];
  }

  const StrongRevenue := "Strong revenue generation with healthy profitability"
  const ModerateRevenue := "Moderate revenue with decent profit margins"
  const WeakRevenue := "Revenue needs improvement for better investment appeal"
  const StrongGrowth := "Excellent growth trajectory indicating market opportunity"
  const ModerateGrowth := "Steady growth with potential for acceleration"
  const WeakGrowth := "Growth is limited, may need strategic improvements"
  const StrongMarket := "Large addressable market with favorable industry dynamics"
  const ModerateMarket := "Decent market size with reasonable competition"
  const WeakMarket := "Market opportunity may be limited"

  /** The reasoning tier shared by every line: >= 80, then >= 60, else the third text. */
  function Band(score: real, high: string, mid: string, low: string): (r: string)
    ensures r in {high, mid, low}
    ensures score >= 80.0 ==> r == high
    ensures 60.0 <= score < 80.0 ==> r == mid
    ensures score < 60.0 ==> r == low
  {
    if score >= 80.0 then high else if score >= 60.0 then mid else low
  }

}
