/**
 * `QueuedScorer._score_business` and `_generate_reasoning`: the scoring
 * function the worker runs on a job's business data.
 */
module QueuedScoring {
  import opened Wrappers
  import opened BusinessData
  import opened Tiers

  datatype ScoreData = ScoreData(score: real, reasoning: seq<string>)

  const StrongExperience := "Proven track record with established operations"
  const ModerateExperience := "Some operational experience with growth potential"
  const WeakExperience := "Newer operation requiring additional validation"

  /** 2 for a score of 80 or more, 1 from 60, else 0: the band a reasoning line reports. */
  function BandIndex(score: real): (b: int)
    ensures 0 <= b <= 2
  {
    if score >= 80.0 then 2 else if score >= 60.0 then 1 else 0
  }

  /** `_generate_reasoning`: one line each for revenue, growth, market and experience. */
  function GenerateReasoning(revenue: real, growth: real, market: real, experience: real): (r: seq<string>)
    ensures |r| == 4
    ensures r[0] == Band(revenue, StrongRevenue, ModerateRevenue, WeakRevenue)
    ensures r[1] == Band(growth, StrongGrowth, ModerateGrowth, WeakGrowth)
    ensures r[2] == Band(market, StrongMarket, ModerateMarket, WeakMarket)
    ensures r[3] == Band(experience, StrongExperience, ModerateExperience, WeakExperience)
  {
    [ Band(revenue, StrongRevenue, ModerateRevenue, WeakRevenue),
      Band(growth, StrongGrowth, ModerateGrowth, WeakGrowth),
      Band(market, StrongMarket, ModerateMarket, WeakMarket),
      Band(experience, StrongExperience, ModerateExperience, WeakExperience) ]
  }

  /**
   * The reasoning reports exactly the band of each score: two score tuples
   * get the same four lines if and only if every score is in the same band.
   */
  lemma ReasoningReportsBands(a: seq<real>, b: seq<real>)
    requires |a| == 4 && |b| == 4
    ensures GenerateReasoning(a[0], a[1], a[2], a[3]) == GenerateReasoning(b[0], b[1], b[2], b[3])
        <==> forall i :: 0 <= i < 4 ==> BandIndex(a[i]) == BandIndex(b[i])
  {
    var ra := GenerateReasoning(a[0], a[1], a[2], a[3]);
    var rb := GenerateReasoning(b[0], b[1], b[2], b[3]);
    assert StrongRevenue != ModerateRevenue && StrongRevenue != WeakRevenue && ModerateRevenue != WeakRevenue;
    assert StrongGrowth != ModerateGrowth && StrongGrowth != WeakGrowth && ModerateGrowth != WeakGrowth;
    assert StrongMarket != ModerateMarket && StrongMarket != WeakMarket && ModerateMarket != WeakMarket;
    assert StrongExperience != ModerateExperience && StrongExperience != WeakExperience
      && ModerateExperience != WeakExperience;
    if ra == rb {
      forall i | 0 <= i < 4 ensures BandIndex(a[i]) == BandIndex(b[i]) {
        assert ra[i] == rb[i];
      }
    }
  }

  /**
   * `_score_business`: the weighted score and the four reasoning lines, or
   * the message of the exception a malformed field raises. The score lies
   * between the weighted minimum and maximum of the tiers.
   */
  function ScoreBusiness(d: Data): (r: Result<ScoreData>)
    ensures r.Ok? <==> ComponentsOf(d, "General").Ok?
    ensures r.Ok? ==>
      var c := ComponentsOf(d, "General").value;
      && r.value.score == Weighted(c.revenue as real, c.growth as real, c.market, c.experience as real)
      && r.value.reasoning == GenerateReasoning(c.revenue as real, c.growth as real, c.market, c.experience as real)
      && 21.25 <= r.value.score <= 96.25
  {
    match ComponentsOf(d, "General")
    case Err(e) => Err(e)
    case Ok(c) =>
      Ok(ScoreData(Weighted(c.revenue as real, c.growth as real, c.market, c.experience as real),
                   GenerateReasoning(c.revenue as real, c.growth as real, c.market, c.experience as real)))
  }

  /** The first sample business of the source's example run. */
  const SampleA: Data := map[
    "name" := Str("SaaS Company A"),
    "monthly_revenue" := Num(25000.0),
    "monthly_profit" := Num(15000.0),
    "growth_rate" := Num(25.0),
    "market_size" := Num(50000000.0),
    "industry" := Str("SaaS"),
    "years_operated" := Num(3.0)]

  /**
   * Revenue 80 (25000 is below 50000), growth 80 (25 is below 30), market
   * 90 times 1.2 = 108, experience 70; weighted, 85.
   */
  lemma SampleAScores()
    ensures ComponentsOf(SampleA, "General") == Ok(Components(80, 80, 108.0, 70))
    ensures ScoreBusiness(SampleA).Ok? && ScoreBusiness(SampleA).value.score == 85.0
    ensures ScoreBusiness(SampleA).value.reasoning ==
      [StrongRevenue, StrongGrowth, StrongMarket, ModerateExperience]
  {
  }

  /** A revenue given as text makes the first comparison raise, and scoring fails. */
  lemma TextRevenueFails(d: Data)
    requires "monthly_revenue" in d && d["monthly_revenue"] == Str("25k")
    ensures ScoreBusiness(d) == Err(CompareError("<", "str"))
  {
  }

  /**
   * The Marketplace multiplier 1.15 leaves a third decimal: an empty payload
   * scores 28.125 here, which `round(overall_score, 2)` would store as 28.12.
   */
  lemma MarketplaceThirdDecimal()
    ensures ScoreBusiness(map["industry" := Str("Marketplace")]).Ok?
    ensures ScoreBusiness(map["industry" := Str("Marketplace")]).value.score == 28.125
  {
    assert ComponentsOf(map["industry" := Str("Marketplace")], "General") == Ok(Components(20, 30, 34.5, 30));
  }
}
