/**
 * `AIScorer`: the rule-based scorer of a business payload. It shares the
 * revenue, growth and market tiers with the queued scorer and replaces the
 * experience tier by a risk tier: the experience base minus 10 for every
 * listed risk factor, clamped to [0, 100].
 */
module AiScorer {
  import opened Wrappers
  import opened BusinessData
  import opened Tiers

  datatype BusinessScore = BusinessScore(
    overall: real, revenue: real, growth: real, market: real, risk: real, reasoning: seq<string>)

  // ----- risk factors -----

  /** The factors that cost 10 points: single-customer dependence, intense competition, regulatory risk. */
  const RiskList: seq<string> := ["单一客户依赖", "高度竞争", "监管风险"]

  /** `str.lower()` on one character, for the ASCII letters. */
  function LowerChar(c: char): (r: char)
    ensures ('A' <= c <= 'Z') ==> r as int == c as int + 32
    ensures !('A' <= c <= 'Z') ==> r == c
  {
    if 'A' <= c <= 'Z' then (c as int + 32) as char else c
  }

  /** `str.lower()`, character by character. */
  function Lower(s: string): (r: string)
    ensures |r| == |s|
    ensures forall i :: 0 <= i < |s| ==> r[i] == LowerChar(s[i])
  {
    seq(|s|, i requires 0 <= i < |s| => LowerChar(s[i]))
  }

  /** No character of `s` is an ASCII letter, so lowering cannot produce or change one. */
  predicate Caseless(s: string)
  {
    forall i :: 0 <= i < |s| ==> s[i] as int >= 128
  }

  /** Lowering changes nothing in a caseless string, and only a caseless string lowers to it. */
  lemma LowerCaseless(f: string, e: string)
    requires Caseless(e)
    ensures Lower(f) == e <==> f == e
  {
    if Lower(f) == e {
      forall i | 0 <= i < |f| ensures f[i] == e[i] {
        assert LowerChar(f[i]) == e[i];
      }
    }
  }

  /**
   * The listed factors are written without letters that have case, so the
   * lowercase comparison of the source matches a factor exactly when the
   * factor itself is listed.
   */
  lemma ListedIffLowerListed(f: string)
    ensures Lower(f) in RiskList <==> f in RiskList
  {
    assert Caseless(RiskList[0]) && Caseless(RiskList[1]) && Caseless(RiskList[2]);
    LowerCaseless(f, RiskList[0]);
    LowerCaseless(f, RiskList[1]);
    LowerCaseless(f, RiskList[2]);
  }

  /** The TypeError message of iterating over a value of type `typeName`. */
  function NotIterable(typeName: string): string
  {
    "'" + typeName + "' object is not iterable"
  }

  /** The AttributeError message of calling `.lower()` on a value of type `typeName`. */
  function NoLower(typeName: string): string
  {
    "'" + typeName + "' object has no attribute 'lower'"
  }

  /**
   * The strings the risk loop calls `.lower()` on: `risk_factors` defaults to
   * the empty list, a string is iterated character by character, and a list
   * yields its items. A value that cannot be iterated, or an item that is not
   * a string, raises; the message names its Python type.
   */
  function RiskFactors(d: Data): (r: Result<seq<string>>)
    ensures "risk_factors" !in d ==> r == Ok([])
    ensures r.Ok? ==> "risk_factors" !in d || d["risk_factors"].Str? || d["risk_factors"].List?
    ensures "risk_factors" in d && d["risk_factors"].List? ==> r == StringItems(d["risk_factors"].items)
    ensures "risk_factors" in d && d["risk_factors"].Str? ==>
      var text := d["risk_factors"].s;
      r.Ok? && |r.value| == |text| && forall i :: 0 <= i < |text| ==> r.value[i] == [text[i]]
  {
    if "risk_factors" !in d then Ok([])
    else match d["risk_factors"]
      case Str(s) => Ok(seq(|s|, i requires 0 <= i < |s| => [s[i]]))
      case List(items) => StringItems(items)
      case other => Err(NotIterable(TypeName(other)))
  }

  /** The items of a list, all of which must be strings; the first other item raises. */
  function StringItems(items: seq<Value>): (r: Result<seq<string>>)
    ensures r.Ok? <==> forall i :: 0 <= i < |items| ==> items[i].Str?
    ensures r.Ok? ==> |r.value| == |items| && forall i :: 0 <= i < |items| ==> r.value[i] == items[i].s
  {
    if items == [] then Ok([])
    else if !items[0].Str? then Err(NoLower(TypeName(items[0])))
    else match StringItems(items[1..])
      case Err(e) => Err(e)
      case Ok(rest) => Ok([items[0].s] + rest)
  }

  /** How many of the factors are listed (a factor named twice counts twice). */
  function ListedCount(factors: seq<string>): (n: nat)
    ensures n <= |factors|
  {
    if factors == [] then 0
    else ListedCount(factors[..|factors| - 1]) + (if factors[|factors| - 1] in RiskList then 1 else 0)
  }

  /** `max(0, min(100, x))`. */
  function Clamp(x: int): (r: int)
    ensures 0 <= r <= 100
    ensures 0 <= x <= 100 ==> r == x
    ensures x < 0 ==> r == 0
    ensures x > 100 ==> r == 100
  {
    if x < 0 then 0 else if x > 100 then 100 else x
  }

  /** The risk tier: the experience base, 10 off per listed factor, clamped. */
  function RiskScore(years: real, factors: seq<string>): (r: int)
    ensures 0 <= r <= 85
  {
    Clamp(ExperienceScore(years) - 10 * ListedCount(factors))
  }

  /**
   * `_score_risk` once the factors are read: the loop over the factors,
   * subtracting 10 for each whose lowercase form is listed, then the clamp.
   */
  method ScoreRisk(years: real, factors: seq<string>) returns (r: int)
    ensures r == RiskScore(years, factors)
  {
    var base := ExperienceScore(years);
    var i := 0;
    while i < |factors|
      invariant 0 <= i <= |factors|
      invariant base == ExperienceScore(years) - 10 * ListedCount(factors[..i])
    {
      ListedIffLowerListed(factors[i]);
      assert factors[..i + 1][..i] == factors[..i];
      if Lower(factors[i]) in RiskList {
        base := base - 10;
      }
      i := i + 1;
    }
    assert factors[..i] == factors;
    r := if base < 0 then 0 else if base > 100 then 100 else base;
  }

  /** A factor that is not listed leaves the risk tier where it was. */
  lemma {:induction false} UnlistedIgnored(years: real, factors: seq<string>, f: string)
    requires f !in RiskList
    ensures RiskScore(years, factors + [f]) == RiskScore(years, factors)
  {
    assert (factors + [f])[..|factors|] == factors;
  }

  /** A listed factor costs 10 points, as long as the score stays above 0. */
  lemma {:induction false} ListedCostsTen(years: real, factors: seq<string>, f: string)
    requires f in RiskList
    ensures RiskScore(years, factors + [f]) == if RiskScore(years, factors) >= 10 then RiskScore(years, factors) - 10 else 0
  {
    assert (factors + [f])[..|factors|] == factors;
  }

  /** Without listed factors the risk tier is the experience tier; the 100 cap never bites. */
  lemma {:induction false} NoListedFactors(years: real, factors: seq<string>)
    requires forall i :: 0 <= i < |factors| ==> factors[i] !in RiskList
    ensures RiskScore(years, factors) == ExperienceScore(years)
  {
    if factors != [] {
      var n := |factors| - 1;
      NoListedFactors(years, factors[..n]);
      UnlistedIgnored(years, factors[..n], factors[n]);
      assert factors[..n] + [factors[n]] == factors;
    }
  }

  /** For the same factors, more years never raise the risk. */
  lemma RiskMonotone(a: real, b: real, factors: seq<string>)
    requires a <= b
    ensures RiskScore(a, factors) <= RiskScore(b, factors)
  {
    ExperienceMonotone(a, b);
  }

  // ----- the business score -----

  const LowRisk := "Low risk profile with proven track record"
  const ModerateRisk := "Moderate risk with some established operations"
  const HighRisk := "Higher risk factors require careful evaluation"

  /** `_generate_reasoning`: one line each for revenue, growth, market and risk (the payload is not consulted). */
  function GenerateReasoning(revenue: real, growth: real, market: real, risk: real): (r: seq<string>)
    ensures |r| == 4
    ensures r[0] == Band(revenue, StrongRevenue, ModerateRevenue, WeakRevenue)
    ensures r[1] == Band(growth, StrongGrowth, ModerateGrowth, WeakGrowth)
    ensures r[2] == Band(market, StrongMarket, ModerateMarket, WeakMarket)
    ensures r[3] in {LowRisk, ModerateRisk, HighRisk}
    ensures (r[3] == LowRisk <==> risk >= 80.0) && (r[3] == HighRisk <==> risk < 60.0)
  {
    [ Band(revenue, StrongRevenue, ModerateRevenue, WeakRevenue),
      Band(growth, StrongGrowth, ModerateGrowth, WeakGrowth),
      Band(market, StrongMarket, ModerateMarket, WeakMarket),
      Band(risk, LowRisk, ModerateRisk, HighRisk) ]
  }

  /**
   * `score_business`: the four tiers, their weighted average and the
   * reasoning, or the message of the first exception a malformed field
   * raises (the tier fields first, then the risk factors).
   */
  function ScoreBusiness(d: Data): (r: Result<BusinessScore>)
    ensures r.Ok? <==> ComponentsOf(d, "Unknown").Ok? && RiskFactors(d).Ok?
    ensures r.Ok? ==>
      var c := ComponentsOf(d, "Unknown").value;
      && r.value.revenue == c.revenue as real && r.value.growth == c.growth as real
      && r.value.market == c.market
      && r.value.risk == RiskScore(NumOr0(d, "years_operated"), RiskFactors(d).value) as real
      && r.value.overall == Weighted(r.value.revenue, r.value.growth, r.value.market, r.value.risk)
      && r.value.reasoning == GenerateReasoning(r.value.revenue, r.value.growth, r.value.market, r.value.risk)
      && 15.25 <= r.value.overall <= 96.25
  {
    match ComponentsOf(d, "Unknown")
    case Err(e) => Err(e)
    case Ok(c) =>
      match RiskFactors(d)
      case Err(e) => Err(e)
      case Ok(factors) =>
        var risk := RiskScore(NumOr0(d, "years_operated"), factors) as real;
        Ok(BusinessScore(
          Weighted(c.revenue as real, c.growth as real, c.market, risk),
          c.revenue as real, c.growth as real, c.market, risk,
          GenerateReasoning(c.revenue as real, c.growth as real, c.market, risk)))
  }

  /**
   * The two scorers agree on revenue, growth and market; the AI scorer's risk
   * is the queued scorer's experience less the listed-factor penalty, so it
   * is never higher, and equal when no factor is listed.
   */
  lemma AgreesWithQueuedScorer(d: Data)
    requires ScoreBusiness(d).Ok?
    ensures var s := ScoreBusiness(d).value;
      var c := ComponentsOf(d, "General").value;
      && ComponentsOf(d, "General").Ok?
      && s.revenue == c.revenue as real && s.growth == c.growth as real && s.market == c.market
      && s.risk <= c.experience as real
      && (ListedCount(RiskFactors(d).value) == 0 ==> s.risk == c.experience as real)
  {
    DefaultIndustryIrrelevant(d, "Unknown", "General");
  }

  /** The example payload of the source's demonstration run. */
  const Example: Data := map[
    "name" := Str("Example SaaS Company"),
    "monthly_revenue" := Num(25000.0),
    "monthly_profit" := Num(15000.0),
    "growth_rate" := Num(25.0),
    "market_size" := Num(50000000.0),
    "industry" := Str("SaaS"),
    "years_operated" := Num(3.0),
    "risk_factors" := List([])]

  /** Revenue 80, growth 80, market 108, risk 70 (3 years, no factor): overall 85. */
  lemma ExampleScores()
    ensures ScoreBusiness(Example) == Ok(BusinessScore(85.0, 80.0, 80.0, 108.0, 70.0,
      [StrongRevenue, StrongGrowth, StrongMarket, ModerateRisk]))
  {
    assert ComponentsOf(Example, "Unknown") == Ok(Components(80, 80, 108.0, 70));
    assert RiskFactors(Example) == Ok([]);
  }

  /** Risk factors given as a number cannot be iterated. */
  lemma NumericFactorsFail(d: Data)
    requires ComponentsOf(d, "Unknown").Ok?
    requires "risk_factors" in d && d["risk_factors"].Num?
    ensures ScoreBusiness(d) == Err(NotIterable("float"))
  {
  }

  // ----- batches -----

  /** The score `batch_score` reports for a business it could not score. */
  const Neutral := BusinessScore(50.0, 50.0, 50.0, 50.0, 50.0, ["Scoring failed"])

  /** One entry of `batch_score`: the score, or the neutral score when scoring raises. */
  function ScoreOrNeutral(d: Data): (s: BusinessScore)
    ensures ScoreBusiness(d).Ok? ==> s == ScoreBusiness(d).value
    ensures ScoreBusiness(d).Err? ==> s == Neutral
  {
    match ScoreBusiness(d)
    case Ok(s) => s
    case Err(_) => Neutral
  }

  /** A neutral entry can only come from a failure: a real score never carries the failure line. */
  lemma NeutralOnlyOnFailure(d: Data)
    ensures ScoreOrNeutral(d) == Neutral <==> ScoreBusiness(d).Err?
  {
    if ScoreBusiness(d).Ok? {
      var r := ScoreBusiness(d).value.reasoning;
      assert r[0] in {StrongRevenue, ModerateRevenue, WeakRevenue};
      assert r[0] != "Scoring failed";
    }
  }

  /** `batch_score`: one entry per business, in order; a failure does not stop the batch. */
  method BatchScore(businesses: seq<Data>) returns (scores: seq<BusinessScore>)
    ensures |scores| == |businesses|
    ensures forall i :: 0 <= i < |businesses| ==> scores[i] == ScoreOrNeutral(businesses[i])
  {
    scores := [];
    for i := 0 to |businesses|
      invariant |scores| == i
      invariant forall k :: 0 <= k < i ==> scores[k] == ScoreOrNeutral(businesses[k])
    {
      match ScoreBusiness(businesses[i]) {
        case Ok(s) => scores := scores + [s];
        case Err(_) => scores := scores + [Neutral];
      }
    }
  }
}
