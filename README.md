# Business scoring orchestrator — a Dafny model

This project models the Python core of a business-scoring orchestrator and
proves properties of it. The core has four parts:

- **The queued scorer** (`orchestrator-advanced/python_orchestrator/queued_scorer.py`).
  A `QueuedScorer` keeps scoring jobs in a key-value store and their ids in a
  list used as a queue. `submit_job` writes a pending job and LPUSHes its id.
  A worker BRPOPs the oldest id, loads the job, and marks it `processing`.
  It then scores the business and writes the job back as `completed`, or as
  `failed` with the error text. `get_queue_stats` counts jobs by status. Jobs
  travel as dictionaries with ISO-8601 timestamps (`to_dict` / `from_dict`).
- **The AI scorer** (`orchestrator-basic/python_orchestrator/ai_scorer.py`). It
  computes revenue, growth, market and risk tiers and a weighted overall
  score. Each listed risk factor costs the risk tier ten points. It writes one
  reasoning line per tier. A batch replaces failures by a neutral 50-point
  score.
- **The market agent** (`orchestrator-basic/python_orchestrator/market_agent.py`).
  It looks up market figures and a competition profile per industry. From
  these it builds a capped investment score (points for market size, growth,
  competition, barriers and years operated) and lists of trends, risks,
  opportunities, customer segments and a revenue-potential label.
- **The pipeline** (`orchestrator-basic/python_orchestrator/prefect_flows.py`).
  It analyses and scores every business and skips the ones that raise. It
  generates a listing for each business scoring at least 70 and "deploys" each
  listing. The flow reports the counts.

## How the model is built

- **Payloads.** A business payload is a `map<string, Value>`, where
  `Value = Num | Str | List | Null`. The readers in `BusinessData` return a
  `Result`, so each place where Python would raise becomes a concrete error
  path. Examples: comparing a string with a number, hashing a list as a
  dictionary key, iterating a number, or calling `.lower()` on a non-string.
  The error text follows Python's wording.
- **Shared tiers.** The score tables shared by both scorers are in `Tiers`.
  The queued scorer's scoring is in `QueuedScoring`, the AI scorer's in
  `AiScorer`.
- **Jobs and their encoding.** `ScoringJobs` holds the job record, the status
  names, `__post_init__` defaults and the dictionary encoding. `IsoDateTime`
  is the ISO-8601 text the encoding uses, proved to round-trip.
- **The `QueuedScorer` class** (`JobQueue`) has the store, the queue and the
  running flag as fields. A ghost log `writes` records every document write,
  so the intermediate `processing` write is part of what `ProcessJob`
  promises. Its invariant `Valid` says:
  - every stored job is well formed and consistent with its status;
  - queued ids are distinct;
  - a queued id that is still stored belongs to a pending job.
- **Queue order.** LPUSH prepends and BRPOP takes the last element. `Drain`
  is the order in which a single consumer pops the queue, and `FifoOrder`
  proves that ids pushed in order are popped in the same order.
- **Batch loops.** The batch loops (`batch_score`, `batch_analyze`,
  `score_businesses`, `analyze_business_opportunities`, `generate_listings`,
  `deploy_listings`, `batch_submit`) are methods with loop invariants. Each is
  proved equal to a function: `SeqUtil.FilterMap` for try/except-continue
  loops and filters, a pointwise map otherwise. `FilterMapIndices` gives
  every kept element the index of the input it came from, in increasing
  order.
- **Effects as parameters.** Time (`datetime.utcnow()`) and fresh ids
  (`uuid4()`) are parameters. Because the source reads several fields with
  default values, those defaults become functions of the payload.

## Model

| member | source | states |
|---|---|---|
| BusinessData.Get | orchestrator-basic/python_orchestrator/prefect_flows.py:20-21 | `dict.get(key)` yields None for a missing key and the stored value otherwise |
| BusinessData.NumberField | orchestrator-advanced/python_orchestrator/queued_scorer.py:174-185 | a missing numeric field reads as 0; the read succeeds exactly when the field is absent or a number; any other value makes the tier comparison raise |
| BusinessData.KeyField | orchestrator-advanced/python_orchestrator/queued_scorer.py:178 | a missing industry reads as the default; the lookup fails exactly when the value is a list (unhashable); otherwise it yields the stored text, or no name for a non-text value |
| BusinessData.GetOr | orchestrator-basic/python_orchestrator/market_agent.py:25 | `get('industry', 'General')` yields the default for a missing key and the stored value otherwise |
| BusinessData.FieldReaders | orchestrator-advanced/python_orchestrator/queued_scorer.py:174-185 | a numeric read succeeds iff the field is absent or a number, and then yields the value or 0; a successful key read yields the stored text or the default |
| Tiers.RevenueScore | orchestrator-advanced/python_orchestrator/queued_scorer.py:205-216 | the tier is 20 iff revenue < 1000, 40 iff 1000 <= revenue < 5000, 60 iff 5000 <= revenue < 15000, 80 iff 15000 <= revenue < 50000, and 95 iff revenue >= 50000 |
| Tiers.GrowthScore | orchestrator-advanced/python_orchestrator/queued_scorer.py:218-229 | the tier is 10 iff the rate is negative, 30 iff it is in [0, 5), 60 iff in [5, 15), 80 iff in [15, 30), and 95 iff it is >= 30 |
| Tiers.ExperienceScore | orchestrator-advanced/python_orchestrator/queued_scorer.py:253-262 | the tier is 30 iff under one year, 50 iff in [1, 3), 70 iff in [3, 5), and 85 iff five years or more |
| Tiers.IndustryMultiplier | orchestrator-advanced/python_orchestrator/queued_scorer.py:233-242 | SaaS 1.2, E-commerce 1.1, Marketplace 1.15, Service 0.9; every other name (Mobile App and Web App included) and a non-text industry get 1.0 |
| Tiers.MarketBase | orchestrator-advanced/python_orchestrator/queued_scorer.py:244-251 | the base is 30 iff the market is below 100000, 50 iff in [100000, 1000000), 70 iff in [1000000, 10000000), and 90 iff at least ten million |
| Tiers.MarketScore | orchestrator-advanced/python_orchestrator/queued_scorer.py:231-251 | the market tier lies in 27..108, so the multiplier can push it above 100; with multiplier 1.0 it is the bare base |
| Tiers.RevenueMonotone | orchestrator-advanced/python_orchestrator/queued_scorer.py:205-216 | more revenue never lowers the tier; profit never changes it |
| Tiers.GrowthMonotone | orchestrator-advanced/python_orchestrator/queued_scorer.py:218-229 | a higher growth rate never lowers the tier |
| Tiers.ExperienceMonotone | orchestrator-advanced/python_orchestrator/queued_scorer.py:253-262 | more years never lower the tier |
| Tiers.MarketMonotone | orchestrator-advanced/python_orchestrator/queued_scorer.py:244-251 | a larger market never lowers the market tier for the same industry |
| Tiers.MarketUnclamped | orchestrator-advanced/python_orchestrator/queued_scorer.py:234-251 | a SaaS business in a ten-million market scores 108; an unlisted industry gets the bare base of 90 |
| Tiers.ComponentsOf | orchestrator-advanced/python_orchestrator/queued_scorer.py:174-185 | the four tiers are computed exactly when revenue, growth, market size and years are numbers or absent and the industry is not a list; then they are the tier functions of the defaulted fields |
| Tiers.DefaultIndustryIrrelevant | orchestrator-basic/python_orchestrator/ai_scorer.py:28 | the default industry name ('General' or 'Unknown') never changes any tier, because both take the 1.0 multiplier |
| Tiers.Weighted | orchestrator-advanced/python_orchestrator/queued_scorer.py:188-193 | the weights 0.3/0.25/0.25/0.2 add up to one: four equal scores average to that score |
| Tiers.WeightedWithin | orchestrator-advanced/python_orchestrator/queued_scorer.py:188-193 | the weighted score lies between the lowest and the highest of the four tiers |
| Tiers.WeightedMonotone | orchestrator-advanced/python_orchestrator/queued_scorer.py:188-193 | raising any tier never lowers the weighted score |
| Tiers.Band | orchestrator-advanced/python_orchestrator/queued_scorer.py:270-275 | a reasoning line picks the first text at >= 80, the second at 60..80, and the third below 60 |
| IsoDateTime.DaysInMonth | orchestrator-advanced/python_orchestrator/queued_scorer.py:52-54 | a month has 28 to 31 days (the calendar `fromisoformat` checks) |
| IsoDateTime.Digits | orchestrator-advanced/python_orchestrator/queued_scorer.py:43-46 | a zero-padded field has exactly the requested width and only digits |
| IsoDateTime.DigitsRoundTrip | orchestrator-advanced/python_orchestrator/queued_scorer.py:43-54 | reading back a zero-padded field gives the value that was written |
| IsoDateTime.FormatIso | orchestrator-advanced/python_orchestrator/queued_scorer.py:43-46 | `isoformat()` is 19 characters, or 26 when there are microseconds |
| IsoDateTime.ParseIso | orchestrator-advanced/python_orchestrator/queued_scorer.py:51-54 | the parser accepts only text of the `isoformat()` shape |
| IsoDateTime.FormatLayout | orchestrator-advanced/python_orchestrator/queued_scorer.py:43-46 | the separators and each zero-padded field sit at their fixed positions in the formatted text |
| IsoDateTime.ParseFormat | orchestrator-advanced/python_orchestrator/queued_scorer.py:43-54 | parsing the formatted text gives back the same datetime |
| IsoDateTime.ReplaceZ | orchestrator-advanced/python_orchestrator/queued_scorer.py:52-54 | the result contains no 'Z'; text without 'Z' is left alone; "Z" becomes "+00:00" |
| IsoDateTime.ReplaceZConcat | orchestrator-advanced/python_orchestrator/queued_scorer.py:52-54 | the replacement works piece by piece, so with the one-character cases every 'Z' becomes "+00:00" and every other character stays |
| IsoDateTime.FormatHasNoZ | orchestrator-advanced/python_orchestrator/queued_scorer.py:43-54 | `isoformat()` text contains no 'Z', so `replace('Z', '+00:00')` never changes it |
| ScoringJobs.ParseStatus | orchestrator-advanced/python_orchestrator/queued_scorer.py:27 | a parsed status prints back as the same name |
| ScoringJobs.StatusNameRoundTrip | orchestrator-advanced/python_orchestrator/queued_scorer.py:27 | every status name parses back to its status |
| ScoringJobs.PostInit | orchestrator-advanced/python_orchestrator/queued_scorer.py:34-38 | `__post_init__` fills a missing id and creation time; it leaves a complete job unchanged and never touches data or status |
| ScoringJobs.NewJob | orchestrator-advanced/python_orchestrator/queued_scorer.py:81-84 | a submitted job is pending, carries the payload, is created now, and has no score, reasoning, error or completion time |
| ScoringJobs.FormatField | orchestrator-advanced/python_orchestrator/queued_scorer.py:43-46 | a timestamp is written exactly when it is present |
| ScoringJobs.ToDict | orchestrator-advanced/python_orchestrator/queued_scorer.py:40-47 | the dictionary keeps id, payload, score, reasoning and error, writes the status by name, and writes each timestamp in isoformat or None |
| ScoringJobs.ParseField | orchestrator-advanced/python_orchestrator/queued_scorer.py:52-54 | a timestamp text parses only when, after the 'Z' replacement, it has the `isoformat()` shape; text without 'Z' parses iff the ISO parser accepts it |
| ScoringJobs.ParseFieldFormat | orchestrator-advanced/python_orchestrator/queued_scorer.py:43-54 | the text `isoformat()` writes parses back to the same timestamp |
| ScoringJobs.DecodeStamp | orchestrator-advanced/python_orchestrator/queued_scorer.py:51-54 | a missing or empty (falsy) timestamp is not converted and reads as none; any other text succeeds iff it parses, giving the parsed time |
| ScoringJobs.FromDict | orchestrator-advanced/python_orchestrator/queued_scorer.py:49-55 | decoding fails iff the status is not one of the four names or a non-empty timestamp does not parse; otherwise the job keeps the payload, status, score, reasoning and error, takes the decoded timestamps, and gets the fresh id or the current time only where the id or the creation time is empty |
| ScoringJobs.RoundTrip | orchestrator-advanced/python_orchestrator/queued_scorer.py:40-55 | `from_dict(to_dict(job))` is the same job |
| ScoringJobs.FromDictDefaults | orchestrator-advanced/python_orchestrator/queued_scorer.py:34-38 | a dictionary without id or creation time decodes with a fresh id and the current time |
| QueuedScoring.BandIndex | orchestrator-advanced/python_orchestrator/queued_scorer.py:270-296 | a score falls into one of three reasoning bands |
| QueuedScoring.GenerateReasoning | orchestrator-advanced/python_orchestrator/queued_scorer.py:264-298 | four lines; each tier's line is its strong text at >= 80, its moderate text at 60..80, and its weak text below 60 |
| QueuedScoring.ReasoningReportsBands | orchestrator-advanced/python_orchestrator/queued_scorer.py:264-298 | two score tuples give the same reasoning iff each score lies in the same band |
| QueuedScoring.ScoreBusiness | orchestrator-advanced/python_orchestrator/queued_scorer.py:170-203 | scoring succeeds exactly when the tiers can be read; the score is then the 0.3/0.25/0.25/0.2 weighting of those tiers (in 21.25..96.25) and the reasoning is the reasoning of those tiers |
| QueuedScoring.SampleAScores | orchestrator-advanced/python_orchestrator/queued_scorer.py:364-372 | the first sample business gets tiers 80/80/108/70, score 85 and its four reasoning lines |
| QueuedScoring.TextRevenueFails | orchestrator-advanced/python_orchestrator/queued_scorer.py:207 | a text revenue makes scoring fail with Python's `<` TypeError |
| QueuedScoring.MarketplaceThirdDecimal | orchestrator-advanced/python_orchestrator/queued_scorer.py:184-201 | a Marketplace payload with every other field missing scores 28.125, a third decimal that `round(..., 2)` would drop |
| JobQueue.Drain | orchestrator-advanced/python_orchestrator/queued_scorer.py:319 | the pop order of a queue has one entry per queued id |
| JobQueue.DrainPush | orchestrator-advanced/python_orchestrator/queued_scorer.py:96 | an LPUSHed id is popped after every id already queued |
| JobQueue.DrainMembers | orchestrator-advanced/python_orchestrator/queued_scorer.py:319 | every queued id is popped, and nothing else is |
| JobQueue.PushAll | orchestrator-advanced/python_orchestrator/queued_scorer.py:351-353 | pushing a batch adds exactly its ids to the queue |
| JobQueue.PushAllMembers | orchestrator-advanced/python_orchestrator/queued_scorer.py:351-353 | after a batch push, an id is queued iff it was queued before or is in the batch |
| JobQueue.FifoOrder | orchestrator-advanced/python_orchestrator/queued_scorer.py:348-356 | a batch is popped in submission order, after everything queued before it |
| JobQueue.NewJobs | orchestrator-advanced/python_orchestrator/queued_scorer.py:348-356 | a batch creates one new job per business, in order |
| JobQueue.Submitted | orchestrator-advanced/python_orchestrator/queued_scorer.py:348-356 | submitting a batch never removes a stored job |
| JobQueue.SubmittedJobs | orchestrator-advanced/python_orchestrator/queued_scorer.py:348-356 | after a batch with fresh distinct ids, the store holds the old jobs unchanged plus exactly one new pending job per id |
| JobQueue.Started | orchestrator-advanced/python_orchestrator/queued_scorer.py:146-147 | the first write marks the job processing and changes nothing else |
| JobQueue.Finished | orchestrator-advanced/python_orchestrator/queued_scorer.py:149-168 | the final write is completed with score and reasoning iff scoring succeeds, otherwise failed with the error text; both keep id, payload and creation time and stamp the completion time |
| JobQueue.ProcessingKeepsConsistent | orchestrator-advanced/python_orchestrator/queued_scorer.py:140-168 | processing a consistent pending job writes consistent jobs; a completed job has no error and a failed job has an error and no score |
| JobQueue.WithStatus | orchestrator-advanced/python_orchestrator/queued_scorer.py:124-136 | the jobs counted under a status are stored jobs |
| JobQueue.StatusCountsBound | orchestrator-advanced/python_orchestrator/queued_scorer.py:110-138 | the completed, failed and processing counts together never exceed the number of jobs |
| JobQueue.QueuedArePendingRemove | orchestrator-advanced/python_orchestrator/queued_scorer.py:88-92 | a document expiring keeps every remaining queued job pending |
| JobQueue.QueuedArePendingWrite | orchestrator-advanced/python_orchestrator/queued_scorer.py:300-307 | writing a job that is not queued, or is pending, keeps every queued job pending |
| JobQueue.QueuePush | orchestrator-advanced/python_orchestrator/queued_scorer.py:96 | pushing a fresh pending id keeps the queue distinct and its jobs pending |
| JobQueue.QueuedScorer.constructor | orchestrator-advanced/python_orchestrator/queued_scorer.py:57-77 | a new scorer has an empty store and queue and is not running |
| JobQueue.QueuedScorer.UpdateJob | orchestrator-advanced/python_orchestrator/queued_scorer.py:300-307 | the job's document is overwritten under its id, the write is logged, and the queue is untouched |
| JobQueue.QueuedScorer.SubmitJob | orchestrator-advanced/python_orchestrator/queued_scorer.py:79-99 | a new pending job is stored under the fresh id, the id is LPUSHed, and it will be popped after every earlier id; the id is returned |
| JobQueue.QueuedScorer.BatchSubmit | orchestrator-advanced/python_orchestrator/queued_scorer.py:348-356 | returns the ids in order, pushes them in order, stores one new job per business and logs those writes |
| JobQueue.QueuedScorer.GetJobStatus | orchestrator-advanced/python_orchestrator/queued_scorer.py:101-108 | a stored job is returned exactly as stored (through its dictionary encoding); a missing one gives None |
| JobQueue.QueuedScorer.GetQueueStats | orchestrator-advanced/python_orchestrator/queued_scorer.py:110-138 | pending is the queue length, total the number of jobs, and the other counts are the jobs with that status; an empty scorer reports zeros |
| JobQueue.QueuedScorer.ProcessJob | orchestrator-advanced/python_orchestrator/queued_scorer.py:140-168 | writes the processing job and then the finished one; the store ends with the finished job |
| JobQueue.QueuedScorer.StartWorker | orchestrator-advanced/python_orchestrator/queued_scorer.py:311 | the worker is marked running |
| JobQueue.QueuedScorer.StopWorker | orchestrator-advanced/python_orchestrator/queued_scorer.py:343-346 | the worker is marked stopped |
| JobQueue.QueuedScorer.WorkerStep | orchestrator-advanced/python_orchestrator/queued_scorer.py:316-332 | a stopped worker or an empty queue changes nothing; otherwise the oldest id is popped, a missing job is reported, and a stored job ends completed or failed |
| JobQueue.QueuedScorer.Expire | orchestrator-advanced/python_orchestrator/queued_scorer.py:88-92 | when a document's time-to-live runs out, only that document is removed |
| AiScorer.LowerChar | orchestrator-basic/python_orchestrator/ai_scorer.py:123 | `lower()` maps A-Z to a-z and keeps every other character |
| AiScorer.Lower | orchestrator-basic/python_orchestrator/ai_scorer.py:123 | lower-casing keeps the length and lower-cases character by character |
| AiScorer.LowerCaseless | orchestrator-basic/python_orchestrator/ai_scorer.py:123 | a text without capitals is the lower-case form of exactly itself |
| AiScorer.ListedIffLowerListed | orchestrator-basic/python_orchestrator/ai_scorer.py:123 | a factor counts iff it is itself one of the three listed risks |
| AiScorer.RiskFactors | orchestrator-basic/python_orchestrator/ai_scorer.py:121-122 | missing risk factors read as none; a list yields exactly its string items (failing on the first non-string); a text yields one single-character factor per character; anything else is not iterable |
| AiScorer.StringItems | orchestrator-basic/python_orchestrator/ai_scorer.py:122-123 | the factors can be lower-cased iff every item is text, and then they are those texts in order |
| AiScorer.ListedCount | orchestrator-basic/python_orchestrator/ai_scorer.py:122-124 | no more factors count than there are |
| AiScorer.Clamp | orchestrator-basic/python_orchestrator/ai_scorer.py:126 | the result is 0 below 0, 100 above 100, and the value itself in between |
| AiScorer.RiskScore | orchestrator-basic/python_orchestrator/ai_scorer.py:108-126 | the risk tier lies in 0..85 |
| AiScorer.ScoreRisk | orchestrator-basic/python_orchestrator/ai_scorer.py:108-126 | the loop that subtracts ten per listed factor and then clamps computes the risk tier |
| AiScorer.UnlistedIgnored | orchestrator-basic/python_orchestrator/ai_scorer.py:122-124 | an unlisted factor never changes the risk tier |
| AiScorer.ListedCostsTen | orchestrator-basic/python_orchestrator/ai_scorer.py:122-126 | each listed factor costs ten points, down to zero |
| AiScorer.NoListedFactors | orchestrator-basic/python_orchestrator/ai_scorer.py:110-126 | without listed factors the risk tier is the experience tier |
| AiScorer.RiskMonotone | orchestrator-basic/python_orchestrator/ai_scorer.py:110-126 | more years never lower the risk tier |
| AiScorer.GenerateReasoning | orchestrator-basic/python_orchestrator/ai_scorer.py:128-161 | there are four lines: the banded revenue, growth and market lines and a risk line that is "low" iff risk >= 80 and "high" iff risk < 60 |
| AiScorer.ScoreBusiness | orchestrator-basic/python_orchestrator/ai_scorer.py:20-58 | scoring succeeds exactly when the tiers and risk factors can be read; the result then carries the tiers of the defaulted fields, the risk tier of the factors, their 0.3/0.25/0.25/0.2 weighting (in 15.25..96.25) and the reasoning of those tiers |
| AiScorer.AgreesWithQueuedScorer | orchestrator-basic/python_orchestrator/ai_scorer.py:60-126 | the revenue, growth and market tiers equal the queued scorer's; the risk tier never exceeds the queued scorer's experience tier and equals it when no listed factor is present |
| AiScorer.ExampleScores | orchestrator-basic/python_orchestrator/ai_scorer.py:181-190 | the example business scores 85 overall with tiers 80/80/108/70 |
| AiScorer.NumericFactorsFail | orchestrator-basic/python_orchestrator/ai_scorer.py:121-122 | numeric risk factors make scoring fail because a number is not iterable |
| AiScorer.ScoreOrNeutral | orchestrator-basic/python_orchestrator/ai_scorer.py:167-173 | a batch entry is the score when scoring succeeds and the neutral score otherwise |
| AiScorer.NeutralOnlyOnFailure | orchestrator-basic/python_orchestrator/ai_scorer.py:167-173 | the neutral score appears iff scoring failed |
| AiScorer.BatchScore | orchestrator-basic/python_orchestrator/ai_scorer.py:163-175 | one result per business, in order, each the score or the neutral score |
| MarketAgent.FetchMarketData | orchestrator-basic/python_orchestrator/market_agent.py:57-97 | a known industry gets its own figures and any other gets the defaults; the size is at least 50 billion and the growth at least 10 |
| MarketAgent.AnalyzeCompetition | orchestrator-basic/python_orchestrator/market_agent.py:99-111 | industries without a profile get Medium/Medium; the level and barriers stay within the table's values |
| MarketAgent.MarketPoints | orchestrator-basic/python_orchestrator/market_agent.py:117-125 | 30 iff above 100 billion, 25 iff in (50, 100] billion, 20 iff in (10, 50] billion, 15 iff at most 10 billion |
| MarketAgent.GrowthPoints | orchestrator-basic/python_orchestrator/market_agent.py:128-136 | 25 iff above 25, 20 iff in (15, 25], 15 iff in (10, 15], 10 iff at most 10 |
| MarketAgent.CompetitionPoints | orchestrator-basic/python_orchestrator/market_agent.py:138-147 | Low 20, Medium 15, High 10, and any other level 5 |
| MarketAgent.BarrierPoints | orchestrator-basic/python_orchestrator/market_agent.py:149-158 | Very High 15, High 12, Medium 8, and any other barrier 5 |
| MarketAgent.QualityPoints | orchestrator-basic/python_orchestrator/market_agent.py:161-169 | 10 iff above five years, 7 iff in (2, 5], 5 iff in (1, 2], 2 iff at most one |
| MarketAgent.InvestmentScore | orchestrator-basic/python_orchestrator/market_agent.py:113-172 | the investment score lies in 37..100 and equals the sum of the five point tiers: the cap at 100 never applies |
| MarketAgent.CompetitionOrdering | orchestrator-basic/python_orchestrator/market_agent.py:138-147 | lower competition scores strictly higher |
| MarketAgent.BarrierOrdering | orchestrator-basic/python_orchestrator/market_agent.py:149-158 | higher barriers to entry score strictly higher |
| MarketAgent.InvestmentMonotone | orchestrator-basic/python_orchestrator/market_agent.py:113-172 | a larger market, more growth and more years never lower the score |
| MarketAgent.StrictBoundaries | orchestrator-basic/python_orchestrator/market_agent.py:117-169 | the thresholds are strict: exactly 100 billion, 25 % growth or five years fall into the lower bracket |
| MarketAgent.MarketTrends | orchestrator-basic/python_orchestrator/market_agent.py:174-210 | four trends for a known industry, otherwise the two generic ones |
| MarketAgent.IndustryRisks | orchestrator-basic/python_orchestrator/market_agent.py:222-230 | three industry risks for a known industry, none otherwise |
| MarketAgent.IdentifyRisks | orchestrator-basic/python_orchestrator/market_agent.py:212-230 | the four common risks come first, then the industry's risks |
| MarketAgent.IdentifyOpportunities | orchestrator-basic/python_orchestrator/market_agent.py:232-245 | the three base opportunities, plus the high-growth segment iff growth exceeds 20 |
| MarketAgent.CustomerSegments | orchestrator-basic/python_orchestrator/market_agent.py:247-255 | B2B and B2C get their three segments; any other type gets the mixed segment |
| MarketAgent.RevenuePotential | orchestrator-basic/python_orchestrator/market_agent.py:257-270 | "very high" iff above 100 billion with growth above 15; otherwise "high" iff above 50 billion with growth above 10; otherwise "medium" iff above 10 billion; "low" iff at most 10 billion |
| MarketAgent.AnalyzeMarket | orchestrator-basic/python_orchestrator/market_agent.py:22-55 | the analysis succeeds iff the industry is hashable and the years compare; every field then comes from its builder applied to the industry (default 'General') or the business type (default 'B2B'): figures, competition, score in 37..100, trends, risks, opportunities, segments and revenue potential |
| MarketAgent.ExampleAnalysis | orchestrator-basic/python_orchestrator/market_agent.py:291-297 | the sample SaaS business scores 75 with High competition, seven risks and very high revenue potential |
| MarketAgent.UnknownIndustryDefaults | orchestrator-basic/python_orchestrator/market_agent.py:25-97 | an industry outside the tables gets the default figures, 53 points plus its years' points, four risks and three opportunities |
| MarketAgent.Tagged | orchestrator-basic/python_orchestrator/market_agent.py:276-280 | a business yields an analysis tagged with its id and name iff the analysis succeeds |
| MarketAgent.BatchAnalyze | orchestrator-basic/python_orchestrator/market_agent.py:272-285 | keeps exactly the successful analyses, in order |
| MarketAgent.BatchAnalyzeOrder | orchestrator-basic/python_orchestrator/market_agent.py:272-285 | each kept analysis comes from a distinct input, in increasing order, and every skipped input failed |
| Pipeline.OpportunityOf | orchestrator-basic/python_orchestrator/prefect_flows.py:12-24 | an opportunity exists iff the market analysis succeeds; its potential is the analysis's investment score |
| Pipeline.AnalyzeBusinessOpportunities | orchestrator-basic/python_orchestrator/prefect_flows.py:7-30 | keeps exactly the opportunities whose analysis succeeded, in order |
| Pipeline.OpportunityBounds | orchestrator-basic/python_orchestrator/prefect_flows.py:22 | every investment potential lies in 37..100 |
| Pipeline.ScoredOf | orchestrator-basic/python_orchestrator/prefect_flows.py:38-53 | a scored record exists iff AI scoring succeeds and copies the scores with the business id and name |
| Pipeline.ScoreBusinesses | orchestrator-basic/python_orchestrator/prefect_flows.py:32-58 | keeps exactly the successful scores, in order |
| Pipeline.ScoredOrder | orchestrator-basic/python_orchestrator/prefect_flows.py:32-58 | each kept score comes from a distinct input, in increasing order, and every skipped business failed to score |
| Pipeline.Recommendation | orchestrator-basic/python_orchestrator/prefect_flows.py:137 | STRONG BUY iff >= 85, BUY iff 70..85, HOLD iff < 70 |
| Pipeline.ListingOf | orchestrator-basic/python_orchestrator/prefect_flows.py:66-74 | a listing exists iff the overall score is at least 70; it keeps the id and score, and its recommendation is that of the summary rule (STRONG BUY at 85 or more, BUY from 70), never HOLD |
| Pipeline.GenerateListings | orchestrator-basic/python_orchestrator/prefect_flows.py:60-75 | lists the qualifying businesses in order |
| Pipeline.HighQuality | orchestrator-basic/python_orchestrator/prefect_flows.py:190 | a business is in the high-quality list iff it is one of the scored businesses and its overall score is at least 70 |
| Pipeline.ListingsAreHighQuality | orchestrator-basic/python_orchestrator/prefect_flows.py:66-75 | there is one listing per high-quality business, with the same id in the same position |
| Pipeline.ListingsNeverHold | orchestrator-basic/python_orchestrator/prefect_flows.py:66-74 | no listing is a HOLD |
| Pipeline.Render | orchestrator-basic/python_orchestrator/prefect_flows.py:88 | a text id renders as itself and a missing id as "None" |
| Pipeline.Deploy | orchestrator-basic/python_orchestrator/prefect_flows.py:85-90 | a deployment is "deployed" under the listing's id with the marketplace URL prefix followed by the id |
| Pipeline.DeployListings | orchestrator-basic/python_orchestrator/prefect_flows.py:77-102 | one deployment result per listing, in order |
| Pipeline.Deployed | orchestrator-basic/python_orchestrator/prefect_flows.py:192 | the successful deployments are exactly the results whose status is "deployed" |
| Pipeline.AllDeployed | orchestrator-basic/python_orchestrator/prefect_flows.py:85-93 | when every deployment succeeds, all of them count as successful |
| Pipeline.FullPipeline | orchestrator-basic/python_orchestrator/prefect_flows.py:140-201 | uses the sample data when none is given; reports the input count and the scored businesses; listings equal the high-quality count and never exceed the input count; every listing deploys, under the high-quality ids in order |
| Pipeline.SampleStartupScores | orchestrator-basic/python_orchestrator/prefect_flows.py:147-156 | the first sample business scores 89.25 |
| Pipeline.SampleShopScores | orchestrator-basic/python_orchestrator/prefect_flows.py:157-166 | the second sample business scores 82.75 |

## Left out

- Redis is modelled by its effect, not its protocol. The store holds decoded jobs rather than JSON text. The JSON form is `ScoringJobs.ToDict`/`FromDict`, and `RoundTrip` shows the decoding is lossless. The JSON text, `keys("job:*")` and the connection settings are not modelled.
- The time-to-live of `setex` is modelled only as `JobQueue.QueuedScorer.Expire`, which removes one document at any time. The timeout values are not modelled.
- JobQueue.QueuedScorer.StartWorker: the endless `while self.is_running` loop, the one-second blocking BRPOP, the sleeps, `KeyboardInterrupt` and the worker's catch-all retry are not modelled. One loop iteration is `WorkerStep`, and a stopped worker is `NotRunning`.
- Concurrency between several workers and submitters is not modelled. A single consumer is assumed for `FifoOrder`.
- `uuid4()` and `datetime.utcnow()` are parameters. The batch takes one fresh id and one time per business. A caller must supply ids that are fresh and distinct, which uuid4 gives with overwhelming probability.
- QueuedScoring.ScoreBusiness: `round(overall_score, 2)` is not applied; the score is the exact weighted sum. It differs from the stored Python value only when the Marketplace multiplier 1.15 leaves a third decimal (`MarketplaceThirdDecimal`: 28.125, stored by Python as 28.12).
- Floats are exact reals, so binary rounding in the products is not modelled. Integer-valued fields are also reals.
- `IsoDateTime.ParseIso` accepts only the shapes `isoformat()` writes: naive datetimes with optional six-digit microseconds. Other `fromisoformat` inputs, time zones, and the effect of the `Z` replacement on them are not modelled.
- ScoringJobs.FromDict: a stored status name outside the four known ones makes decoding fail, whereas Python loads it into the dataclass unchecked.
- ScoringJobs.FromDict: an empty `completed_at` decodes as no completion time, whereas Python keeps the empty text in the field.
- BusinessData.TypeName: every number is named "float" in error texts, even where Python would say "int".
- AiScorer.Lower, AiScorer.LowerChar: only ASCII capitals are lowered. The listed risk factors contain no cased letters, so which factors count is unaffected.
- Boolean and nested-object payload values are not modelled. A Python `bool` behaves as a number in the comparisons.
- Unused inputs are left out:
  - the scorers' configuration, `api_key` and `base_url`;
  - `location`;
  - the business type passed to `_analyze_competition` and `_estimate_revenue_potential`;
  - the unused `MarketAnalysis` dataclass.
- Pipeline.ListingOf: only the listing's id, score and recommendation are modelled. The free-text title, description and investment summary (`generate_listing_description` and the rest of `generate_investment_summary`) are left out.
- Pipeline.Render: numeric and list ids render as the empty text, not as Python's `str()` of them.
- The `except` branch of `deploy_listings` cannot be reached, because building the result dictionary cannot raise. Every deployment is "deployed".
- `full_pipeline` computes the opportunities but never uses them. The model does not return them either.
- All `print` and logging output is left out.
