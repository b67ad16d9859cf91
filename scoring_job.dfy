/**
 * `ScoringJob`: one scoring request with its lifecycle state and result, and
 * the flat document (`to_dict`) it is stored as.
 */
module ScoringJobs {
  import opened Wrappers
  import opened BusinessData
  import opened IsoDateTime

  datatype Status = Pending | Processing | Completed | Failed

  /** The status as the string the source stores. */
  function StatusName(s: Status): (name: string)
  {
    match s
    case Pending => "pending"
    case Processing => "processing"
    case Completed => "completed"
    case Failed => "failed"
  }

  function ParseStatus(name: string): (r: Option<Status>)
    ensures r.Some? ==> StatusName(r.value) == name
  {
    if name == "pending" then Some(Pending)
    else if name == "processing" then Some(Processing)
    else if name == "completed" then Some(Completed)
    else if name == "failed" then Some(Failed)
    else None
  }

  lemma StatusNameRoundTrip(s: Status)
    ensures ParseStatus(StatusName(s)) == Some(s)
  {
  }

  datatype Job = Job(
    id: string,
    businessData: Data,
    status: Status,
    score: Option<real>,
    reasoning: Option<seq<string>>,
    error: Option<string>,
    createdAt: Option<Timestamp>,
    completedAt: Option<Timestamp>)

  /** What `__post_init__` guarantees of every constructed job. */
  predicate WellFormed(j: Job)
  {
    j.id != "" && j.createdAt.Some?
  }

  /**
   * `__post_init__`: an empty id is replaced by a fresh uuid and a missing
   * creation time by the current time (both passed in).
   */
  function PostInit(j: Job, freshId: string, now: Timestamp): (r: Job)
    requires freshId != ""
    ensures WellFormed(r)
    ensures WellFormed(j) ==> r == j
    ensures r.businessData == j.businessData && r.status == j.status
  {
    j.(id := if j.id == "" then freshId else j.id,
       createdAt := if j.createdAt.None? then Some(now) else j.createdAt)
  }

  /**
   * `ScoringJob(id=..., business_data=...)` as `submit_job` builds it: the
   * constructor's defaults, then `__post_init__` stamps the creation time.
   */
  function NewJob(id: string, data: Data, now: Timestamp): (j: Job)
    ensures id != "" ==> WellFormed(j) && j == PostInit(Job(id, data, Pending, None, None, None, None, None), id, now)
    ensures j.id == id && j.businessData == data
    ensures j.status == Pending && j.createdAt == Some(now)
    ensures j.score.None? && j.reasoning.None? && j.error.None? && j.completedAt.None?
  {
    Job(id, data, Pending, None, None, None, Some(now), None)
  }

  /**
   * Which result fields each status carries: none before or during
   * processing, score and reasoning but no error once completed, an error
   * but no score or reasoning once failed, and a completion time exactly in
   * the two terminal states.
   */
  predicate Consistent(j: Job)
  {
    match j.status
    case Pending | Processing =>
      j.score.None? && j.reasoning.None? && j.error.None? && j.completedAt.None?
    case Completed =>
      j.score.Some? && j.reasoning.Some? && j.error.None? && j.completedAt.Some?
    case Failed =>
      j.score.None? && j.reasoning.None? && j.error.Some? && j.completedAt.Some?
  }

  /** The stored document: `to_dict()`, timestamps as ISO 8601 text. */
  datatype JobRecord = JobRecord(
    id: string,
    businessData: Data,
    status: string,
    score: Option<real>,
    reasoning: Option<seq<string>>,
    error: Option<string>,
    createdAt: Option<string>,
    completedAt: Option<string>)

  function FormatField(t: Option<Timestamp>): (r: Option<string>)
    ensures r.None? <==> t.None?
  {
    match t
    case None => None
    case Some(d) => Some(FormatIso(d))
  }

  /** `ScoringJob.to_dict()`. */
  function ToDict(j: Job): (r: JobRecord)
    ensures r.id == j.id && r.businessData == j.businessData
    ensures r.status == StatusName(j.status)
    ensures r.score == j.score && r.reasoning == j.reasoning && r.error == j.error
    ensures r.createdAt == FormatField(j.createdAt) && r.completedAt == FormatField(j.completedAt)
  {
    JobRecord(j.id, j.businessData, StatusName(j.status), j.score, j.reasoning, j.error,
              FormatField(j.createdAt), FormatField(j.completedAt))
  }

  /** `fromisoformat(text.replace('Z', '+00:00'))`, failing as Python's ValueError. */
  function ParseField(text: string): (r: Result<Timestamp>)
    ensures r.Ok? ==> WellShaped(ReplaceZ(text))
    ensures 'Z' !in text ==> (r.Ok? <==> ParseIso(text).Some?)
  {
    match ParseIso(ReplaceZ(text))
    case Some(d) => Ok(d)
    case None => Err("Invalid isoformat string: '" + ReplaceZ(text) + "'")
  }

  /** The text `isoformat()` writes parses back to the same timestamp. */
  lemma ParseFieldFormat(d: Timestamp)
    ensures ParseField(FormatIso(d)) == Ok(d)
  {
    FormatHasNoZ(d);
    ParseFormat(d);
  }

  /**
   * One timestamp field of `from_dict`: a missing or falsy (empty) text is
   * not converted and reads as no timestamp; any other text is parsed.
   */
  function DecodeStamp(t: Option<string>): (r: Result<Option<Timestamp>>)
    ensures t.None? || t == Some("") ==> r == Ok(None)
    ensures t.Some? && t.value != "" ==> (r.Ok? <==> ParseField(t.value).Ok?)
    ensures t.Some? && t.value != "" && r.Ok? ==> r.value == Some(ParseField(t.value).value)
  {
    match t
    case None => Ok(None)
    case Some(text) =>
      if text == "" then Ok(None)
      else match ParseField(text)
        case Ok(d) => Ok(Some(d))
        case Err(e) => Err(e)
  }

  /**
   * `ScoringJob.from_dict(data)`. Both timestamps are decoded first; then
   * `__post_init__` fills an empty id and a missing creation time. A status
   * other than the four names is rejected.
   */
  function FromDict(rec: JobRecord, freshId: string, now: Timestamp): (r: Result<Job>)
    requires freshId != ""
    ensures r.Err? <==>
      ParseStatus(rec.status).None? || DecodeStamp(rec.createdAt).Err? || DecodeStamp(rec.completedAt).Err?
    ensures r.Ok? ==> WellFormed(r.value)
    ensures r.Ok? ==> r.value.businessData == rec.businessData && StatusName(r.value.status) == rec.status
    ensures r.Ok? ==> r.value.score == rec.score && r.value.reasoning == rec.reasoning && r.value.error == rec.error
    ensures r.Ok? ==> r.value.id == (if rec.id == "" then freshId else rec.id)
    ensures r.Ok? ==> r.value.completedAt == DecodeStamp(rec.completedAt).value
    ensures r.Ok? && DecodeStamp(rec.createdAt).value.None? ==> r.value.createdAt == Some(now)
    ensures r.Ok? && DecodeStamp(rec.createdAt).value.Some? ==> r.value.createdAt == DecodeStamp(rec.createdAt).value
  {
    match ParseStatus(rec.status)
    case None => Err("unknown status: '" + rec.status + "'")
    case Some(status) =>
      match DecodeStamp(rec.createdAt)
      case Err(e) => Err(e)
      case Ok(created) =>
        match DecodeStamp(rec.completedAt)
        case Err(e) => Err(e)
        case Ok(completed) =>
          Ok(PostInit(Job(rec.id, rec.businessData, status, rec.score, rec.reasoning, rec.error,
                          created, completed), freshId, now))
  }

  /** Storing a job and reading it back yields the same job, timestamps included. */
  lemma {:induction false} RoundTrip(j: Job, freshId: string, now: Timestamp)
    requires WellFormed(j) && freshId != ""
    ensures FromDict(ToDict(j), freshId, now) == Ok(j)
  {
    StatusNameRoundTrip(j.status);
    var created := j.createdAt.value;
    ParseFieldFormat(created);
    assert FormatIso(created) != "";
    if j.completedAt.Some? {
      ParseFieldFormat(j.completedAt.value);
      assert FormatIso(j.completedAt.value) != "";
    }
  }

  /** A document with an empty id and no creation time gets both from `__post_init__`. */
  lemma FromDictDefaults(rec: JobRecord, freshId: string, now: Timestamp)
    requires freshId != "" && rec.id == "" && rec.createdAt.None? && rec.completedAt.None?
    requires ParseStatus(rec.status).Some?
    ensures FromDict(rec, freshId, now).Ok?
    ensures FromDict(rec, freshId, now).value.id == freshId
    ensures FromDict(rec, freshId, now).value.createdAt == Some(now)
  {
  }
}
