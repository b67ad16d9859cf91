/**
 * `QueuedScorer`: the job store (the `job:<id>` keys), the queue (the list
 * `queue:<name>`), and the worker that drains it. The store maps each id to
 * the job whose `to_dict` document is kept under `job:<id>` (ScoringJobs
 * proves that decoding such a document gives the job back); `writes` is the
 * log of every document write (`setex`), so that the intermediate
 * `processing` write of the worker is visible.
 */
module JobQueue {
  import opened Wrappers
  import opened BusinessData
  import opened IsoDateTime
  import opened ScoringJobs
  import QueuedScoring
  import opened SeqUtil

  // ----- the queue: LPUSH at index 0, BRPOP from the last index -----

  /** The order in which a single consumer pops the ids of `q`, oldest first. */
  function Drain(q: seq<string>): (r: seq<string>)
    ensures |r| == |q|
  {
    if q == [] then [] else [q[|q| - 1]] + Drain(q[..|q| - 1])
  }

  /** LPUSH puts an id behind every id already queued. */
  lemma {:induction false} DrainPush(q: seq<string>, x: string)
    ensures Drain([x] + q) == Drain(q) + [x]
  {
    if q != [] {
      var n := |q| - 1;
      assert ([x] + q)[..|q|] == [x] + q[..n];
      DrainPush(q[..n], x);
    }
  }

  /** The ids a single consumer pops are exactly the queued ids. */
  lemma {:induction false} DrainMembers(q: seq<string>, x: string)
    ensures x in Drain(q) <==> x in q
  {
    if q != [] {
      var n := |q| - 1;
      DrainMembers(q[..n], x);
      assert q == q[..n] + [q[n]];
    }
  }

  /** The queue after LPUSHing `xs` in order, as `batch_submit` does. */
  function PushAll(q: seq<string>, xs: seq<string>): (r: seq<string>)
    ensures |r| == |q| + |xs|
  {
    if xs == [] then q else [xs[|xs| - 1]] + PushAll(q, xs[..|xs| - 1])
  }

  lemma PushAllMembers(q: seq<string>, xs: seq<string>, x: string)
    ensures x in PushAll(q, xs) <==> x in q || x in xs
  {
    if xs != [] {
      var n := |xs| - 1;
      PushAllMembers(q, xs[..n], x);
      assert xs == xs[..n] + [xs[n]];
    }
  }

  /**
   * FIFO: after LPUSHing `xs` one by one, a single consumer pops the ids
   * already queued and then `xs` in submission order.
   */
  lemma {:induction false} FifoOrder(q: seq<string>, xs: seq<string>)
    ensures Drain(PushAll(q, xs)) == Drain(q) + xs
  {
    if xs != [] {
      var n := |xs| - 1;
      FifoOrder(q, xs[..n]);
      DrainPush(PushAll(q, xs[..n]), xs[n]);
      assert xs == xs[..n] + [xs[n]];
    }
  }

  /** The jobs `batch_submit` creates, one per business, with the given ids and clock readings. */
  function NewJobs(ids: seq<string>, businesses: seq<Data>, clock: seq<Timestamp>): (r: seq<Job>)
    requires |ids| == |businesses| == |clock|
    ensures |r| == |ids|
    ensures forall i :: 0 <= i < |r| ==> r[i] == NewJob(ids[i], businesses[i], clock[i])
  {
    if ids == [] then []
    else NewJobs(ids[..|ids| - 1], businesses[..|ids| - 1], clock[..|ids| - 1])
         + [NewJob(ids[|ids| - 1], businesses[|ids| - 1], clock[|ids| - 1])]
  }

  /** The store after storing the jobs of `NewJobs` one after the other. */
  function Submitted(m: map<string, Job>, ids: seq<string>, businesses: seq<Data>, clock: seq<Timestamp>)
    : (r: map<string, Job>)
    requires |ids| == |businesses| == |clock|
    ensures m.Keys <= r.Keys
  {
    if ids == [] then m
    else
      var n := |ids| - 1;
      Submitted(m, ids[..n], businesses[..n], clock[..n])[ids[n] := NewJob(ids[n], businesses[n], clock[n])]
  }

  /**
   * With distinct ids, the batch adds exactly one new pending job per id,
   * holding that business, and leaves every other job as it was.
   */
  lemma {:induction false} SubmittedJobs(m: map<string, Job>, ids: seq<string>, businesses: seq<Data>,
                                         clock: seq<Timestamp>)
    requires |ids| == |businesses| == |clock|
    requires forall i :: 0 <= i < |ids| ==> ids[i] != "" && ids[i] !in m
    requires forall i, j :: 0 <= i < j < |ids| ==> ids[i] != ids[j]
    ensures forall x :: x in Submitted(m, ids, businesses, clock) <==> x in m || x in ids
    ensures forall k :: k in m ==> Submitted(m, ids, businesses, clock)[k] == m[k]
    ensures forall i :: 0 <= i < |ids| ==>
      Submitted(m, ids, businesses, clock)[ids[i]] == NewJob(ids[i], businesses[i], clock[i])
  {
    if ids != [] {
      var n := |ids| - 1;
      SubmittedJobs(m, ids[..n], businesses[..n], clock[..n]);
      assert ids == ids[..n] + [ids[n]];
      forall i | 0 <= i < n ensures ids[i] != ids[n] { }
    }
  }

  /** One more submission extends the three prefix views of a batch by its n-th element. */
  lemma PrefixStep(m: map<string, Job>, q: seq<string>, ids: seq<string>, businesses: seq<Data>,
                   clock: seq<Timestamp>, n: nat)
    requires |ids| == |businesses| == |clock| && n < |ids|
    ensures NewJobs(ids[..n + 1], businesses[..n + 1], clock[..n + 1])
         == NewJobs(ids[..n], businesses[..n], clock[..n]) + [NewJob(ids[n], businesses[n], clock[n])]
    ensures Submitted(m, ids[..n + 1], businesses[..n + 1], clock[..n + 1])
         == Submitted(m, ids[..n], businesses[..n], clock[..n])[ids[n] := NewJob(ids[n], businesses[n], clock[n])]
    ensures PushAll(q, ids[..n + 1]) == [ids[n]] + PushAll(q, ids[..n])
  {
    assert ids[..n + 1][..n] == ids[..n];
    assert businesses[..n + 1][..n] == businesses[..n];
    assert clock[..n + 1][..n] == clock[..n];
  }

  /** The n-th id of a fresh batch is neither stored nor queued after the first n submissions. */
  lemma NextIsFresh(m: map<string, Job>, q: seq<string>, ids: seq<string>, businesses: seq<Data>,
                    clock: seq<Timestamp>, n: nat)
    requires |ids| == |businesses| == |clock| && n < |ids|
    requires FreshIds(ids, m.Keys, q)
    ensures ids[n] != ""
    ensures ids[n] !in Submitted(m, ids[..n], businesses[..n], clock[..n])
    ensures ids[n] !in PushAll(q, ids[..n])
  {
    PushAllMembers(q, ids[..n], ids[n]);
    SubmittedJobs(m, ids[..n], businesses[..n], clock[..n]);
    assert ids[n] !in ids[..n];
  }

  /** Ids that can be handed out: non-empty, pairwise distinct, and neither stored nor queued. */
  predicate FreshIds(ids: seq<string>, stored: set<string>, queue: seq<string>)
  {
    && (forall i :: 0 <= i < |ids| ==> ids[i] != "" && ids[i] !in stored && ids[i] !in queue)
    && (forall i, j :: 0 <= i < j < |ids| ==> ids[i] != ids[j])
  }

  // ----- processing a job -----

  /** The first write of `_process_job`: the job marked `processing`. */
  function Started(j: Job): (r: Job)
    ensures r.status == Processing
    ensures r == j.(status := Processing)
  {
    j.(status := Processing)
  }

  /**
   * The final write of `_process_job`: `completed` with the score and the
   * reasoning when scoring succeeds, `failed` with the exception message
   * otherwise; score and reasoning are then left as loaded. Either way the
   * completion time is stamped and nothing else changes.
   */
  function Finished(j: Job, now: Timestamp): (r: Job)
    ensures r.id == j.id && r.businessData == j.businessData && r.createdAt == j.createdAt
    ensures r.completedAt == Some(now)
    ensures r.status == Completed || r.status == Failed
    ensures r.status == Completed <==> QueuedScoring.ScoreBusiness(j.businessData).Ok?
    ensures r.status == Completed ==>
      var sd := QueuedScoring.ScoreBusiness(j.businessData).value;
      r.score == Some(sd.score) && r.reasoning == Some(sd.reasoning) && r.error == j.error
    ensures r.status == Failed ==>
      r.error == Some(QueuedScoring.ScoreBusiness(j.businessData).error)
      && r.score == j.score && r.reasoning == j.reasoning
  {
    var p := Started(j);
    match QueuedScoring.ScoreBusiness(j.businessData)
    case Ok(sd) =>
      p.(score := Some(sd.score), reasoning := Some(sd.reasoning), status := Completed, completedAt := Some(now))
    case Err(e) =>
      p.(status := Failed, error := Some(e), completedAt := Some(now))
  }

  /**
   * Processing a pending job passes through a consistent `processing`
   * record and ends in a consistent terminal one: exactly one of the
   * result (score and reasoning) and the error is set.
   */
  lemma ProcessingKeepsConsistent(j: Job, now: Timestamp)
    requires Consistent(j) && j.status == Pending
    ensures Consistent(Started(j)) && Consistent(Finished(j, now))
    ensures Finished(j, now).status == Completed ==> Finished(j, now).error.None?
    ensures Finished(j, now).status == Failed ==>
      Finished(j, now).score.None? && Finished(j, now).reasoning.None?
  {
  }

  // ----- statistics -----

  datatype QueueStats = QueueStats(
    pendingJobs: nat, totalJobs: nat, completedJobs: nat, failedJobs: nat, processingJobs: nat)

  /** The stored ids whose document has status `name`. */
  function WithStatus(m: map<string, Job>, name: string): (ks: set<string>)
    ensures ks <= m.Keys
  {
    set k | k in m && StatusName(m[k].status) == name
  }

  /** The three terminal-or-active counts never exceed the number of stored documents. */
  lemma {:induction false} StatusCountsBound(m: map<string, Job>)
    ensures |WithStatus(m, "completed")| + |WithStatus(m, "failed")| + |WithStatus(m, "processing")| <= |m|
  {
    var a, b, c := WithStatus(m, "completed"), WithStatus(m, "failed"), WithStatus(m, "processing");
    assert a !! b && a !! c && b !! c;
    assert |a + b| == |a| + |b|;
    assert |a + b + c| == |a + b| + |c|;
    SubsetCard(a + b + c, m.Keys);
    assert |m.Keys| == |m|;
  }

  lemma {:induction false} SubsetCard(s: set<string>, t: set<string>)
    requires s <= t
    ensures |s| <= |t|
  {
    if s != {} {
      var x :| x in s;
      SubsetCard(s - {x}, t - {x});
    }
  }

  /** The ids among `done` whose document has status `name`. */
  function DoneWith(m: map<string, Job>, done: set<string>, name: string): set<string>
  {
    set k | k in done && k in m && StatusName(m[k].status) == name
  }

  lemma DoneWithStep(m: map<string, Job>, done: set<string>, k: string, name: string)
    requires k in m && k !in done
    ensures |DoneWith(m, done + {k}, name)| ==
      |DoneWith(m, done, name)| + (if StatusName(m[k].status) == name then 1 else 0)
  {
    if StatusName(m[k].status) == name {
      assert DoneWith(m, done + {k}, name) == DoneWith(m, done, name) + {k};
    } else {
      assert DoneWith(m, done + {k}, name) == DoneWith(m, done, name);
    }
  }

  // ----- the store invariant, on values -----

  /** A job as the store may hold it: well-formed, consistent, and stored under its own id. */
  predicate Entry(k: string, j: Job)
  {
    j.id == k && WellFormed(j) && Consistent(j)
  }

  predicate JobsOk(jobs: map<string, Job>)
  {
    forall k :: k in jobs ==> Entry(k, jobs[k])
  }

  /** Every queued id that is still stored belongs to a pending job. */
  predicate QueuedArePending(queue: seq<string>, jobs: map<string, Job>)
  {
    forall i :: 0 <= i < |queue| && queue[i] in jobs ==> jobs[queue[i]].status == Pending
  }

  predicate Distinct(queue: seq<string>)
  {
    forall i, j :: 0 <= i < j < |queue| ==> queue[i] != queue[j]
  }

  lemma QueuedArePendingRemove(queue: seq<string>, jobs: map<string, Job>, id: string)
    requires QueuedArePending(queue, jobs)
    ensures QueuedArePending(queue, jobs - {id})
  {
  }

  lemma QueuedArePendingWrite(queue: seq<string>, jobs: map<string, Job>, j: Job)
    requires QueuedArePending(queue, jobs)
    requires j.id !in queue || j.status == Pending
    ensures QueuedArePending(queue, jobs[j.id := j])
  {
  }

  /** LPUSHing the id of a stored pending job that is not queued yet keeps the queue part of the invariant. */
  lemma QueuePush(queue: seq<string>, jobs: map<string, Job>, id: string)
    requires QueuedArePending(queue, jobs) && Distinct(queue)
    requires id in jobs && jobs[id].status == Pending && id !in queue
    ensures QueuedArePending([id] + queue, jobs) && Distinct([id] + queue)
  {
    var q := [id] + queue;
    forall i | 0 <= i < |q| && q[i] in jobs ensures jobs[q[i]].status == Pending {
      if i > 0 {
        assert q[i] == queue[i - 1];
      }
    }
    forall a, b | 0 <= a < b < |q| ensures q[a] != q[b] {
      assert q[b] == queue[b - 1];
      if a > 0 {
        assert q[a] == queue[a - 1];
      }
    }
  }

  lemma AppendAssoc<T>(a: seq<T>, b: seq<T>, c: seq<T>)
    ensures a + b + c == a + (b + c)
  {
  }

  /** A second write to the same key replaces the first. */
  lemma Overwrite<V>(m: map<string, V>, k: string, a: V, b: V)
    ensures m[k := a][k := b] == m[k := b]
  {
  }

  datatype StepOutcome =
    | NotRunning
    | Idle
    | NotFound(id: string)
    | Processed(id: string, job: Job)

  class QueuedScorer {
    var store: map<string, Job>
    var queue: seq<string>
    var isRunning: bool
    ghost var writes: seq<Job>

    /**
     * Every stored job is well-formed, consistent and stored under its own
     * id; the queue holds distinct ids, and any queued id that is still
     * stored belongs to a pending job.
     */
    ghost predicate Valid()
      reads this
    {
      JobsOk(store) && QueuedArePending(queue, store) && Distinct(queue)
    }

    /** A scorer with an empty store and queue and the worker not running. */
    constructor ()
      ensures Valid()
      ensures store == map[] && queue == [] && !isRunning && writes == []
    {
      store, queue, isRunning := map[], [], false;
      writes := [];
    }

    /** `_update_job`: overwrite the document stored under the job's id. */
    method UpdateJob(job: Job)
      requires Valid()
      requires WellFormed(job) && Consistent(job) && job.id !in queue
      modifies this`store, this`writes
      ensures Valid()
      ensures store == old(store)[job.id := job]
      ensures writes == old(writes) + [job]
    {
      QueuedArePendingWrite(queue, store, job);
      store := store[job.id := job];
      writes := writes + [job];
    }

    /**
     * `submit_job`, with the uuid and the clock passed in: store a new
     * pending job under a fresh id and LPUSH the id.
     */
    method SubmitJob(data: Data, id: string, now: Timestamp) returns (jobId: string)
      requires Valid()
      requires id != "" && id !in store && id !in queue
      modifies this`store, this`queue, this`writes
      ensures Valid()
      ensures jobId == id
      ensures store == old(store)[id := NewJob(id, data, now)]
      ensures queue == [id] + old(queue)
      ensures Drain(queue) == Drain(old(queue)) + [id]
      ensures writes == old(writes) + [NewJob(id, data, now)]
    {
      UpdateJob(NewJob(id, data, now));
      QueuePush(queue, store, id);
      queue := [id] + queue;
      DrainPush(old(queue), id);
      jobId := id;
    }

    /**
     * One iteration of `batch_submit`: submit the n-th business under the
     * n-th id, extending every prefix relation by one.
     */
    method SubmitNext(businesses: seq<Data>, ids: seq<string>, clock: seq<Timestamp>, n: nat,
                      ghost store0: map<string, Job>, ghost queue0: seq<string>, ghost writes0: seq<Job>)
      returns (id: string)
      requires Valid()
      requires |ids| == |businesses| == |clock| && n < |ids| && FreshIds(ids, store0.Keys, queue0)
      requires queue == PushAll(queue0, ids[..n])
      requires store == Submitted(store0, ids[..n], businesses[..n], clock[..n])
      requires writes == writes0 + NewJobs(ids[..n], businesses[..n], clock[..n])
      modifies this`store, this`queue, this`writes
      ensures Valid()
      ensures id == ids[n]
      ensures queue == PushAll(queue0, ids[..n + 1])
      ensures store == Submitted(store0, ids[..n + 1], businesses[..n + 1], clock[..n + 1])
      ensures writes == writes0 + NewJobs(ids[..n + 1], businesses[..n + 1], clock[..n + 1])
    {
      NextIsFresh(store0, queue0, ids, businesses, clock, n);
      PrefixStep(store0, queue0, ids, businesses, clock, n);
      AppendAssoc(writes0, NewJobs(ids[..n], businesses[..n], clock[..n]),
                  [NewJob(ids[n], businesses[n], clock[n])]);
      id := SubmitJob(businesses[n], ids[n], clock[n]);
    }

    /**
     * `batch_submit`: `submit_job` for each business in order; the ids come
     * back in that order, and by FifoOrder a single consumer processes them
     * in it.
     */
    method BatchSubmit(businesses: seq<Data>, ids: seq<string>, clock: seq<Timestamp>)
      returns (jobIds: seq<string>)
      requires Valid()
      requires |ids| == |businesses| == |clock| && FreshIds(ids, store.Keys, queue)
      modifies this`store, this`queue, this`writes
      ensures Valid()
      ensures jobIds == ids
      ensures queue == PushAll(old(queue), ids)
      ensures store == Submitted(old(store), ids, businesses, clock)
      ensures writes == old(writes) + NewJobs(ids, businesses, clock)
    {
      jobIds := [];
      var n := 0;
      while n < |businesses|
        invariant 0 <= n <= |businesses|
        invariant Valid()
        invariant jobIds == ids[..n]
        invariant queue == PushAll(old(queue), ids[..n])
        invariant store == Submitted(old(store), ids[..n], businesses[..n], clock[..n])
        invariant writes == old(writes) + NewJobs(ids[..n], businesses[..n], clock[..n])
      {
        var id := SubmitNext(businesses, ids, clock, n, old(store), old(queue), old(writes));
        TakeSnoc(ids, n);
        jobIds := jobIds + [id];
        n := n + 1;
      }
      TakeAll(ids);
      TakeAll(businesses);
      TakeAll(clock);
    }

    /**
     * `get_job_status`: the stored job, decoded with `from_dict`, or None.
     * It reads only, so two calls without a write in between agree.
     */
    method GetJobStatus(id: string, freshId: string, now: Timestamp) returns (r: Option<Job>)
      requires Valid() && freshId != ""
      ensures id in store ==> r == Some(store[id])
      ensures id !in store ==> r == None
    {
      if id in store {
        var document := ToDict(store[id]);
        RoundTrip(store[id], freshId, now);
        var decoded := FromDict(document, freshId, now);
        r := Some(decoded.value);
      } else {
        r := None;
      }
    }

    /**
     * `get_queue_stats`: the queue length, the number of stored documents,
     * and how many of them are completed, failed or processing (pending
     * documents fall in none of the three).
     */
    method GetQueueStats() returns (stats: QueueStats)
      ensures stats.pendingJobs == |queue| && stats.totalJobs == |store|
      ensures stats.completedJobs == |WithStatus(store, "completed")|
      ensures stats.failedJobs == |WithStatus(store, "failed")|
      ensures stats.processingJobs == |WithStatus(store, "processing")|
      ensures stats.completedJobs + stats.failedJobs + stats.processingJobs <= stats.totalJobs
      ensures store == map[] && queue == [] ==> stats == QueueStats(0, 0, 0, 0, 0)
    {
      var completed, failed, processing := 0, 0, 0;
      var remaining := store.Keys;
      while remaining != {}
        invariant remaining <= store.Keys
        invariant completed == |DoneWith(store, store.Keys - remaining, "completed")|
        invariant failed == |DoneWith(store, store.Keys - remaining, "failed")|
        invariant processing == |DoneWith(store, store.Keys - remaining, "processing")|
        decreases remaining
      {
        var k :| k in remaining;
        var done := store.Keys - remaining;
        DoneWithStep(store, done, k, "completed");
        DoneWithStep(store, done, k, "failed");
        DoneWithStep(store, done, k, "processing");
        var status := StatusName(store[k].status);
        if status == "completed" {
          completed := completed + 1;
        } else if status == "failed" {
          failed := failed + 1;
        } else if status == "processing" {
          processing := processing + 1;
        }
        assert store.Keys - (remaining - {k}) == done + {k};
        remaining := remaining - {k};
      }
      assert store.Keys - remaining == store.Keys;
      assert DoneWith(store, store.Keys, "completed") == WithStatus(store, "completed");
      assert DoneWith(store, store.Keys, "failed") == WithStatus(store, "failed");
      assert DoneWith(store, store.Keys, "processing") == WithStatus(store, "processing");
      StatusCountsBound(store);
      stats := QueueStats(|queue|, |store|, completed, failed, processing);
    }

    /**
     * `_process_job` on a job the worker has just dequeued (so pending and
     * no longer queued): write it as `processing`, score it, and write the
     * `completed` or `failed` outcome. Only that job's document changes.
     */
    method ProcessJob(job: Job, now: Timestamp)
      requires Valid()
      requires WellFormed(job) && Consistent(job) && job.status == Pending && job.id !in queue
      modifies this`store, this`writes
      ensures Valid()
      ensures writes == old(writes) + [Started(job), Finished(job, now)]
      ensures store == old(store)[job.id := Finished(job, now)]
    {
      ProcessingKeepsConsistent(job, now);
      ghost var store0 := store;
      UpdateJob(Started(job));
      // scoring either yields a result or raises; Finished covers both outcomes
      UpdateJob(Finished(job, now));
      Overwrite(store0, job.id, Started(job), Finished(job, now));
    }

    /** `start_worker` raises the running flag before entering its loop. */
    method StartWorker()
      modifies this`isRunning
      ensures isRunning
    {
      isRunning := true;
    }

    /** `stop_worker`: the loop ends before its next iteration. */
    method StopWorker()
      modifies this`isRunning
      ensures !isRunning
    {
      isRunning := false;
    }

    /**
     * One iteration of the `start_worker` loop: BRPOP the oldest id, load
     * its job and process it. An empty queue, or an id whose document is
     * gone, changes nothing else.
     */
    method WorkerStep(now: Timestamp, freshId: string) returns (outcome: StepOutcome)
      requires Valid() && freshId != ""
      modifies this`store, this`queue, this`writes
      ensures Valid()
      ensures !old(isRunning) ==> outcome == NotRunning && unchanged(this)
      ensures old(isRunning) && old(queue) == [] ==> outcome == Idle && unchanged(this)
      ensures old(isRunning) && old(queue) != [] ==>
        var id := Drain(old(queue))[0];
        && Drain(queue) == Drain(old(queue))[1..]
        && (id !in old(store) ==>
              outcome == NotFound(id) && store == old(store) && writes == old(writes))
        && (id in old(store) ==>
              var done := Finished(old(store)[id], now);
              && outcome == Processed(id, done)
              && (done.status == Completed || done.status == Failed)
              && store == old(store)[id := done]
              && writes == old(writes) + [Started(old(store)[id]), done])
    {
      if !isRunning {
        return NotRunning;
      }
      if queue == [] {
        return Idle;
      }
      var id := queue[|queue| - 1];
      queue := queue[..|queue| - 1];
      assert forall x :: x in queue ==> x != id;
      var loaded := GetJobStatus(id, freshId, now);
      match loaded {
        case None =>
          outcome := NotFound(id);
        case Some(job) =>
          ProcessJob(job, now);
          outcome := Processed(id, Finished(job, now));
      }
    }

    /** A stored document outlives its time-to-live and disappears from the store. */
    method Expire(id: string)
      requires Valid()
      modifies this`store
      ensures Valid()
      ensures store == old(store) - {id}
    {
      QueuedArePendingRemove(queue, store, id);
      store := store - {id};
    }
  }
}
