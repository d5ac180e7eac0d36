/** The queue worker: the job processor that runs the lifecycle and returns the route with the
    order id, the `'failed'` handler, and the queue's retries of a failing job, which the worker
    library drives and which are modelled here as a function of the router's answer at each
    attempt. */
module OrderWorker {
  import opened OrderTypes
  import opened Journal
  import opened OrderRepository
  import opened Websocket
  import opened Effects
  import opened OrderProcessor

  /** What a finished job returns: the route's fields and the order id (`{ ...route, orderId }`). */
  datatype JobResult = JobResult(venue: Venue, price: real, quotes: seq<Quote>, txHash: string, orderId: OrderId)

  function WithOrderId(route: Route, orderId: OrderId): (r: JobResult)
    ensures r.orderId == orderId
    ensures Route(r.venue, r.price, r.quotes, r.txHash) == route
  {
    JobResult(route.venue, route.price, route.quotes, route.txHash, orderId)
  }

  /** The fields of a queued job that the lifecycle is given. */
  function LifecycleInput(job: OrderJobData): (d: JobData)
    ensures d.orderId == job.orderId && d.baseMint == job.baseMint
    ensures d.quoteMint == job.quoteMint && d.amount == job.amount
  {
    JobData(job.orderId, job.baseMint, job.quoteMint, job.amount)
  }

  /** The job processor: the lifecycle on the job's order, then the route with the order id;
      a router error fails the job with its message. */
  method ProcessJob(job: OrderJobData, outcome: Result<Route, string>, store: OrderTable, stream: OrderStream,
                    ghost log: Log)
    returns (r: Result<JobResult, string>, ghost trace: seq<Effect>)
    requires stream.Valid()
    modifies store, stream`sockets, log
    ensures stream.Valid()
    ensures r.Ok? <==> outcome.Ok?
    ensures r.Ok? ==> r.value == WithOrderId(outcome.value, job.orderId)
    ensures r.Err? ==> r.error == outcome.error
    ensures trace == LifecycleTrace(LifecycleInput(job), outcome)
    ensures log.effects == old(log.effects) + trace
    ensures store.rows == ApplyWrites(old(store.rows), trace)
    ensures stream.sockets == ApplyEmits(old(stream.sockets), stream.registry, stream.listeners, trace)
  {
    var route;
    route, trace := ProcessOrderLifecycle(LifecycleInput(job), outcome, store, stream, log);
    match route
    case Ok(rt) => r := Ok(WithOrderId(rt, job.orderId));
    case Err(e) => r := Err(e);
  }

  /** The job as the `'failed'` event hands it over; the counters may be missing. */
  datatype FailedJob = FailedJob(data: OrderJobData, attemptsMade: Option<nat>, attempts: Option<nat>)

  /** `job.attemptsMade ?? 0` */
  function AttemptsMade(job: FailedJob): (n: nat)
    ensures job.attemptsMade.None? ==> n == 0
    ensures job.attemptsMade.Some? ==> n == job.attemptsMade.value
  {
    job.attemptsMade.GetOr(0)
  }

  /** `job.opts.attempts ?? 1` */
  function MaxAttempts(job: FailedJob): (n: nat)
    ensures job.attempts.None? ==> n == 1
    ensures job.attempts.Some? ==> n == job.attempts.value
  {
    job.attempts.GetOr(1)
  }

  predicate IsFinalAttempt(job: FailedJob) {
    AttemptsMade(job) >= MaxAttempts(job)
  }

  /** The `'failed'` handler: nothing without a job; otherwise a `failed` event with the reason
      and the attempts made, then, on the final attempt only, `recordFailure`. */
  function FailureTrace(job: Option<FailedJob>, reason: string): (r: seq<Effect>)
    ensures r == [] <==> job.None?
    ensures job.Some? ==> |r| == (if IsFinalAttempt(job.value) then 2 else 1)
    ensures job.Some? ==> r[0] == Notify(job.value.data.orderId, Event(Failed, FailedDetail(reason, AttemptsMade(job.value))))
  {
    match job
    case None => []
    case Some(j) =>
      [Notify(j.data.orderId, Event(Failed, FailedDetail(reason, AttemptsMade(j))))]
        + (if IsFinalAttempt(j) then [Persist(UpdateFailure(j.data.orderId, reason))] else [])
  }

  /** The `'failed'` handler: its calls leave exactly `FailureTrace` in the journal, in that
      order, and the table and the sockets as those effects leave them. */
  method OnFailed(job: Option<FailedJob>, reason: string, store: OrderTable, stream: OrderStream, ghost log: Log)
    returns (ghost trace: seq<Effect>)
    requires stream.Valid()
    modifies store, stream`sockets, log
    ensures stream.Valid()
    ensures trace == FailureTrace(job, reason)
    ensures log.effects == old(log.effects) + trace
    ensures store.rows == ApplyWrites(old(store.rows), trace)
    ensures stream.sockets == ApplyEmits(old(stream.sockets), stream.registry, stream.listeners, trace)
  {
    if job.None? {
      return [];
    }
    var j := job.value;
    var attempts := AttemptsMade(j);
    var isFinalAttempt := attempts >= MaxAttempts(j);
    ghost var rows0, sockets0 := store.rows, stream.sockets;
    ghost var R, L := stream.registry, stream.listeners;
    var event := Event(Failed, FailedDetail(reason, attempts));
    stream.Emit(j.data.orderId, event, log);
    trace := [Notify(j.data.orderId, event)];
    ApplyOne(rows0, sockets0, R, L, trace[0]);
    if isFinalAttempt {
      ghost var rows1, sockets1 := store.rows, stream.sockets;
      store.RecordFailure(j.data.orderId, reason, log);
      ApplyOne(rows1, sockets1, R, L, Persist(UpdateFailure(j.data.orderId, reason)));
      trace := Then(rows0, sockets0, R, L, trace, [Persist(UpdateFailure(j.data.orderId, reason))]);
    }
  }

  /** A failure event without a job changes nothing. */
  lemma NoJobNoEffects(reason: string)
    ensures FailureTrace(None, reason) == []
    ensures Events(FailureTrace(None, reason)) == [] && Writes(FailureTrace(None, reason)) == []
  {
  }

  /** Every failed attempt is announced, with the reason and the attempts made, before anything
      is written; the failure is recorded, with the same reason, exactly on the final attempt. */
  lemma FailureHandling(j: FailedJob, reason: string)
    ensures var t := FailureTrace(Some(j), reason);
            && Events(t) == [Event(Failed, FailedDetail(reason, AttemptsMade(j)))]
            && Writes(t) == (if IsFinalAttempt(j) then [UpdateFailure(j.data.orderId, reason)] else [])
            && FailureWrites(t) == (if AttemptsMade(j) >= MaxAttempts(j) then 1 else 0)
            && t[0] == Notify(j.data.orderId, Event(Failed, FailedDetail(reason, AttemptsMade(j))))
  {
    var n := Notify(j.data.orderId, Event(Failed, FailedDetail(reason, AttemptsMade(j))));
    var w := Persist(UpdateFailure(j.data.orderId, reason));
    var t := FailureTrace(Some(j), reason);
    assert [n][..0] == [];
    assert Events([n]) == [n.event] && Writes([n]) == [] && FailureWrites([n]) == 0;
    if IsFinalAttempt(j) {
      assert t == [n, w] && t[..1] == [n];
    } else {
      assert t == [n];
    }
  }

  /** With no counters the attempt counts as 0 of 1, which is not final. */
  lemma MissingCountersAreNotFinal(j: FailedJob)
    requires j.attemptsMade.None? && j.attempts.None?
    ensures AttemptsMade(j) == 0 && MaxAttempts(j) == 1 && !IsFinalAttempt(j)
  {
  }

  // ---- Retries ----

  /** The `attempts` option of every queued job. */
  const QueueAttempts: nat := 3

  /** Attempts `k`..`maxAttempts` of a job whose router answers `outcomes[i - 1]` at attempt `i`:
      each attempt runs the whole lifecycle; a failed one fires `'failed'` with `attemptsMade`
      equal to its number, and is retried while attempts remain. */
  function RetryTrace(job: OrderJobData, outcomes: seq<Result<Route, string>>, k: nat, maxAttempts: nat)
    : (r: seq<Effect>)
    requires 1 <= k <= maxAttempts <= |outcomes|
    ensures |r| >= 3 && r[0] == Persist(UpdateStatus(job.orderId, Routing))
    decreases maxAttempts - k
  {
    AttemptTrace(job, outcomes[k - 1], k, maxAttempts)
      + (if outcomes[k - 1].Err? && k < maxAttempts then RetryTrace(job, outcomes, k + 1, maxAttempts) else [])
  }

  /** Attempt `k`: the lifecycle, then, if it failed, the `'failed'` handler. */
  function AttemptTrace(job: OrderJobData, outcome: Result<Route, string>, k: nat, maxAttempts: nat)
    : (r: seq<Effect>)
    ensures outcome.Ok? ==> r == LifecycleTrace(LifecycleInput(job), outcome)
    ensures outcome.Err? ==> |r| == (if k >= maxAttempts then 5 else 4)
    ensures outcome.Err? ==> r[3] == Notify(job.orderId, Event(Failed, FailedDetail(outcome.error, k)))
  {
    LifecycleTrace(LifecycleInput(job), outcome)
      + (if outcome.Err? then FailureTrace(Some(FailedJob(job, Some(k), Some(maxAttempts))), outcome.error) else [])
  }

  /** One attempt records a failure only when it fails and is the last one. */
  lemma AttemptFailureWrites(job: OrderJobData, outcome: Result<Route, string>, k: nat, maxAttempts: nat)
    ensures FailureWrites(AttemptTrace(job, outcome, k, maxAttempts)) == if outcome.Err? && k >= maxAttempts then 1 else 0
  {
    var run := LifecycleTrace(LifecycleInput(job), outcome);
    LifecycleWritesOnlyItsRow(LifecycleInput(job), outcome);
    NoFailureWrites(run, job.orderId, LifecycleColumns);
    if outcome.Err? {
      var j := FailedJob(job, Some(k), Some(maxAttempts));
      FailureHandling(j, outcome.error);
      FailureWritesAppend(run, FailureTrace(Some(j), outcome.error));
    } else {
      assert AttemptTrace(job, outcome, k, maxAttempts) == run;
    }
  }

  /** A failed attempt announces routing, then its failure with its error and number. */
  lemma FailedAttemptEvents(job: OrderJobData, error: string, k: nat, maxAttempts: nat)
    ensures Events(AttemptTrace(job, Err(error), k, maxAttempts))
         == [Event(Routing, NoDetail), Event(Failed, FailedDetail(error, k))]
  {
    var run := LifecycleTrace(LifecycleInput(job), Err(error));
    var j := FailedJob(job, Some(k), Some(maxAttempts));
    RouterFailureStopsAfterRouting(LifecycleInput(job), error);
    FailureHandling(j, error);
    EventsAppend(run, FailureTrace(Some(j), error));
  }

  /** The last failed attempt ends with `recordFailure` of its error. */
  lemma LastAttemptEnds(job: OrderJobData, error: string, k: nat, maxAttempts: nat)
    requires k >= maxAttempts
    ensures var t := AttemptTrace(job, Err(error), k, maxAttempts);
            t != [] && t[|t| - 1] == Persist(UpdateFailure(job.orderId, error))
  {
  }

  /** Every attempt from `k` on fails. */
  predicate FailsFrom(outcomes: seq<Result<Route, string>>, k: nat, maxAttempts: nat)
    requires 1 <= k <= maxAttempts <= |outcomes|
  {
    forall i :: k - 1 <= i < maxAttempts ==> outcomes[i].Err?
  }

  /** The events of attempts `k`..`maxAttempts` when all fail: routing, then failed with that
      attempt's error and number, attempt after attempt. */
  function AllFailEvents(outcomes: seq<Result<Route, string>>, k: nat, maxAttempts: nat): seq<Event>
    requires 1 <= k <= maxAttempts <= |outcomes|
    requires FailsFrom(outcomes, k, maxAttempts)
    decreases maxAttempts - k
  {
    [Event(Routing, NoDetail), Event(Failed, FailedDetail(outcomes[k - 1].error, k))]
      + (if k < maxAttempts then AllFailEvents(outcomes, k + 1, maxAttempts) else [])
  }

  /** A lifecycle never records a failure. */
  lemma {:induction false} NoFailureWrites(t: seq<Effect>, id: OrderId, cols: set<Column>)
    requires WritesOnlyTo(t, id, cols) && FailureReasonColumn !in cols
    ensures FailureWrites(t) == 0
    decreases |t|
  {
    if t != [] {
      var p := t[..|t| - 1];
      assert WritesOnlyTo(p, id, cols) by {
        forall i | 0 <= i < |p| && p[i].Persist?
          ensures !p[i].query.InsertOrder? && p[i].query.id == id && Columns(p[i].query) <= cols
        {
          assert p[i] == t[i];
        }
      }
      NoFailureWrites(p, id, cols);
      assert t[|t| - 1].Persist? ==> Columns(t[|t| - 1].query) <= cols;
    }
  }

  /** `recordFailure` runs exactly once over the attempts `k`..`maxAttempts` when all of them
      fail, and never when one of them succeeds. */
  lemma {:induction false} RecordFailureOnceIffAllFail(job: OrderJobData, outcomes: seq<Result<Route, string>>,
                                                      k: nat, maxAttempts: nat)
    requires 1 <= k <= maxAttempts <= |outcomes|
    ensures FailureWrites(RetryTrace(job, outcomes, k, maxAttempts)) == if FailsFrom(outcomes, k, maxAttempts) then 1 else 0
    decreases maxAttempts - k
  {
    var first := AttemptTrace(job, outcomes[k - 1], k, maxAttempts);
    AttemptFailureWrites(job, outcomes[k - 1], k, maxAttempts);
    if outcomes[k - 1].Err? && k < maxAttempts {
      FailureWritesAppend(first, RetryTrace(job, outcomes, k + 1, maxAttempts));
      RecordFailureOnceIffAllFail(job, outcomes, k + 1, maxAttempts);
      assert FailsFrom(outcomes, k, maxAttempts) == FailsFrom(outcomes, k + 1, maxAttempts);
    } else {
      assert RetryTrace(job, outcomes, k, maxAttempts) == first;
      assert outcomes[k - 1].Ok? ==> !FailsFrom(outcomes, k, maxAttempts);
    }
  }

  /** When every attempt fails, each one starts again from routing and is announced as failed
      with its own error and number. */
  lemma {:induction false} EveryRetryRestartsFromRouting(job: OrderJobData, outcomes: seq<Result<Route, string>>,
                                                         k: nat, maxAttempts: nat)
    requires 1 <= k <= maxAttempts <= |outcomes|
    requires FailsFrom(outcomes, k, maxAttempts)
    ensures Events(RetryTrace(job, outcomes, k, maxAttempts)) == AllFailEvents(outcomes, k, maxAttempts)
    decreases maxAttempts - k
  {
    assert outcomes[k - 1].Err?;
    var first := AttemptTrace(job, outcomes[k - 1], k, maxAttempts);
    FailedAttemptEvents(job, outcomes[k - 1].error, k, maxAttempts);
    if k < maxAttempts {
      assert FailsFrom(outcomes, k + 1, maxAttempts);
      var rest := RetryTrace(job, outcomes, k + 1, maxAttempts);
      assert RetryTrace(job, outcomes, k, maxAttempts) == first + rest;
      EventsAppend(first, rest);
      EveryRetryRestartsFromRouting(job, outcomes, k + 1, maxAttempts);
    } else {
      assert RetryTrace(job, outcomes, k, maxAttempts) == first;
    }
  }

  /** When every attempt fails, the last effect is `recordFailure` with the last attempt's error. */
  lemma {:induction false} AllFailEndsWithRecordFailure(job: OrderJobData, outcomes: seq<Result<Route, string>>,
                                                        k: nat, maxAttempts: nat)
    requires 1 <= k <= maxAttempts <= |outcomes|
    requires FailsFrom(outcomes, k, maxAttempts)
    ensures var t := RetryTrace(job, outcomes, k, maxAttempts);
            t != [] && t[|t| - 1] == Persist(UpdateFailure(job.orderId, outcomes[maxAttempts - 1].error))
    decreases maxAttempts - k
  {
    if k < maxAttempts {
      AllFailEndsWithRecordFailure(job, outcomes, k + 1, maxAttempts);
    } else {
      LastAttemptEnds(job, outcomes[k - 1].error, k, maxAttempts);
      assert RetryTrace(job, outcomes, k, maxAttempts) == AttemptTrace(job, outcomes[k - 1], k, maxAttempts);
    }
  }

  /** With the queue's three attempts and three router failures: three `failed` events
      (attempts 1, 2 and 3, each after a fresh routing), and one `recordFailure`, the last
      effect, with the third error. */
  lemma ThreeFailures(job: OrderJobData, e1: string, e2: string, e3: string)
    ensures var t := RetryTrace(job, [Err(e1), Err(e2), Err(e3)], 1, QueueAttempts);
            && Events(t) == [Event(Routing, NoDetail), Event(Failed, FailedDetail(e1, 1)),
                             Event(Routing, NoDetail), Event(Failed, FailedDetail(e2, 2)),
                             Event(Routing, NoDetail), Event(Failed, FailedDetail(e3, 3))]
            && FailureWrites(t) == 1
            && t[|t| - 1] == Persist(UpdateFailure(job.orderId, e3))
  {
    var outcomes: seq<Result<Route, string>> := [Err(e1), Err(e2), Err(e3)];
    assert FailsFrom(outcomes, 1, 3);
    EveryRetryRestartsFromRouting(job, outcomes, 1, 3);
    RecordFailureOnceIffAllFail(job, outcomes, 1, 3);
    AllFailEndsWithRecordFailure(job, outcomes, 1, 3);
    assert AllFailEvents(outcomes, 3, 3) == [Event(Routing, NoDetail), Event(Failed, FailedDetail(e3, 3))];
  }

  /** A job that succeeds at some attempt never has its failure recorded. */
  lemma SuccessNeverRecordsFailure(job: OrderJobData, outcomes: seq<Result<Route, string>>, k: nat)
    requires 1 <= k <= QueueAttempts <= |outcomes| && outcomes[k - 1].Ok?
    ensures FailureWrites(RetryTrace(job, outcomes, 1, QueueAttempts)) == 0
  {
    RecordFailureOnceIffAllFail(job, outcomes, 1, QueueAttempts);
  }
}
