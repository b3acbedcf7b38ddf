/** The mutating operations of `JobQueue`: enqueueing, starting the workers,
    one worker iteration (take the FIFO head, run it, record the result,
    notify the callback) and the callback's retry loop. asyncio runs one
    coroutine at a time, so each operation is a step on the shared state;
    clocks are `nat` parameters, the HTTP POST is a function from attempt
    number to its result, and sleeps are recorded as numbers of seconds. */
module Queue {
  import opened Basics
  import opened Text
  import opened BatchProcessor
  import opened Jobs

  // ---------------------------------------------------------------------
  // add_job and _start_workers
  // ---------------------------------------------------------------------

  /** `_start_workers`: the first call marks the workers started and creates
      one worker per slot `0 .. max_workers-1`; later calls do nothing. */
  function StartWorkers(q: JobQueue): (r: JobQueue)
    ensures r.workersStarted
    ensures r.jobs == q.jobs && r.fifo == q.fifo && r.maxWorkers == q.maxWorkers
    ensures q.workersStarted ==> r.workers == q.workers
    ensures !q.workersStarted ==> |r.workers| == |q.workers| + q.maxWorkers
    ensures !q.workersStarted ==> forall i :: 0 <= i < |q.workers| ==> r.workers[i] == q.workers[i]
    ensures !q.workersStarted ==> forall i :: |q.workers| <= i < |r.workers| ==> r.workers[i] + |q.workers| == i
  {
    if q.workersStarted then q
    else q.(workersStarted := true, workers := q.workers + Range(q.maxWorkers))
  }

  lemma StartWorkersIdempotent(q: JobQueue)
    ensures StartWorkers(StartWorkers(q)) == StartWorkers(q)
  {
  }

  /** The record `add_job` writes. */
  function NewJob(id: string, tipo: string, params: Params, callbackUrl: Option<string>,
                  voucherId: Option<string>, now: nat, position: int): Job
  {
    Job(id, tipo, params, Pending, now, None, None, None, None, position, callbackUrl, voucherId, false, None, None)
  }

  /** `add_job` with `id` as the generated uuid and `now` as the clock. The
      record is written under its id (replacing a record with the same id in
      place, as a dict assignment does), the entry goes to the FIFO's tail
      and the workers are started if they were not. */
  function AddJob(q: JobQueue, id: string, tipo: string, params: Params,
                  callbackUrl: Option<string>, voucherId: Option<string>, now: nat): (r: JobQueue)
    ensures r.fifo == q.fifo + [Entry(id, tipo, params)]
    ensures r.workersStarted && r.maxWorkers == q.maxWorkers
    ensures Fresh(q, id) ==> |r.jobs| == |q.jobs| + 1 && r.jobs[..|q.jobs|] == q.jobs && r.jobs[|q.jobs|].jobId == id
    ensures !Fresh(q, id) ==> |r.jobs| == |q.jobs|
    ensures IndexOf(r.jobs, id).Some?
    ensures var j := r.jobs[IndexOf(r.jobs, id).value];
      && j.tipo == tipo && j.params == params && j.createdAt == now
      && j.status == Pending && j.startedAt.None? && j.completedAt.None? && j.resultado.None? && j.error.None?
      && j.queuePosition == |q.fifo| + 1
      && j.callbackUrl == callbackUrl && j.voucherId == voucherId
      && !j.callbackSent && j.callbackError.None? && j.workerId.None?
  {
    var j := NewJob(id, tipo, params, callbackUrl, voucherId, now, |q.fifo| + 1);
    StoreLands(q.jobs, j);
    StartWorkers(q.(jobs := Store(q.jobs, j), fifo := q.fifo + [EntryOf(j)]))
  }

  /** `self.jobs[job_id] = job` on the ordered store. */
  function Store(jobs: seq<Job>, j: Job): seq<Job>
  {
    match IndexOf(jobs, j.jobId)
    case None => jobs + [j]
    case Some(k) => jobs[k := j]
  }

  /** The stored record is found under its id. */
  lemma StoreLands(jobs: seq<Job>, j: Job)
    ensures IndexOf(Store(jobs, j), j.jobId).Some?
    ensures Store(jobs, j)[IndexOf(Store(jobs, j), j.jobId).value] == j
    ensures IndexOf(jobs, j.jobId).None? ==> Store(jobs, j) == jobs + [j]
    ensures IndexOf(jobs, j.jobId).Some? ==> |Store(jobs, j)| == |jobs|
  {
    match IndexOf(jobs, j.jobId)
    case None => IndexOfAppend(jobs, j);
    case Some(k) => IndexOfWrite(jobs, k, j);
  }

  /** Enqueueing a fresh id keeps the invariant; afterwards exactly
      `max_workers` workers exist, however many jobs were added before. */
  lemma AddJobKeepsValid(q: JobQueue, id: string, tipo: string, params: Params,
                         callbackUrl: Option<string>, voucherId: Option<string>, now: nat)
    requires Valid(q) && Fresh(q, id)
    ensures var r := AddJob(q, id, tipo, params, callbackUrl, voucherId, now);
      Valid(r) && r.workers == Range(q.maxWorkers) && StatusesAdvance(q, r)
  {
    var r := AddJob(q, id, tipo, params, callbackUrl, voucherId, now);
    var j := NewJob(id, tipo, params, callbackUrl, voucherId, now, |q.fifo| + 1);
    assert r.jobs == q.jobs + [j];
    AppendKeepsValid(q, j, r);
  }

  /** Appending a pending record with a fresh id, together with its entry,
      and starting the workers keeps the invariant. */
  lemma AppendKeepsValid(q: JobQueue, j: Job, r: JobQueue)
    requires Valid(q) && Fresh(q, j.jobId) && WellFormed(j, q.maxWorkers) && IsPending(j)
    requires r == StartWorkers(q.(jobs := q.jobs + [j], fifo := q.fifo + [EntryOf(j)]))
    ensures Valid(r) && r.workers == Range(q.maxWorkers) && StatusesAdvance(q, r)
  {
    PendingEntriesAppend(q.jobs, j);
    AppendKeepsUnique(q.jobs, j, r.jobs);
    AppendKeepsWellFormed(q.jobs, j, q.maxWorkers, r.jobs);
    AppendKeepsDistinct(q.jobs, j, r.jobs);
    AppendAdvances(q, j, r);
  }

  lemma AppendKeepsUnique(jobs: seq<Job>, j: Job, r: seq<Job>)
    requires UniqueIds(jobs) && (forall k :: 0 <= k < |jobs| ==> jobs[k].jobId != j.jobId)
    requires r == jobs + [j]
    ensures UniqueIds(r)
  {
    forall a, b | 0 <= a < b < |r|
      ensures r[a].jobId != r[b].jobId
    {
      assert r[a] == jobs[a];
    }
  }

  lemma AppendKeepsWellFormed(jobs: seq<Job>, j: Job, maxWorkers: nat, r: seq<Job>)
    requires (forall k :: 0 <= k < |jobs| ==> WellFormed(jobs[k], maxWorkers)) && WellFormed(j, maxWorkers)
    requires r == jobs + [j]
    ensures forall k :: 0 <= k < |r| ==> WellFormed(r[k], maxWorkers)
  {
    forall k | 0 <= k < |r|
      ensures WellFormed(r[k], maxWorkers)
    {
      assert k < |jobs| ==> r[k] == jobs[k];
    }
  }

  lemma AppendKeepsDistinct(jobs: seq<Job>, j: Job, r: seq<Job>)
    requires DistinctWorkers(jobs) && IsPending(j)
    requires r == jobs + [j]
    ensures DistinctWorkers(r)
  {
    forall a, b | 0 <= a < b < |r| && r[a].status == Processing && r[b].status == Processing
      ensures r[a].workerId != r[b].workerId
    {
      assert r[a] == jobs[a];
      assert b < |jobs| ==> r[b] == jobs[b];
    }
  }

  lemma AppendAdvances(q: JobQueue, j: Job, r: JobQueue)
    requires UniqueIds(q.jobs) && Fresh(q, j.jobId) && r.jobs == q.jobs + [j]
    ensures StatusesAdvance(q, r)
  {
    forall a, b | 0 <= a < |q.jobs| && 0 <= b < |r.jobs| && q.jobs[a].jobId == r.jobs[b].jobId
      ensures Advances(q.jobs[a].status, r.jobs[b].status)
    {
      assert r.jobs[b] == if b < |q.jobs| then q.jobs[b] else j;
    }
  }

  // ---------------------------------------------------------------------
  // One worker iteration: take, run, finish
  // ---------------------------------------------------------------------

  /** What `await self.queue.get()` and the status update after it do. */
  datatype Take =
    | Blocked                                        // the FIFO is empty: the worker waits
    | Dropped(queue: JobQueue, entry: Entry)         // the record is gone: KeyError, handled by the outer `except`
    | Taken(queue: JobQueue, entry: Entry, index: nat)

  /** Worker `w` takes the FIFO head at time `now` and marks its record
      `processing`. */
  function Claim(q: JobQueue, w: nat, now: nat): (r: Take)
    ensures r.Blocked? <==> |q.fifo| == 0
    ensures !r.Blocked? ==> r.entry == q.fifo[0] && r.queue.fifo == q.fifo[1..]
    ensures !r.Blocked? ==> r.queue.maxWorkers == q.maxWorkers && r.queue.workersStarted == q.workersStarted && r.queue.workers == q.workers
    ensures r.Dropped? <==> |q.fifo| > 0 && IndexOf(q.jobs, q.fifo[0].jobId).None?
    ensures r.Dropped? ==> r.queue.jobs == q.jobs
    ensures r.Taken? ==> Some(r.index) == IndexOf(q.jobs, r.entry.jobId)
    ensures r.Taken? ==> |r.queue.jobs| == |q.jobs|
    ensures r.Taken? ==> forall k :: 0 <= k < |q.jobs| && k != r.index ==> r.queue.jobs[k] == q.jobs[k]
    ensures r.Taken? ==>
      r.queue.jobs[r.index] == q.jobs[r.index].(status := Processing, startedAt := Some(now), workerId := Some(w))
  {
    if |q.fifo| == 0 then Blocked
    else
      var e := q.fifo[0];
      match IndexOf(q.jobs, e.jobId)
      case None => Dropped(q.(fifo := q.fifo[1..]), e)
      case Some(k) =>
        var j := q.jobs[k].(status := Processing, startedAt := Some(now), workerId := Some(w));
        Taken(q.(jobs := q.jobs[k := j], fifo := q.fifo[1..]), e, k)
  }

  /** On a valid queue an idle worker always finds the record of the FIFO
      head, which is the earliest-added pending job; the invariant holds
      afterwards. */
  lemma ClaimKeepsValid(q: JobQueue, w: nat, now: nat)
    requires Valid(q) && w < q.maxWorkers && Idle(q, w) && |q.fifo| > 0
    ensures Claim(q, w, now).Taken?
    ensures var t := Claim(q, w, now);
      && IsPending(q.jobs[t.index])
      && (forall m :: 0 <= m < t.index ==> !IsPending(q.jobs[m]))
      && Valid(t.queue) && StatusesAdvance(q, t.queue)
  {
    var k := FirstPending(q.jobs);
    IndexOfUnique(q.jobs, k);
    var t := Claim(q, w, now);
    var j := q.jobs[k].(status := Processing, startedAt := Some(now), workerId := Some(w));
    PendingEntriesTakeHead(q.jobs, k, j);
    assert t.queue == q.(jobs := q.jobs[k := j], fifo := PendingEntries(q.jobs[k := j]));
    UpdateKeepsValid(q, t.queue, k, j);
  }

  /** The record update after the batch work: `completed` with its
      `resultado`, or `failed` with the exception's text, stamped at `now`.
      A record that has vanished is left alone (the KeyError it raises ends
      in the outer handler). */
  function Finish(q: JobQueue, id: string, outcome: Result<Resultado>, now: nat): (r: JobQueue)
    ensures r.fifo == q.fifo && r.maxWorkers == q.maxWorkers && r.workersStarted == q.workersStarted && r.workers == q.workers
    ensures |r.jobs| == |q.jobs|
    ensures IndexOf(q.jobs, id).None? ==> r.jobs == q.jobs
    ensures IndexOf(q.jobs, id).Some? ==> var k := IndexOf(q.jobs, id).value;
      && (forall m :: 0 <= m < |q.jobs| && m != k ==> r.jobs[m] == q.jobs[m])
      && r.jobs[k].completedAt == Some(now)
      && (r.jobs[k].status == Completed <==> outcome.Ok?)
      && (outcome.Ok? ==> r.jobs[k] == q.jobs[k].(status := Completed, resultado := Some(outcome.value), completedAt := Some(now)))
      && (outcome.Err? ==> r.jobs[k] == q.jobs[k].(status := Failed, error := Some(outcome.message), completedAt := Some(now)))
  {
    match IndexOf(q.jobs, id)
    case None => q
    case Some(k) => q.(jobs := q.jobs[k := Finished(q.jobs[k], outcome, now)])
  }

  /** The record `Finish` writes for `j`. */
  function Finished(j: Job, outcome: Result<Resultado>, now: nat): Job
  {
    match outcome
    case Ok(v) => j.(status := Completed, resultado := Some(v), completedAt := Some(now))
    case Err(e) => j.(status := Failed, error := Some(e), completedAt := Some(now))
  }

  /** Finishing a job that is being processed keeps the invariant and frees
      its worker; a failed job keeps `resultado = None`. */
  lemma FinishKeepsValid(q: JobQueue, k: nat, outcome: Result<Resultado>, now: nat)
    requires Valid(q) && k < |q.jobs| && q.jobs[k].status == Processing
    ensures var r := Finish(q, q.jobs[k].jobId, outcome, now);
      && Valid(r) && StatusesAdvance(q, r)
      && (r.jobs[k].status == Completed || r.jobs[k].status == Failed)
      && (r.jobs[k].status == Failed ==> r.jobs[k].resultado.None?)
      && (forall w :: 0 <= w < q.maxWorkers && (Idle(q, w) || q.jobs[k].workerId == Some(w)) ==> Idle(r, w))
  {
    IndexOfUnique(q.jobs, k);
    var r := Finish(q, q.jobs[k].jobId, outcome, now);
    var j := r.jobs[k];
    PendingEntriesUpdate(q.jobs, k, j);
    assert r == q.(jobs := q.jobs[k := j], fifo := PendingEntries(q.jobs[k := j]));
    UpdateKeepsValid(q, r, k, j);
  }

  /** The job kinds a worker can run. */
  datatype Tipo = Propiedad | Servicios | Todas

  /** The `tipo` string naming each kind. */
  function TipoName(t: Tipo): string
  {
    match t
    case Propiedad => "propiedad"
    case Servicios => "servicios"
    case Todas => "todas"
  }

  /** The worker's `if tipo == ... elif ...` chain: the kind a `tipo`
      string names, if any. */
  function ParseTipo(tipo: string): (r: Option<Tipo>)
    ensures r.Some? ==> TipoName(r.value) == tipo
    ensures r.None? ==> forall t: Tipo :: TipoName(t) != tipo
  {
    if tipo == "propiedad" then Some(Propiedad)
    else if tipo == "servicios" then Some(Servicios)
    else if tipo == "todas" then Some(Todas)
    else None
  }

  const UnsupportedPrefix: string := "Tipo de trabajo no soportado: "

  /** What the strategy of kind `t` answers and which collaborator calls it
      makes, in terms of the batch processor's own descriptions: the fetch,
      then on success the paced run (`propiedad`, `todas`) or the fan-out
      (`servicios`); a failed fetch ends the strategy with its error. */
  function Strategy(b: Backend, t: Tipo, params: Params): (r: (Result<Resultado>, seq<Call>))
    ensures |r.1| >= 1 && KindOf(r.1[0]) == Fetch
    ensures r.0.Err? ==> r.1 == [r.1[0]]
  {
    match t
    case Propiedad =>
      var fetch := FetchServiciosPropiedad(params.propiedadId);
      (match b.serviciosPropiedad(params.propiedadId)
       case Err(e) => (Err(e), [fetch])
       case Ok(ss) => (Ok(Outcomes(OutcomesOf(b, ss))), [fetch] + PacedCalls(b, ss)))
    case Servicios =>
      var fetch := FetchServiciosPorIds(params.servicioIds);
      (match b.serviciosPorIds(params.servicioIds)
       case Err(e) => (Err(e), [fetch])
       case Ok(ss) => (Ok(Outcomes(OutcomesOf(b, ss))), [fetch] + FanOutCalls(b, ss)))
    case Todas =>
      match b.serviciosActivos
      case Err(e) => (Err(e), [FetchServiciosActivos])
      case Ok(ss) =>
        var os := OutcomesOf(b, ss);
        (Ok(Totals(Summary(|ss|, CountExitosos(os), CountFallidos(os), os))), [FetchServiciosActivos] + PacedCalls(b, ss))
  }

  /** The trace of a worker's batch work opens the shared runner first and
      ends by closing it exactly when the work succeeded. */
  predicate ClosesOnSuccess(r: Result<Resultado>, calls: seq<Call>)
  {
    |calls| >= 1 && calls[0] == OpenRunner(Shared) && (r.Ok? <==> calls[|calls| - 1] == CloseRunner(Shared))
  }

  /** What the `try` body of a worker gives for `tipo` and `params`: the
      trace opens the shared runner and closes it exactly on success; a
      `tipo` no branch names fails with the "not supported" text before
      any collaborator is called; any other `tipo` answers what its
      strategy answers, with the strategy's calls between open and close. */
  predicate Dispatched(b: Backend, tipo: string, params: Params, r: Result<Resultado>, calls: seq<Call>)
  {
    && ClosesOnSuccess(r, calls)
    && (ParseTipo(tipo).None? ==> r == Err(UnsupportedPrefix + tipo) && calls == [OpenRunner(Shared)])
    && (ParseTipo(tipo).Some? ==> var (sr, work) := Strategy(b, ParseTipo(tipo).value, params);
          r == sr && calls == [OpenRunner(Shared)] + work + (if sr.Ok? then [CloseRunner(Shared)] else []))
  }

  /** The `try` body of a worker: a fresh `BatchProcessor` (whose runner is
      `Shared`) runs the strategy `tipo` selects, and is closed only when the
      strategy returns; an exception skips the close, and a `tipo` no branch
      names raises before any collaborator is called. */
  method Dispatch(b: Backend, tipo: string, params: Params) returns (r: Result<Resultado>, calls: seq<Call>)
    ensures Dispatched(b, tipo, params, r, calls)
  {
    var work: seq<Call>;
    match ParseTipo(tipo) {
      case Some(t) =>
        r, work := Run(b, t, params);
      case None =>
        r, work := Err(UnsupportedPrefix + tipo), [];
    }
    calls := [OpenRunner(Shared)] + work + (if r.Ok? then [CloseRunner(Shared)] else []);
  }

  /** Runs the strategy of kind `t` through the batch processor. */
  method Run(b: Backend, t: Tipo, params: Params) returns (r: Result<Resultado>, work: seq<Call>)
    ensures (r, work) == Strategy(b, t, params)
  {
    match t {
      case Propiedad =>
        r, work := RunPropiedad(b, params);
      case Servicios =>
        r, work := RunServicios(b, params);
      case Todas =>
        r, work := RunTodas(b);
    }
  }

  /** `tipo == "propiedad"`: the paced run over one property's services. */
  method RunPropiedad(b: Backend, params: Params) returns (r: Result<Resultado>, work: seq<Call>)
    ensures (r, work) == Strategy(b, Propiedad, params)
  {
    var res;
    res, work := ProcesarPropiedad(b, params.propiedadId);
    r := match res case Ok(items) => Ok(Outcomes(items)) case Err(e) => Err(e);
  }

  /** `tipo == "servicios"`: the fan-out run over the listed services. */
  method RunServicios(b: Backend, params: Params) returns (r: Result<Resultado>, work: seq<Call>)
    ensures (r, work) == Strategy(b, Servicios, params)
  {
    var res := ProcesarServiciosEspecificos(b, params.servicioIds);
    work := res.1;
    r := match res.0 case Ok(items) => Ok(Outcomes(items)) case Err(e) => Err(e);
  }

  /** `tipo == "todas"`: the paced run over every active service, summarised. */
  method RunTodas(b: Backend) returns (r: Result<Resultado>, work: seq<Call>)
    ensures forall params :: (r, work) == Strategy(b, Todas, params)
  {
    var res;
    res, work := ProcesarTodasPropiedades(b);
    r := match res case Ok(summary) => Ok(Totals(summary)) case Err(e) => Err(e);
  }

  // ---------------------------------------------------------------------
  // _send_callback
  // ---------------------------------------------------------------------

  /** The answer to one POST: delivered, or the exception it raised
      (a transport error or `raise_for_status`). */
  datatype PostResult = Delivered | PostFailed(reason: string)

  /** How `_send_callback` ends: it returns a boolean, or raises. */
  datatype CallbackOutcome = Returned(sent: bool) | Raised(reason: string)

  /** `_send_callback`'s default `max_retries`. */
  const CallbackRetries: int := 3

  /** `len(None)` fails with this text. */
  const NoLenMessage: string := "object of type 'NoneType' has no len()"

  function Pow2(n: nat): (r: nat)
    ensures r >= 1
  {
    if n == 0 then 1 else 2 * Pow2(n - 1)
  }

  function FailureMessage(retries: nat, reason: string): (m: string)
    ensures |m| > 0
  {
    "Falló después de " + NatToString(retries) + " intentos: " + reason
  }

  /** The number of attempts `range(max_retries)` allows. */
  function AttemptLimit(maxRetries: int): nat
  {
    if maxRetries > 0 then maxRetries else 0
  }

  /** `_send_callback(job_id, max_retries)`, with `post(i)` the result of
      attempt `i`. It returns False without posting for an unknown job or a
      falsy `callback_url`; it raises before posting when `resultado` is
      None (`len(None)` while logging the payload size); otherwise it posts
      until the first delivery, at most `max_retries` times, sleeping
      `2^i` seconds after a failed attempt `i` unless it was the last. */
  method SendCallback(q: JobQueue, id: string, maxRetries: int, post: nat -> PostResult)
    returns (r: JobQueue, outcome: CallbackOutcome, attempts: nat, waits: seq<nat>)
    ensures r == q.(jobs := r.jobs) && |r.jobs| == |q.jobs|
    ensures IndexOf(q.jobs, id).None? || !HasCallback(q.jobs[IndexOf(q.jobs, id).value]) ==>
      r == q && outcome == Returned(false) && attempts == 0 && waits == []
    ensures IndexOf(q.jobs, id).Some? && HasCallback(q.jobs[IndexOf(q.jobs, id).value]) ==>
      var k := IndexOf(q.jobs, id).value;
      && (q.jobs[k].resultado.None? ==> r == q && outcome == Raised(NoLenMessage) && attempts == 0 && waits == [])
      && (q.jobs[k].resultado.Some? ==>
            && outcome.Returned?
            && attempts <= AttemptLimit(maxRetries)
            && (forall i :: 0 <= i < attempts - 1 ==> post(i).PostFailed?)
            && (outcome.sent <==> attempts > 0 && post(attempts - 1).Delivered?)
            && (!outcome.sent ==> attempts == AttemptLimit(maxRetries))
            && |waits| == (if attempts > 0 then attempts - 1 else 0)
            && (forall i :: 0 <= i < |waits| ==> waits[i] == Pow2(i))
            && (forall m :: 0 <= m < |q.jobs| && m != k ==> r.jobs[m] == q.jobs[m])
            && (outcome.sent ==> r.jobs[k] == q.jobs[k].(callbackSent := true, callbackError := None))
            && (!outcome.sent && attempts > 0 ==>
                  r.jobs[k] == q.jobs[k].(callbackSent := false,
                                          callbackError := Some(FailureMessage(attempts, post(attempts - 1).reason))))
            && (attempts == 0 ==> r == q))
  {
    r := q;
    outcome := Returned(false);
    attempts := 0;
    waits := [];
    var found := IndexOf(q.jobs, id);
    if found.None? || !HasCallback(q.jobs[found.value]) {
      return;
    }
    var k := found.value;
    if q.jobs[k].resultado.None? {
      outcome := Raised(NoLenMessage);
      return;
    }
    var delivered := false;
    while attempts < maxRetries && !delivered
      invariant attempts <= AttemptLimit(maxRetries)
      invariant forall i :: 0 <= i < attempts - 1 ==> post(i).PostFailed?
      invariant attempts > 0 && !delivered ==> post(attempts - 1).PostFailed?
      invariant delivered <==> attempts > 0 && post(attempts - 1).Delivered?
      invariant outcome == Returned(delivered)
      invariant |waits| == if attempts == 0 then 0 else if delivered || attempts >= maxRetries then attempts - 1 else attempts
      invariant forall i :: 0 <= i < |waits| ==> waits[i] == Pow2(i)
      invariant attempts == 0 ==> r == q
      invariant delivered ==> r == q.(jobs := q.jobs[k := q.jobs[k].(callbackSent := true, callbackError := None)])
      invariant !delivered && 0 < attempts < maxRetries ==> r == q
      invariant !delivered && attempts > 0 && attempts == maxRetries ==>
        r == q.(jobs := q.jobs[k := q.jobs[k].(callbackSent := false,
                                                callbackError := Some(FailureMessage(attempts, post(attempts - 1).reason)))])
      decreases AttemptLimit(maxRetries) - attempts, !delivered
    {
      var answer := post(attempts);
      attempts := attempts + 1;
      if answer.Delivered? {
        r := q.(jobs := q.jobs[k := q.jobs[k].(callbackSent := true, callbackError := None)]);
        delivered := true;
        outcome := Returned(true);
      } else if attempts < maxRetries {
        waits := waits + [Pow2(attempts - 1)];
      } else {
        r := q.(jobs := q.jobs[k := q.jobs[k].(callbackSent := false,
                                                callbackError := Some(FailureMessage(attempts, answer.reason)))]);
      }
    }
  }

  // ---------------------------------------------------------------------
  // One iteration of `_worker`
  // ---------------------------------------------------------------------

  /** What one pass of the worker's `while True` body did. `claimed` is the
      entry taken from the FIFO; `result` is what the batch work gave, when a
      record was found for it; `callback` is how `_send_callback` ended, when
      it was called; `handlerPause` is the second the outer `except` sleeps. */
  datatype Iteration = Iteration(
    queue: JobQueue,
    claimed: Option<Entry>,
    result: Option<Result<Resultado>>,
    calls: seq<Call>,
    callback: Option<CallbackOutcome>,
    attempts: nat,
    waits: seq<nat>,
    handlerPause: nat)

  /** How the callback step that follows the record update ended, for the
      record `f` as the update left it and `after` as the step left it:
      without a callback URL nothing happens; with one and no `resultado`,
      `_send_callback` raises on `len(None)` before posting and the outer
      handler pauses a second; otherwise it posts until the first delivery,
      at most `CallbackRetries` times, with the `2^i` waits in between.
      Only the two callback fields of the record can change. */
  predicate Notified(f: Job, after: Job, post: nat -> PostResult, callback: Option<CallbackOutcome>,
                     attempts: nat, waits: seq<nat>, pause: nat)
  {
    && after == f.(callbackSent := after.callbackSent, callbackError := after.callbackError)
    && (!HasCallback(f) ==> callback.None? && attempts == 0 && waits == [] && pause == 0 && after == f)
    && (HasCallback(f) && f.resultado.None? ==>
          callback == Some(Raised(NoLenMessage)) && attempts == 0 && waits == [] && pause == 1 && after == f)
    && (HasCallback(f) && f.resultado.Some? ==>
          && callback.Some? && callback.value.Returned? && pause == 0
          && attempts <= AttemptLimit(CallbackRetries)
          && (forall i :: 0 <= i < attempts - 1 ==> post(i).PostFailed?)
          && (callback.value.sent <==> attempts > 0 && post(attempts - 1).Delivered?)
          && (callback.value.sent ==> after == f.(callbackSent := true, callbackError := None))
          && (!callback.value.sent ==>
                && attempts == AttemptLimit(CallbackRetries)
                && after == f.(callbackSent := false, callbackError := Some(FailureMessage(attempts, post(attempts - 1).reason))))
          && |waits| == attempts - 1
          && (forall i :: 0 <= i < |waits| ==> waits[i] == Pow2(i)))
  }

  /** The callback step stops at the first delivery: when attempt `i` is the
      first POST that goes through, exactly `i + 1` POSTs are made, with `i`
      waits, and the record ends with its callback marked sent. */
  lemma NotifiedFirstDelivery(f: Job, after: Job, post: nat -> PostResult, callback: Option<CallbackOutcome>,
                              attempts: nat, waits: seq<nat>, pause: nat, i: nat)
    requires Notified(f, after, post, callback, attempts, waits, pause)
    requires HasCallback(f) && f.resultado.Some?
    requires i < AttemptLimit(CallbackRetries) && post(i).Delivered?
    requires forall m :: 0 <= m < i ==> post(m).PostFailed?
    ensures attempts == i + 1 && |waits| == i && callback == Some(Returned(true))
    ensures after == f.(callbackSent := true, callbackError := None)
  {
  }

  /** The callback step for the record at `k`: `_send_callback` with its
      default retries when the record has a callback URL, and the outer
      handler's pause when that raises. Only the record at `k` changes. */
  method Notify(q: JobQueue, k: nat, id: string, post: nat -> PostResult)
    returns (next: JobQueue, callback: Option<CallbackOutcome>, attempts: nat, waits: seq<nat>, pause: nat)
    requires k < |q.jobs| && IndexOf(q.jobs, id) == Some(k)
    ensures Settled(q, k, next)
    ensures Notified(q.jobs[k], next.jobs[k], post, callback, attempts, waits, pause)
  {
    next, callback, attempts, waits, pause := q, None, 0, [], 0;
    if HasCallback(q.jobs[k]) {
      var outcome;
      next, outcome, attempts, waits := SendCallback(q, id, CallbackRetries, post);
      callback := Some(outcome);
      pause := if outcome.Raised? then 1 else 0;
    }
  }

  /** What the worker does with the batch work's result `r` for the record
      at `k`: the record update of `Finish` at `finished`, then the callback
      step on the updated record. Only the record at `k` changes. */
  method Record(q: JobQueue, k: nat, id: string, r: Result<Resultado>, post: nat -> PostResult, finished: nat)
    returns (next: JobQueue, callback: Option<CallbackOutcome>, attempts: nat, waits: seq<nat>, pause: nat)
    requires k < |q.jobs| && IndexOf(q.jobs, id) == Some(k)
    ensures Settled(q, k, next)
    ensures Notified(Finished(q.jobs[k], r, finished), next.jobs[k], post, callback, attempts, waits, pause)
  {
    var f := Finish(q, id, r, finished);
    assert f.jobs == q.jobs[k := Finished(q.jobs[k], r, finished)];
    IndexOfWrite(q.jobs, k, f.jobs[k]);
    next, callback, attempts, waits, pause := Notify(f, k, id, post);
  }

  /** The batch work for a FIFO entry, as `Dispatch` describes it. */
  method RunEntry(b: Backend, e: Entry) returns (r: Result<Resultado>, calls: seq<Call>)
    ensures Dispatched(b, e.tipo, e.params, r, calls)
  {
    r, calls := Dispatch(b, e.tipo, e.params);
  }

  /** Only record `k` differs between the two queues. */
  predicate Settled(before: JobQueue, k: nat, after: JobQueue)
  {
    && k < |before.jobs| && |after.jobs| == |before.jobs|
    && after.fifo == before.fifo && after.maxWorkers == before.maxWorkers
    && after.workersStarted == before.workersStarted && after.workers == before.workers
    && forall m :: 0 <= m < |before.jobs| && m != k ==> after.jobs[m] == before.jobs[m]
  }

  /** The record after the worker recorded result `r` at `finished`: the
      record `Finish` writes, with at most its two callback fields changed
      by the callback step, and not even those when there was no
      `resultado` to send. */
  predicate Concluded(before: Job, after: Job, r: Result<Resultado>, finished: nat)
  {
    && after == Finished(before, r, finished).(callbackSent := after.callbackSent, callbackError := after.callbackError)
    && (after.resultado.None? ==> after.callbackSent == before.callbackSent && after.callbackError == before.callbackError)
  }

  /** What a worker's pass did once it took the FIFO head `e` of `q`, whose
      record is stored at `k`: the entry left the FIFO; the batch work ran
      as `Dispatch` describes for the entry's `tipo` and parameters; the
      record, marked `processing` by `w` at `started`, was updated by
      `Finish` at `finished` and then went through the callback step as
      `Notified` describes; no other record and none of the queue's other
      fields changed. */
  predicate Ran(q: JobQueue, w: nat, b: Backend, post: nat -> PostResult, started: nat, finished: nat, it: Iteration)
  {
    && |q.fifo| > 0 && IndexOf(q.jobs, q.fifo[0].jobId).Some?
    && var e := q.fifo[0];
       var k := IndexOf(q.jobs, e.jobId).value;
       var claimed := q.jobs[k].(status := Processing, startedAt := Some(started), workerId := Some(w));
       && it.claimed == Some(e) && it.result.Some?
       && Dispatched(b, e.tipo, e.params, it.result.value, it.calls)
       && Settled(q.(fifo := q.fifo[1..]), k, it.queue)
       && Notified(Finished(claimed, it.result.value, finished), it.queue.jobs[k],
                   post, it.callback, it.attempts, it.waits, it.handlerPause)
  }

  /** The record a pass leaves for the job it took: marked by `w` at
      `started` and finished at `finished`, with its id, kind, parameters,
      creation time, position and voucher kept; `completed` with the
      strategy's result when the `tipo` is known and its strategy returned,
      `failed` with the strategy's error or the "not supported" text
      otherwise. */
  lemma RanRecords(q: JobQueue, w: nat, b: Backend, post: nat -> PostResult, started: nat, finished: nat,
                   it: Iteration)
    requires Ran(q, w, b, post, started, finished, it)
    ensures var e := q.fifo[0];
      var k := IndexOf(q.jobs, e.jobId).value;
      var before, j := q.jobs[k], it.queue.jobs[k];
      && j.jobId == e.jobId && j.tipo == before.tipo && j.params == before.params
      && j.createdAt == before.createdAt && j.queuePosition == before.queuePosition
      && j.voucherId == before.voucherId && j.callbackUrl == before.callbackUrl
      && j.startedAt == Some(started) && j.workerId == Some(w) && j.completedAt == Some(finished)
      && (j.status == Completed || j.status == Failed)
      && (ParseTipo(e.tipo).None? ==> j.status == Failed && j.error == Some(UnsupportedPrefix + e.tipo))
      && (ParseTipo(e.tipo).Some? ==>
            var sr := Strategy(b, ParseTipo(e.tipo).value, e.params).0;
            && (sr.Ok? ==> j.status == Completed && j.resultado == Some(sr.value))
            && (sr.Err? ==> j.status == Failed && j.error == Some(sr.message)))
  {
  }

  /** One pass of `_worker(w)`, with `started` and `finished` the clock
      readings of the two timestamps. An empty FIFO blocks (nothing
      happens); an entry whose record is gone raises a KeyError that the
      outer `except` absorbs with a one-second pause; otherwise the record
      is claimed and processed as `Ran` describes. On a valid queue with
      `w` idle the entry always has its record, so the second case never
      happens there. */
  method WorkerStep(q: JobQueue, w: nat, b: Backend, post: nat -> PostResult, started: nat, finished: nat)
    returns (it: Iteration)
    ensures it.claimed.None? <==> |q.fifo| == 0
    ensures it.claimed.None? ==> it.queue == q && it.result.None? && it.calls == [] && it.handlerPause == 0
    ensures it.claimed.Some? ==> it.claimed.value == q.fifo[0] && it.queue.fifo == q.fifo[1..]
    ensures it.claimed.Some? && IndexOf(q.jobs, q.fifo[0].jobId).None? ==>
      it.queue == q.(fifo := q.fifo[1..]) && it.result.None? && it.calls == [] && it.handlerPause == 1
    ensures it.claimed.Some? && IndexOf(q.jobs, q.fifo[0].jobId).Some? ==> Ran(q, w, b, post, started, finished, it)
    ensures Valid(q) && w < q.maxWorkers && Idle(q, w) ==>
      && Valid(it.queue) && StatusesAdvance(q, it.queue) && Idle(it.queue, w)
      && (it.claimed.Some? ==> Ran(q, w, b, post, started, finished, it))
  {
    if |q.fifo| == 0 {
      it := Iteration(q, None, None, [], None, 0, [], 0);
    } else if IndexOf(q.jobs, q.fifo[0].jobId).None? {
      if Valid(q) && w < q.maxWorkers && Idle(q, w) {
        ClaimKeepsValid(q, w, started);
      }
      it := Iteration(q.(fifo := q.fifo[1..]), Some(q.fifo[0]), None, [], None, 0, [], 1);
    } else {
      it := RunTaken(q, w, b, post, started, finished);
    }
  }

  /** Worker `w` takes the FIFO head, whose record is stored at `k`, and
      processes it as `Ran` describes. On a valid queue with `w` idle, the
      job taken is the earliest-added pending one, the invariant is kept and
      `w` is idle again; a job that failed with a callback URL set gets no
      notification at all, because `_send_callback` raises on its empty
      `resultado` before posting. */
  method RunTaken(q: JobQueue, w: nat, b: Backend, post: nat -> PostResult, started: nat, finished: nat)
    returns (it: Iteration)
    requires |q.fifo| > 0 && IndexOf(q.jobs, q.fifo[0].jobId).Some?
    ensures Ran(q, w, b, post, started, finished, it)
    ensures Valid(q) && w < q.maxWorkers && Idle(q, w) ==>
      && Valid(it.queue) && StatusesAdvance(q, it.queue) && Idle(it.queue, w)
    ensures Valid(q) && w < q.maxWorkers && Idle(q, w) ==>
      var k := IndexOf(q.jobs, q.fifo[0].jobId).value;
      && IsPending(q.jobs[k]) && (forall m :: 0 <= m < k ==> !IsPending(q.jobs[m]))
      && (it.queue.jobs[k].status == Failed && HasCallback(it.queue.jobs[k]) ==>
            && it.callback.Some? && it.callback.value.Raised? && it.attempts == 0 && it.handlerPause == 1
            && !it.queue.jobs[k].callbackSent && it.queue.jobs[k].callbackError.None?)
  {
    it := TakeAndRun(q, w, b, post, started, finished);
    if Valid(q) && w < q.maxWorkers && Idle(q, w) {
      RanKeepsValid(q, w, b, post, started, finished, it);
    }
  }

  /** Claims the FIFO head, runs its batch work and records the result. */
  method TakeAndRun(q: JobQueue, w: nat, b: Backend, post: nat -> PostResult, started: nat, finished: nat)
    returns (it: Iteration)
    requires |q.fifo| > 0 && IndexOf(q.jobs, q.fifo[0].jobId).Some?
    ensures Ran(q, w, b, post, started, finished, it)
  {
    var t := Claim(q, w, started);
    var next, e, k := t.queue, t.entry, t.index;
    IndexOfWrite(q.jobs, k, next.jobs[k]);
    var r, calls := RunEntry(b, e);
    var recorded, callback, attempts, waits, pause := Record(next, k, e.jobId, r, post, finished);
    it := Iteration(recorded, Some(e), Some(r), calls, callback, attempts, waits, pause);
  }

  /** A pass that ran the FIFO head of a valid queue with `w` idle took the
      earliest-added pending job, keeps the invariant and leaves `w` idle;
      a failed job with a callback URL is never notified. */
  lemma RanKeepsValid(q: JobQueue, w: nat, b: Backend, post: nat -> PostResult, started: nat, finished: nat,
                      it: Iteration)
    requires Valid(q) && w < q.maxWorkers && Idle(q, w)
    requires Ran(q, w, b, post, started, finished, it)
    ensures Valid(it.queue) && StatusesAdvance(q, it.queue) && Idle(it.queue, w)
    ensures var k := IndexOf(q.jobs, q.fifo[0].jobId).value;
      && IsPending(q.jobs[k]) && (forall m :: 0 <= m < k ==> !IsPending(q.jobs[m]))
      && (it.queue.jobs[k].status == Failed && HasCallback(it.queue.jobs[k]) ==>
            && it.callback.Some? && it.callback.value.Raised? && it.attempts == 0 && it.handlerPause == 1
            && !it.queue.jobs[k].callbackSent && it.queue.jobs[k].callbackError.None?)
  {
    ClaimKeepsValid(q, w, started);
    var t := Claim(q, w, started);
    var k := t.index;
    var claimed := q.jobs[k].(status := Processing, startedAt := Some(started), workerId := Some(w));
    assert t.queue.jobs[k] == claimed;
    assert Concluded(claimed, it.queue.jobs[k], it.result.value, finished);
    WorkerStepKeepsValid(q, w, k, t.queue, it.queue, it.result.value, finished);
  }

  /** The record a worker took from the head of a valid queue, now final,
      leaves a valid queue behind, with the worker idle again. */
  lemma WorkerStepKeepsValid(q: JobQueue, w: nat, k: nat, claimed: JobQueue, r: JobQueue,
                             res: Result<Resultado>, finished: nat)
    requires Valid(q) && w < q.maxWorkers && Idle(q, w) && |q.fifo| > 0
    requires k < |q.jobs| && IsPending(q.jobs[k]) && forall m :: 0 <= m < k ==> !IsPending(q.jobs[m])
    requires claimed.fifo == q.fifo[1..] && claimed.maxWorkers == q.maxWorkers
    requires claimed.workersStarted == q.workersStarted && claimed.workers == q.workers
    requires |claimed.jobs| == |q.jobs| && claimed.jobs[k].startedAt.Some?
    requires claimed.jobs == q.jobs[k := q.jobs[k].(status := Processing, startedAt := claimed.jobs[k].startedAt, workerId := Some(w))]
    requires Settled(claimed, k, r) && Concluded(claimed.jobs[k], r.jobs[k], res, finished)
    ensures Valid(r) && StatusesAdvance(q, r) && Idle(r, w)
  {
    var j := r.jobs[k];
    assert r.jobs == q.jobs[k := j];
    PendingEntriesTakeHead(q.jobs, k, j);
    UpdateKeepsValid(q, r, k, j);
  }
}
