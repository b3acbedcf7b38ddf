/** The job records of `JobQueue` and the invariant every reachable queue
    state keeps.

    The store `self.jobs` is a dict, and Python dicts keep insertion order,
    which the stable sorts of the status queries rely on; it is modelled as a
    sequence of jobs with distinct ids. `self.queue` (the asyncio FIFO) is the
    sequence of entries `(job_id, tipo, params)` not yet taken by a worker.
    Timestamps (`datetime.now().isoformat()`) are whole seconds. */
module Jobs {
  import opened Basics
  import opened BatchProcessor

  datatype Status = Pending | Processing | Completed | Failed

  /** The string stored under `"status"`. */
  function StatusName(s: Status): string
  {
    match s
    case Pending => "pending"
    case Processing => "processing"
    case Completed => "completed"
    case Failed => "failed"
  }

  lemma StatusNameInjective(a: Status, b: Status)
    ensures StatusName(a) == StatusName(b) <==> a == b
  {
  }

  /** The keys of `params` a worker reads. */
  datatype Params = Params(propiedadId: Option<int>, servicioIds: Option<seq<int>>)

  /** What `resultado` holds: the outcome list of `procesar_propiedad` and
      `procesar_servicios_especificos`, or the summary dict of
      `procesar_todas_propiedades`. */
  datatype Resultado = Outcomes(items: seq<ItemOutcome>) | Totals(summary: Summary)

  datatype Job = Job(
    jobId: string,
    tipo: string,
    params: Params,
    status: Status,
    createdAt: nat,
    startedAt: Option<nat>,
    completedAt: Option<nat>,
    resultado: Option<Resultado>,
    error: Option<string>,
    queuePosition: int,
    callbackUrl: Option<string>,
    voucherId: Option<string>,
    callbackSent: bool,
    callbackError: Option<string>,
    workerId: Option<nat>)

  /** An element of the FIFO. */
  datatype Entry = Entry(jobId: string, tipo: string, params: Params)

  datatype JobQueue = JobQueue(
    jobs: seq<Job>,
    fifo: seq<Entry>,
    maxWorkers: nat,
    workersStarted: bool,
    workers: seq<nat>)

  function EntryOf(j: Job): Entry
  {
    Entry(j.jobId, j.tipo, j.params)
  }

  predicate IsPending(j: Job)
  {
    j.status == Pending
  }

  /** A callback URL counts only when it is truthy: present and non-empty. */
  predicate HasCallback(j: Job)
  {
    j.callbackUrl.Some? && j.callbackUrl.value != ""
  }

  // ---------------------------------------------------------------------
  // The store
  // ---------------------------------------------------------------------

  /** Position of the first job with id `id` (`self.jobs.get(id)`). */
  function IndexOf(jobs: seq<Job>, id: string): (r: Option<nat>)
    ensures r.Some? ==> r.value < |jobs| && jobs[r.value].jobId == id
    ensures r.Some? ==> forall k :: 0 <= k < r.value ==> jobs[k].jobId != id
    ensures r.None? <==> forall k :: 0 <= k < |jobs| ==> jobs[k].jobId != id
  {
    if |jobs| == 0 then None
    else if jobs[0].jobId == id then Some(0)
    else match IndexOf(jobs[1..], id)
      case None => None
      case Some(k) => Some(k + 1)
  }

  predicate UniqueIds(jobs: seq<Job>)
  {
    forall a, b :: 0 <= a < b < |jobs| ==> jobs[a].jobId != jobs[b].jobId
  }

  /** With distinct ids, the job carrying an id is found at its position. */
  lemma IndexOfUnique(jobs: seq<Job>, k: nat)
    requires UniqueIds(jobs) && k < |jobs|
    ensures IndexOf(jobs, jobs[k].jobId) == Some(k)
  {
  }

  lemma IndexOfAppend(jobs: seq<Job>, j: Job)
    requires IndexOf(jobs, j.jobId).None?
    ensures IndexOf(jobs + [j], j.jobId) == Some(|jobs|)
  {
    var s := jobs + [j];
    assert s[|jobs|] == j;
    assert forall m :: 0 <= m < |jobs| ==> s[m] == jobs[m];
  }

  lemma IndexOfWrite(jobs: seq<Job>, k: nat, j: Job)
    requires IndexOf(jobs, j.jobId) == Some(k)
    ensures IndexOf(jobs[k := j], j.jobId) == Some(k)
  {
    var s := jobs[k := j];
    assert s[k] == j;
    assert forall m :: 0 <= m < k ==> s[m] == jobs[m];
  }

  predicate Fresh(q: JobQueue, id: string)
  {
    forall k :: 0 <= k < |q.jobs| ==> q.jobs[k].jobId != id
  }

  /** The entries of the pending jobs, in store order. */
  function PendingEntries(jobs: seq<Job>): seq<Entry>
  {
    if |jobs| == 0 then []
    else PendingEntries(jobs[..|jobs| - 1]) + (if IsPending(jobs[|jobs| - 1]) then [EntryOf(jobs[|jobs| - 1])] else [])
  }

  lemma {:induction false} NoPendingNoEntries(jobs: seq<Job>)
    requires forall k :: 0 <= k < |jobs| ==> !IsPending(jobs[k])
    ensures PendingEntries(jobs) == []
  {
    if |jobs| > 0 {
      NoPendingNoEntries(jobs[..|jobs| - 1]);
    }
  }

  lemma PendingEntriesAppend(jobs: seq<Job>, j: Job)
    ensures PendingEntries(jobs + [j]) == PendingEntries(jobs) + (if IsPending(j) then [EntryOf(j)] else [])
  {
    assert (jobs + [j])[..|jobs|] == jobs;
  }

  /** Rewriting a job that stays pending with the same entry, or stays
      non-pending, leaves the pending entries alone. */
  lemma {:induction false} PendingEntriesUpdate(jobs: seq<Job>, k: nat, j: Job)
    requires k < |jobs|
    requires IsPending(j) == IsPending(jobs[k])
    requires IsPending(j) ==> EntryOf(j) == EntryOf(jobs[k])
    ensures PendingEntries(jobs[k := j]) == PendingEntries(jobs)
  {
    var n := |jobs| - 1;
    if k < n {
      assert jobs[k := j][..n] == jobs[..n][k := j];
      PendingEntriesUpdate(jobs[..n], k, j);
    } else {
      assert jobs[k := j][..n] == jobs[..n];
    }
  }

  /** Taking the first pending job out of the pending state drops the head
      entry. */
  lemma {:induction false} PendingEntriesTakeHead(jobs: seq<Job>, k: nat, j: Job)
    requires k < |jobs| && IsPending(jobs[k]) && !IsPending(j)
    requires forall m :: 0 <= m < k ==> !IsPending(jobs[m])
    ensures |PendingEntries(jobs)| > 0
    ensures PendingEntries(jobs[k := j]) == PendingEntries(jobs)[1..]
  {
    var n := |jobs| - 1;
    if k < n {
      assert jobs[k := j][..n] == jobs[..n][k := j];
      PendingEntriesTakeHead(jobs[..n], k, j);
    } else {
      assert jobs[k := j][..n] == jobs[..n];
      NoPendingNoEntries(jobs[..n]);
    }
  }

  /** The head of the pending entries belongs to the first pending job. */
  lemma {:induction false} FirstPending(jobs: seq<Job>) returns (k: nat)
    requires |PendingEntries(jobs)| > 0
    ensures k < |jobs| && IsPending(jobs[k]) && EntryOf(jobs[k]) == PendingEntries(jobs)[0]
    ensures forall m :: 0 <= m < k ==> !IsPending(jobs[m])
  {
    var n := |jobs| - 1;
    if |PendingEntries(jobs[..n])| > 0 {
      k := FirstPending(jobs[..n]);
      assert jobs[..n][k] == jobs[k];
    } else {
      k := n;
      NoEntriesNoPending(jobs[..n]);
    }
  }

  /** Without pending entries there is no pending job. */
  lemma {:induction false} NoEntriesNoPending(jobs: seq<Job>)
    requires |PendingEntries(jobs)| == 0
    ensures forall m :: 0 <= m < |jobs| ==> !IsPending(jobs[m])
  {
    if |jobs| > 0 {
      var n := |jobs| - 1;
      NoEntriesNoPending(jobs[..n]);
      assert forall m :: 0 <= m < n ==> jobs[..n][m] == jobs[m];
    }
  }

  /** Dropping non-pending jobs leaves the pending entries alone. */
  lemma {:induction false} PendingEntriesFilter(jobs: seq<Job>, keep: Job -> bool)
    requires forall k :: 0 <= k < |jobs| && IsPending(jobs[k]) ==> keep(jobs[k])
    ensures PendingEntries(Filter(jobs, keep)) == PendingEntries(jobs)
  {
    if |jobs| > 0 {
      var n := |jobs| - 1;
      var init := jobs[..n];
      assert forall k :: 0 <= k < n ==> init[k] == jobs[k];
      PendingEntriesFilter(init, keep);
      if keep(jobs[n]) {
        assert Filter(jobs, keep) == Filter(init, keep) + [jobs[n]];
        PendingEntriesAppend(Filter(init, keep), jobs[n]);
      } else {
        assert Filter(jobs, keep) == Filter(init, keep);
        assert PendingEntries(jobs) == PendingEntries(init);
      }
    }
  }

  // ---------------------------------------------------------------------
  // The invariant
  // ---------------------------------------------------------------------

  /** The fields each status implies. A failed job keeps `resultado = None`
      and, because of that, never gets its callback sent or an error
      recorded for it. */
  predicate WellFormed(j: Job, maxWorkers: nat)
  {
    match j.status
    case Pending =>
      && j.startedAt.None? && j.completedAt.None? && j.resultado.None? && j.error.None?
      && j.workerId.None? && !j.callbackSent && j.callbackError.None?
    case Processing =>
      && j.startedAt.Some? && j.completedAt.None? && j.resultado.None? && j.error.None?
      && j.workerId.Some? && j.workerId.value < maxWorkers && !j.callbackSent && j.callbackError.None?
    case Completed =>
      && j.startedAt.Some? && j.completedAt.Some? && j.resultado.Some? && j.error.None?
      && j.workerId.Some? && j.workerId.value < maxWorkers
    case Failed =>
      && j.startedAt.Some? && j.completedAt.Some? && j.resultado.None? && j.error.Some?
      && j.workerId.Some? && j.workerId.value < maxWorkers && !j.callbackSent && j.callbackError.None?
  }

  /** No two jobs are in the hands of the same worker. */
  predicate DistinctWorkers(jobs: seq<Job>)
  {
    forall a, b :: 0 <= a < b < |jobs| && jobs[a].status == Processing && jobs[b].status == Processing ==>
      jobs[a].workerId != jobs[b].workerId
  }

  /** Worker `w` is waiting on the FIFO rather than processing a job. */
  predicate Idle(q: JobQueue, w: nat)
  {
    forall k :: 0 <= k < |q.jobs| && q.jobs[k].status == Processing ==> q.jobs[k].workerId != Some(w)
  }

  predicate Valid(q: JobQueue)
  {
    && UniqueIds(q.jobs)
    && q.fifo == PendingEntries(q.jobs)
    && (forall k :: 0 <= k < |q.jobs| ==> WellFormed(q.jobs[k], q.maxWorkers))
    && DistinctWorkers(q.jobs)
    && q.workers == (if q.workersStarted then Range(q.maxWorkers) else [])
    && (|q.jobs| > 0 ==> q.workersStarted)
  }

  // ---------------------------------------------------------------------
  // Rewriting one record in place
  // ---------------------------------------------------------------------

  lemma UpdateKeepsUnique(jobs: seq<Job>, k: nat, j: Job)
    requires UniqueIds(jobs) && k < |jobs| && j.jobId == jobs[k].jobId
    ensures UniqueIds(jobs[k := j])
  {
    var r := jobs[k := j];
    assert forall m :: 0 <= m < |r| ==> r[m].jobId == jobs[m].jobId;
  }

  lemma UpdateKeepsWellFormed(jobs: seq<Job>, k: nat, j: Job, maxWorkers: nat, r: seq<Job>)
    requires k < |jobs| && WellFormed(j, maxWorkers) && r == jobs[k := j]
    requires forall m :: 0 <= m < |jobs| ==> WellFormed(jobs[m], maxWorkers)
    ensures forall m :: 0 <= m < |r| ==> WellFormed(r[m], maxWorkers)
  {
  }

  /** A record that leaves `processing`, or enters it under a worker no other
      record is processing with, keeps the workers distinct. */
  lemma UpdateKeepsDistinct(jobs: seq<Job>, k: nat, j: Job, r: seq<Job>)
    requires DistinctWorkers(jobs) && k < |jobs| && r == jobs[k := j]
    requires j.status == Processing ==>
      forall m :: 0 <= m < |jobs| && m != k && jobs[m].status == Processing ==> jobs[m].workerId != j.workerId
    ensures DistinctWorkers(r)
  {
    forall a, b | 0 <= a < b < |r| && r[a].status == Processing && r[b].status == Processing
      ensures r[a].workerId != r[b].workerId
    {
      if a != k && b != k {
        assert r[a] == jobs[a] && r[b] == jobs[b];
      }
    }
  }

  lemma UpdateAdvances(q: JobQueue, r: JobQueue, k: nat, j: Job)
    requires UniqueIds(q.jobs) && k < |q.jobs| && j.jobId == q.jobs[k].jobId
    requires r.jobs == q.jobs[k := j] && Advances(q.jobs[k].status, j.status)
    ensures StatusesAdvance(q, r)
  {
    forall a, b | 0 <= a < |q.jobs| && 0 <= b < |r.jobs| && q.jobs[a].jobId == r.jobs[b].jobId
      ensures Advances(q.jobs[a].status, r.jobs[b].status)
    {
      assert r.jobs[b].jobId == q.jobs[b].jobId;
    }
  }

  /** Rewriting record `k` under its own id, with a well-formed record that
      moved along the lifecycle and a FIFO that matches, keeps the invariant. */
  lemma UpdateKeepsValid(q: JobQueue, r: JobQueue, k: nat, j: Job)
    requires Valid(q) && k < |q.jobs| && j.jobId == q.jobs[k].jobId && WellFormed(j, q.maxWorkers)
    requires Advances(q.jobs[k].status, j.status)
    requires j.status == Processing ==>
      forall m :: 0 <= m < |q.jobs| && m != k && q.jobs[m].status == Processing ==> q.jobs[m].workerId != j.workerId
    requires r == q.(jobs := q.jobs[k := j], fifo := PendingEntries(q.jobs[k := j]))
    ensures Valid(r) && StatusesAdvance(q, r)
  {
    UpdateKeepsUnique(q.jobs, k, j);
    UpdateKeepsWellFormed(q.jobs, k, j, q.maxWorkers, r.jobs);
    UpdateKeepsDistinct(q.jobs, k, j, r.jobs);
    UpdateAdvances(q, r, k, j);
  }

  /** `JobQueue(max_workers)`: nothing stored, nothing queued, no worker. */
  function Init(maxWorkers: nat): (q: JobQueue)
    ensures Valid(q)
    ensures |q.jobs| == 0 && |q.fifo| == 0 && !q.workersStarted && q.maxWorkers == maxWorkers
  {
    JobQueue([], [], maxWorkers, false, [])
  }

  /** The lifecycle `pending -> processing -> completed | failed`, taken
      any number of steps at a time: a status never goes back, and the two
      final statuses never turn into each other. */
  predicate Advances(before: Status, after: Status)
  {
    || before == after
    || (before == Pending && after != Pending)
    || (before == Processing && (after == Completed || after == Failed))
  }

  /** Every job of `q` still stored in `r` has moved along the lifecycle. */
  predicate StatusesAdvance(q: JobQueue, r: JobQueue)
  {
    forall a, b :: 0 <= a < |q.jobs| && 0 <= b < |r.jobs| && q.jobs[a].jobId == r.jobs[b].jobId ==>
      Advances(q.jobs[a].status, r.jobs[b].status)
  }
}
