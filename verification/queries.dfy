/** The read side of `JobQueue` and its housekeeping: a job's status with
    its live queue position, the job listing, the statistics and the removal
    of old finished jobs. */
module Queries {
  import opened Basics
  import opened Sorting
  import opened Jobs

  /** `created_at` as a sort key. The timestamps are `isoformat()` strings
      of one clock, whose text order is their time order. */
  function Age(j: Job): int
  {
    j.createdAt
  }

  /** The key of a newest-first sort (`reverse=True`). */
  function Recency(j: Job): int
  {
    -(j.createdAt as int)
  }

  // ---------------------------------------------------------------------
  // get_job_status
  // ---------------------------------------------------------------------

  /** The pending jobs, oldest first; ties keep store order. */
  function PendingByAge(jobs: seq<Job>): seq<Job>
  {
    SortBy(Filter(jobs, IsPending), Age)
  }

  /** `get_job_status(id)`: the stored record, or None for an unknown id.
      For a pending job the position among the pending jobs sorted by
      creation time is written back into the record (`queue_position`,
      one-based) before it is returned. */
  function GetJobStatus(q: JobQueue, id: string): (r: (JobQueue, Option<Job>))
    ensures r.1.None? <==> IndexOf(q.jobs, id).None?
    ensures r.0.fifo == q.fifo && r.0.maxWorkers == q.maxWorkers
    ensures r.0.workersStarted == q.workersStarted && r.0.workers == q.workers
    ensures |r.0.jobs| == |q.jobs|
    ensures IndexOf(q.jobs, id).Some? ==>
      var k := IndexOf(q.jobs, id).value;
      && r.1 == Some(r.0.jobs[k])
      && (forall m :: 0 <= m < |q.jobs| && m != k ==> r.0.jobs[m] == q.jobs[m])
      && r.0.jobs[k] == q.jobs[k].(queuePosition := r.0.jobs[k].queuePosition)
      && (!IsPending(q.jobs[k]) ==> r.0 == q)
    ensures IndexOf(q.jobs, id).None? ==> r.0 == q
  {
    match IndexOf(q.jobs, id)
    case None => (q, None)
    case Some(k) =>
      if !IsPending(q.jobs[k]) then (q, Some(q.jobs[k]))
      else
        match IndexOf(PendingByAge(q.jobs), id)
        case None => (q, Some(q.jobs[k]))
        case Some(p) =>
          var j := q.jobs[k].(queuePosition := p + 1);
          (q.(jobs := q.jobs[k := j]), Some(j))
  }

  /** With distinct ids, a pending job's reported position is one plus the
      number of pending jobs created before it, plus the number of pending
      jobs created at the same time that were added before it: its place in
      the line, counted without any job that already left it. */
  lemma GetJobStatusPosition(q: JobQueue, k: nat)
    requires UniqueIds(q.jobs) && k < |q.jobs| && IsPending(q.jobs[k])
    ensures var r := GetJobStatus(q, q.jobs[k].jobId);
      var pending := Filter(q.jobs, IsPending);
      && r.1.Some?
      && r.1.value.queuePosition
         == 1 + CountBelow(pending, Age, q.jobs[k].createdAt)
              + CountEqual(Filter(q.jobs[..k], IsPending), Age, q.jobs[k].createdAt)
      && 1 <= r.1.value.queuePosition <= |pending|
  {
    IndexOfUnique(q.jobs, k);
    var pending := Filter(q.jobs, IsPending);
    var i := |Filter(q.jobs[..k], IsPending)|;
    FilterPosition(q.jobs, IsPending, k);
    FilterPrefix(q.jobs, IsPending, k);
    assert pending[..i] == Filter(q.jobs[..k], IsPending);
    FilterPairwise(q.jobs, IsPending, (x: Job, y: Job) => x.jobId != y.jobId);
    SortedIndexOf(pending, i);
  }

  /** A job that is the only pending one is first in line. */
  lemma GetJobStatusLonePending(q: JobQueue, k: nat)
    requires UniqueIds(q.jobs) && k < |q.jobs| && IsPending(q.jobs[k])
    requires forall m :: 0 <= m < |q.jobs| && m != k ==> !IsPending(q.jobs[m])
    ensures GetJobStatus(q, q.jobs[k].jobId).1 == Some(q.jobs[k].(queuePosition := 1))
  {
    LonePendingFilter(q.jobs, k);
    GetJobStatusPosition(q, k);
    IndexOfUnique(q.jobs, k);
    var r := GetJobStatus(q, q.jobs[k].jobId);
    assert r.1.value.queuePosition == 1;
    assert r.1 == Some(r.0.jobs[k]);
  }

  lemma LonePendingFilter(jobs: seq<Job>, k: nat)
    requires k < |jobs| && IsPending(jobs[k])
    requires forall m :: 0 <= m < |jobs| && m != k ==> !IsPending(jobs[m])
    ensures |Filter(jobs, IsPending)| == 1
  {
    var before, after := jobs[..k], jobs[k + 1..];
    assert jobs == before + [jobs[k]] + after;
    FilterNone(before, IsPending);
    FilterNone(after, IsPending);
    FilterAll([jobs[k]], IsPending);
    FilterAppend(before, [jobs[k]], IsPending);
    assert Filter(before + [jobs[k]], IsPending) == [jobs[k]];
    FilterAppend(before + [jobs[k]], after, IsPending);
  }

  /** In the sorted pending list, a job with a unique id is first found at
      its rank. */
  lemma SortedIndexOf(pending: seq<Job>, i: nat)
    requires i < |pending|
    requires forall a, b :: 0 <= a < b < |pending| ==> pending[a].jobId != pending[b].jobId
    ensures IndexOf(SortBy(pending, Age), pending[i].jobId) == Some(Rank(pending, Age, i))
  {
    var sorted := SortBy(pending, Age);
    var p := Rank(pending, Age, i);
    SortByPlaces(pending, Age);
    assert p < |sorted| && sorted[p] == pending[i];
    NoEarlierCopy(pending, i);
    FirstMatch(sorted, pending[i].jobId, p);
  }

  /** An index holding `id` with no earlier one is what `IndexOf` finds. */
  lemma FirstMatch(jobs: seq<Job>, id: string, p: nat)
    requires p < |jobs| && jobs[p].jobId == id
    requires forall a :: 0 <= a < p ==> jobs[a].jobId != id
    ensures IndexOf(jobs, id) == Some(p)
  {
  }

  /** Before a job's rank the sorted list holds only other jobs. */
  lemma NoEarlierCopy(pending: seq<Job>, i: nat)
    requires i < |pending|
    requires forall a, b :: 0 <= a < b < |pending| ==> pending[a].jobId != pending[b].jobId
    ensures forall a :: 0 <= a < Rank(pending, Age, i) && a < |pending| ==>
      SortBy(pending, Age)[a].jobId != pending[i].jobId
  {
    forall a | 0 <= a < Rank(pending, Age, i) && a < |pending|
      ensures SortBy(pending, Age)[a].jobId != pending[i].jobId
    {
      OtherJobBefore(pending, i, a);
    }
  }

  /** Position `a`, before job `i`'s rank, holds a job stored elsewhere. */
  lemma OtherJobBefore(pending: seq<Job>, i: nat, a: nat)
    requires i < |pending| && a < Rank(pending, Age, i) && a < |pending|
    requires forall a, b :: 0 <= a < b < |pending| ==> pending[a].jobId != pending[b].jobId
    ensures SortBy(pending, Age)[a].jobId != pending[i].jobId
  {
    SortByPlaces(pending, Age);
    SortByFills(pending, Age);
    assert Filled(pending, Age, a);
    var c :| 0 <= c < |pending| && Rank(pending, Age, c) == a;
    assert SortBy(pending, Age)[a] == pending[c];
    assert c != i;
  }

  /** Reading a status never breaks the invariant: only `queue_position`
      changes, which the invariant does not constrain. */
  lemma GetJobStatusKeepsValid(q: JobQueue, id: string)
    requires Valid(q)
    ensures Valid(GetJobStatus(q, id).0)
    ensures StatusesAdvance(q, GetJobStatus(q, id).0)
  {
    var r := GetJobStatus(q, id).0;
    if IndexOf(q.jobs, id).Some? {
      var k := IndexOf(q.jobs, id).value;
      var j := r.jobs[k];
      assert r.jobs == q.jobs[k := j];
      PendingEntriesUpdate(q.jobs, k, j);
      UpdateKeepsValid(q, r, k, j);
    }
  }

  // ---------------------------------------------------------------------
  // get_all_jobs
  // ---------------------------------------------------------------------

  /** Where `xs[:limit]` ends for a list of length `n`: a negative limit
      counts from the end, and the end never passes either bound. */
  function SliceEnd(n: nat, limit: int): (e: nat)
    ensures e <= n
  {
    if limit >= 0 then (if limit < n then limit else n)
    else if n + limit > 0 then n + limit else 0
  }

  /** The `status` argument filters only when truthy (not None, not ""). */
  predicate Selected(status: Option<string>, j: Job)
  {
    status.None? || status.value == "" || StatusName(j.status) == status.value
  }

  /** The jobs `get_all_jobs` considers, in store order. */
  function Candidates(q: JobQueue, status: Option<string>): seq<Job>
  {
    Filter(q.jobs, j => Selected(status, j))
  }

  /** `get_all_jobs(status, limit)`: the selected jobs, newest first (a
      stable sort, so jobs created at the same time stay in store order),
      cut at `limit` with Python's slice rules: a non-negative limit keeps
      at most that many jobs, a negative one drops that many from the end.
      Every listed job is a selected one, listed no more often than it is
      stored. */
  function GetAllJobs(q: JobQueue, status: Option<string>, limit: int): (r: seq<Job>)
    ensures |r| <= |Candidates(q, status)|
    ensures 0 <= limit ==> |r| <= limit && (|r| == limit || |r| == |Candidates(q, status)|)
    ensures limit < 0 ==> |r| - limit == |Candidates(q, status)| || (|r| == 0 && |Candidates(q, status)| + limit <= 0)
    ensures forall i :: 0 <= i < |r| ==> r[i] in q.jobs && Selected(status, r[i])
    ensures multiset(r) <= multiset(Candidates(q, status))
    ensures forall a, b :: 0 <= a < b < |r| ==> r[a].createdAt >= r[b].createdAt
  {
    var c := Candidates(q, status);
    SortByMembers(c, Recency);
    SortBySorted(c, Recency);
    SlicedSort(c, SliceEnd(|c|, limit));
    SortBy(c, Recency)[..SliceEnd(|c|, limit)]
  }

  /** A prefix of the newest-first sort holds each job at most as often as
      the list does. */
  lemma SlicedSort(c: seq<Job>, e: nat)
    requires e <= |c|
    ensures multiset(SortBy(c, Recency)[..e]) <= multiset(c)
  {
    var sorted := SortBy(c, Recency);
    SortByPermutes(c, Recency);
    assert sorted == sorted[..e] + sorted[e..];
  }

  /** A selected job whose place in the stable newest-first order falls
      inside the cut is listed at that place. */
  lemma GetAllJobsPlaces(q: JobQueue, status: Option<string>, limit: int)
    ensures var c, r := Candidates(q, status), GetAllJobs(q, status, limit);
      forall i :: 0 <= i < |c| && Rank(c, Recency, i) < |r| ==> r[Rank(c, Recency, i)] == c[i]
  {
    var c := Candidates(q, status);
    var e := SliceEnd(|c|, limit);
    assert GetAllJobs(q, status, limit) == SortBy(c, Recency)[..e];
    SortByPlaces(c, Recency);
  }

  /** Jobs created at the same time keep their store order in the listing:
      of two such selected jobs, when the later-stored one is listed, the
      earlier-stored one is listed before it. */
  lemma GetAllJobsStable(q: JobQueue, status: Option<string>, limit: int)
    ensures var c, r := Candidates(q, status), GetAllJobs(q, status, limit);
      forall i, j :: 0 <= i < j < |c| && c[i].createdAt == c[j].createdAt && Rank(c, Recency, j) < |r| ==>
        && Rank(c, Recency, i) < Rank(c, Recency, j)
        && r[Rank(c, Recency, i)] == c[i] && r[Rank(c, Recency, j)] == c[j]
  {
    var c, r := Candidates(q, status), GetAllJobs(q, status, limit);
    GetAllJobsPlaces(q, status, limit);
    forall i, j | 0 <= i < j < |c| && c[i].createdAt == c[j].createdAt && Rank(c, Recency, j) < |r|
      ensures Rank(c, Recency, i) < Rank(c, Recency, j)
    {
      RankOrder(c, Recency, i, j);
    }
  }

  /** What the cut leaves out is never newer than what it keeps: every
      selected job missing from the answer is at most as new as every job in
      it. */
  lemma GetAllJobsNewestFirst(q: JobQueue, status: Option<string>, limit: int, x: Job)
    requires x in Candidates(q, status) && x !in GetAllJobs(q, status, limit)
    ensures forall i :: 0 <= i < |GetAllJobs(q, status, limit)| ==>
      GetAllJobs(q, status, limit)[i].createdAt >= x.createdAt
  {
    var c := Candidates(q, status);
    assert GetAllJobs(q, status, limit) == SortBy(c, Recency)[..SliceEnd(|c|, limit)];
    CutNoOlder(c, SliceEnd(|c|, limit), x);
  }

  /** A job left out of a prefix of the newest-first sort is at most as new
      as every job in the prefix. */
  lemma CutNoOlder(c: seq<Job>, e: nat, x: Job)
    requires e <= |c| && x in c && x !in SortBy(c, Recency)[..e]
    ensures forall i :: 0 <= i < e ==> SortBy(c, Recency)[i].createdAt >= x.createdAt
  {
    var sorted := SortBy(c, Recency);
    SortByPermutes(c, Recency);
    SortBySorted(c, Recency);
    assert x in multiset(sorted);
    var p :| 0 <= p < |sorted| && sorted[p] == x;
    forall i | 0 <= i < e
      ensures sorted[i].createdAt >= x.createdAt
    {
      assert sorted[..e][i] == sorted[i];
    }
  }

  /** A limit at least the number of selected jobs returns all of them,
      each as often as it is stored. */
  lemma GetAllJobsComplete(q: JobQueue, status: Option<string>, limit: int)
    requires limit >= |Candidates(q, status)|
    ensures multiset(GetAllJobs(q, status, limit)) == multiset(Candidates(q, status))
  {
    var c := Candidates(q, status);
    SortByPermutes(c, Recency);
    assert SortBy(c, Recency)[..|c|] == SortBy(c, Recency);
  }

  /** A status that names no status selects nothing. */
  lemma GetAllJobsUnknownStatus(q: JobQueue, s: string, limit: int)
    requires s != "" && forall t: Status :: StatusName(t) != s
    ensures GetAllJobs(q, Some(s), limit) == []
  {
    FilterNone(q.jobs, j => Selected(Some(s), j));
  }

  // ---------------------------------------------------------------------
  // get_queue_stats
  // ---------------------------------------------------------------------

  datatype QueueStats = QueueStats(
    totalJobs: nat,
    pending: nat,
    processing: nat,
    completed: nat,
    failed: nat,
    queueSize: nat,
    maxWorkers: nat,
    workersActive: bool)

  /** `sum(1 for j in jobs if j["status"] == s)`. */
  function CountStatus(jobs: seq<Job>, s: Status): (n: nat)
    ensures n <= |jobs|
  {
    if |jobs| == 0 then 0
    else CountStatus(jobs[..|jobs| - 1], s) + (if jobs[|jobs| - 1].status == s then 1 else 0)
  }

  function GetQueueStats(q: JobQueue): (r: QueueStats)
    ensures r.totalJobs == |q.jobs| && r.queueSize == |q.fifo|
    ensures r.maxWorkers == q.maxWorkers && r.workersActive == q.workersStarted
  {
    QueueStats(|q.jobs|, CountStatus(q.jobs, Pending), CountStatus(q.jobs, Processing),
               CountStatus(q.jobs, Completed), CountStatus(q.jobs, Failed),
               |q.fifo|, q.maxWorkers, q.workersStarted)
  }

  /** Every job has exactly one of the four statuses. */
  lemma {:induction false} StatusCountsPartition(jobs: seq<Job>)
    ensures CountStatus(jobs, Pending) + CountStatus(jobs, Processing)
            + CountStatus(jobs, Completed) + CountStatus(jobs, Failed) == |jobs|
  {
    if |jobs| > 0 {
      StatusCountsPartition(jobs[..|jobs| - 1]);
    }
  }

  /** The FIFO holds one entry per pending job. */
  lemma {:induction false} PendingEntriesCount(jobs: seq<Job>)
    ensures |PendingEntries(jobs)| == CountStatus(jobs, Pending)
  {
    if |jobs| > 0 {
      PendingEntriesCount(jobs[..|jobs| - 1]);
    }
  }

  /** On a valid queue the statistics add up: the four status counts sum to
      the number of jobs and the FIFO's size is the number of pending jobs. */
  lemma GetQueueStatsConsistent(q: JobQueue)
    requires Valid(q)
    ensures var r := GetQueueStats(q);
      && r.pending + r.processing + r.completed + r.failed == r.totalJobs
      && r.queueSize == r.pending
  {
    StatusCountsPartition(q.jobs);
    PendingEntriesCount(q.jobs);
  }
  /** On a valid queue at most `max_workers` jobs are being processed:
      each is held by its own worker, and the workers are numbered below
      `max_workers`. */
  lemma ProcessingAtMostWorkers(q: JobQueue)
    requires Valid(q)
    ensures GetQueueStats(q).processing <= q.maxWorkers
  {
    forall k | 0 <= k < |q.jobs| && q.jobs[k].status == Processing
      ensures q.jobs[k].workerId.Some? && q.jobs[k].workerId.value < q.maxWorkers
    {
      assert WellFormed(q.jobs[k], q.maxWorkers);
    }
    BusyCount(q.jobs, q.maxWorkers);
    BelowCount(q.maxWorkers);
    SubsetCount(Busy(q.jobs), Below(q.maxWorkers));
  }

  /** The workers holding a job that is being processed. */
  function Busy(jobs: seq<Job>): set<nat>
  {
    if |jobs| == 0 then {}
    else
      var j := jobs[|jobs| - 1];
      Busy(jobs[..|jobs| - 1]) + (if j.status == Processing && j.workerId.Some? then {j.workerId.value} else {})
  }

  /** Worker `w` holds one of the jobs being processed. */
  predicate Holds(jobs: seq<Job>, w: nat)
  {
    exists k :: 0 <= k < |jobs| && jobs[k].status == Processing && jobs[k].workerId == Some(w)
  }

  /** With distinct holders, there are as many busy workers as jobs being
      processed, and they are all numbered below `n`. */
  lemma {:induction false} BusyCount(jobs: seq<Job>, n: nat)
    requires forall k :: 0 <= k < |jobs| && jobs[k].status == Processing ==>
      jobs[k].workerId.Some? && jobs[k].workerId.value < n
    requires DistinctWorkers(jobs)
    ensures |Busy(jobs)| == CountStatus(jobs, Processing)
    ensures Busy(jobs) <= Below(n)
    ensures forall w :: w in Busy(jobs) ==> Holds(jobs, w)
  {
    if |jobs| > 0 {
      var init, j := jobs[..|jobs| - 1], jobs[|jobs| - 1];
      assert forall k :: 0 <= k < |init| ==> init[k] == jobs[k];
      BusyCount(init, n);
      forall w | w in Busy(init)
        ensures Holds(jobs, w)
      {
        var k :| 0 <= k < |init| && init[k].status == Processing && init[k].workerId == Some(w);
        assert jobs[k] == init[k];
      }
    }
  }

  /** The worker numbers below `n`. */
  function Below(n: nat): (r: set<nat>)
    ensures forall w: nat :: w in r <==> w < n
  {
    if n == 0 then {} else Below(n - 1) + {n - 1}
  }

  lemma {:induction false} BelowCount(n: nat)
    ensures |Below(n)| == n
  {
    if n > 0 {
      BelowCount(n - 1);
    }
  }

  lemma {:induction false} SubsetCount(a: set<nat>, b: set<nat>)
    requires a <= b
    ensures |a| <= |b|
  {
    assert b == a + (b - a);
  }


  // ---------------------------------------------------------------------
  // clear_old_jobs
  // ---------------------------------------------------------------------

  /** `datetime.now() - timedelta(hours=hours)` on the seconds clock; a
      negative `hours` puts the cutoff in the future. */
  function Cutoff(now: nat, hours: int): int
  {
    now - hours * 3600
  }

  predicate Finished(j: Job)
  {
    j.status == Completed || j.status == Failed
  }

  /** A finished job without `completed_at`: `datetime.fromisoformat(None)`
      raises a `TypeError`. */
  predicate Unparseable(j: Job)
  {
    Finished(j) && j.completedAt.None?
  }

  /** A finished job that completed before the cutoff: the sweep deletes it. */
  predicate Expired(j: Job, cutoff: int)
  {
    Finished(j) && j.completedAt.Some? && j.completedAt.value < cutoff
  }

  /** The test a job passes to stay in the store. */
  function Keeper(cutoff: int): Job -> bool
  {
    j => !Expired(j, cutoff)
  }

  /** The text of the `TypeError` that `fromisoformat(None)` raises. */
  const NotAString := "fromisoformat: argument must be str"

  /** Position of the first finished job without a completion time. */
  function FirstUnparseable(jobs: seq<Job>): (r: Option<nat>)
    ensures r.Some? ==> r.value < |jobs| && Unparseable(jobs[r.value])
    ensures r.Some? ==> forall k :: 0 <= k < r.value ==> !Unparseable(jobs[k])
    ensures r.None? <==> forall k :: 0 <= k < |jobs| ==> !Unparseable(jobs[k])
  {
    if |jobs| == 0 then None
    else if Unparseable(jobs[0]) then Some(0)
    else match FirstUnparseable(jobs[1..])
      case None => None
      case Some(k) => Some(k + 1)
  }

  /** The store after the sweep. Deletions happen while the loop walks the
      store in insertion order, so when a record raises, the jobs before it
      have been swept and it and every later job stay. */
  function Swept(jobs: seq<Job>, cutoff: int): seq<Job>
  {
    match FirstUnparseable(jobs)
    case None => Filter(jobs, Keeper(cutoff))
    case Some(b) => Filter(jobs[..b], Keeper(cutoff)) + jobs[b..]
  }

  /** The sweep loop over the store in insertion order: returns the jobs
      left, the number deleted, and where it raised, if it did. */
  method SweepStore(jobs: seq<Job>, cutoff: int) returns (kept: seq<Job>, removed: nat, stop: Option<nat>)
    ensures kept == Swept(jobs, cutoff) && stop == FirstUnparseable(jobs)
    ensures stop.None? ==> removed + |kept| == |jobs|
  {
    kept := [];
    removed := 0;
    var i := 0;
    while i < |jobs|
      invariant 0 <= i <= |jobs|
      invariant kept == Filter(jobs[..i], Keeper(cutoff))
      invariant removed + |kept| == i
      invariant forall k :: 0 <= k < i ==> !Unparseable(jobs[k])
    {
      var j := jobs[i];
      if Finished(j) && j.completedAt.None? {
        SweptStopsAt(jobs, cutoff, i);
        kept := kept + jobs[i..];
        stop := Some(i);
        return;
      }
      FilterSnoc(jobs, Keeper(cutoff), i);
      if Finished(j) && j.completedAt.value < cutoff {
        removed := removed + 1;
      } else {
        kept := kept + [j];
      }
      i := i + 1;
    }
    SweptWhole(jobs, cutoff);
    stop := None;
  }

  /** A sweep that raises at `i` keeps the swept jobs before `i` and
      everything from `i` on. */
  lemma SweptStopsAt(jobs: seq<Job>, cutoff: int, i: nat)
    requires i < |jobs| && Unparseable(jobs[i])
    requires forall k :: 0 <= k < i ==> !Unparseable(jobs[k])
    ensures FirstUnparseable(jobs) == Some(i)
    ensures Swept(jobs, cutoff) == Filter(jobs[..i], Keeper(cutoff)) + jobs[i..]
  {
  }

  /** A sweep that does not raise filters the whole store. */
  lemma SweptWhole(jobs: seq<Job>, cutoff: int)
    requires forall k :: 0 <= k < |jobs| ==> !Unparseable(jobs[k])
    ensures FirstUnparseable(jobs).None?
    ensures Swept(jobs, cutoff) == Filter(jobs[..|jobs|], Keeper(cutoff))
  {
    assert jobs[..|jobs|] == jobs;
  }

  /** The sweep only deletes, and on a store that does not raise it deletes
      exactly the expired jobs. */
  lemma SweptMembers(jobs: seq<Job>, cutoff: int)
    ensures forall x :: x in Swept(jobs, cutoff) ==> x in jobs
    ensures FirstUnparseable(jobs).None? ==>
      forall x :: x in jobs ==> (x in Swept(jobs, cutoff) <==> !Expired(x, cutoff))
  {
    match FirstUnparseable(jobs) {
      case None =>
      case Some(b) =>
        var f := Filter(jobs[..b], Keeper(cutoff));
        assert forall x :: x in f ==> x in jobs[..b];
        assert forall x :: x in jobs[b..] ==> x in jobs;
    }
  }

  /** `clear_old_jobs(hours)` at time `now`: deletes the finished jobs that
      completed before the cutoff and returns how many it deleted; a
      finished job without a completion time raises part-way through. */
  method ClearOldJobs(q: JobQueue, now: nat, hours: int) returns (r: JobQueue, outcome: Result<nat>)
    ensures r == q.(jobs := Swept(q.jobs, Cutoff(now, hours)))
    ensures outcome.Ok? <==> FirstUnparseable(q.jobs).None?
    ensures outcome.Ok? ==> outcome.value + |r.jobs| == |q.jobs|
    ensures outcome.Err? ==> outcome.message == NotAString
    ensures outcome.Ok? ==> forall x :: x in q.jobs ==> (x in r.jobs <==> !Expired(x, Cutoff(now, hours)))
    ensures forall x :: x in r.jobs ==> x in q.jobs
  {
    var kept, removed, stop := SweepStore(q.jobs, Cutoff(now, hours));
    SweptMembers(q.jobs, Cutoff(now, hours));
    r := q.(jobs := kept);
    outcome := if stop.None? then Ok(removed) else Err(NotAString);
  }

  /** On a valid queue every finished job carries its completion time. */
  lemma ValidNeverUnparseable(q: JobQueue)
    requires Valid(q)
    ensures FirstUnparseable(q.jobs).None?
  {
    forall k | 0 <= k < |q.jobs|
      ensures !Unparseable(q.jobs[k])
    {
      assert WellFormed(q.jobs[k], q.maxWorkers);
    }
  }

  /** Dropping finished jobs from a valid queue leaves it valid. */
  lemma FilterFinishedKeepsValid(q: JobQueue, keep: Job -> bool, r: JobQueue)
    requires Valid(q)
    requires forall k :: 0 <= k < |q.jobs| && !Finished(q.jobs[k]) ==> keep(q.jobs[k])
    requires r == q.(jobs := Filter(q.jobs, keep))
    ensures Valid(r)
  {
    var s := r.jobs;
    FilterPairwise(q.jobs, keep, (a: Job, b: Job) => a.jobId != b.jobId);
    FilterPairwise(q.jobs, keep, (a: Job, b: Job) =>
      a.status == Processing && b.status == Processing ==> a.workerId != b.workerId);
    PendingEntriesFilter(q.jobs, keep);
    forall m | 0 <= m < |s|
      ensures WellFormed(s[m], q.maxWorkers)
    {
      assert s[m] in q.jobs;
    }
  }

  /** A job left by filtering a store of distinct ids keeps its status. */
  lemma FilterAdvances(q: JobQueue, keep: Job -> bool, r: JobQueue)
    requires UniqueIds(q.jobs)
    requires r == q.(jobs := Filter(q.jobs, keep))
    ensures StatusesAdvance(q, r)
  {
    var s := r.jobs;
    forall a, b | 0 <= a < |q.jobs| && 0 <= b < |s| && q.jobs[a].jobId == s[b].jobId
      ensures Advances(q.jobs[a].status, s[b].status)
    {
      assert s[b] in q.jobs;
      var c :| 0 <= c < |q.jobs| && q.jobs[c] == s[b];
      assert c == a;
    }
  }

  /** A valid queue has a completion time on every finished job, so the
      sweep never raises on it, and the queue it leaves is valid again:
      only finished jobs go, and every job that stays keeps its status. */
  lemma ClearOldJobsKeepsValid(q: JobQueue, cutoff: int)
    requires Valid(q)
    ensures FirstUnparseable(q.jobs).None?
    ensures Valid(q.(jobs := Swept(q.jobs, cutoff)))
    ensures StatusesAdvance(q, q.(jobs := Swept(q.jobs, cutoff)))
  {
    ValidNeverUnparseable(q);
    var r := q.(jobs := Filter(q.jobs, Keeper(cutoff)));
    FilterFinishedKeepsValid(q, Keeper(cutoff), r);
    FilterAdvances(q, Keeper(cutoff), r);
  }

  /** Sweeping again with the same cutoff deletes nothing more. */
  lemma ClearOldJobsIdempotent(jobs: seq<Job>, cutoff: int)
    requires FirstUnparseable(jobs).None?
    ensures FirstUnparseable(Swept(jobs, cutoff)).None?
    ensures Swept(Swept(jobs, cutoff), cutoff) == Swept(jobs, cutoff)
  {
    var s := Filter(jobs, Keeper(cutoff));
    forall k | 0 <= k < |s|
      ensures !Unparseable(s[k])
    {
      assert s[k] in jobs;
    }
    FilterIdempotent(jobs, Keeper(cutoff));
  }
}
