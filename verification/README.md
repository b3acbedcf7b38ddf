# Debt-query job queue: a Dafny model

This project models the core of a service that looks up the debts of
property services (electricity, water, gas) on a payments portal through a
browser agent. There are three sequential pieces:

- **`JobQueue`** (job_queue.py) is an in-memory job store with an asyncio FIFO and a fixed pool of workers. Each worker:
  - takes the FIFO head;
  - marks it `processing`;
  - runs the batch work its `tipo` selects;
  - records the job as `completed` or `failed`;
  - POSTs the result to the job's callback URL with exponential back-off.

  Status reads compute a job's live position in the line. Listings filter, sort newest first and cut. A sweep deletes old finished jobs.
- **`BatchProcessor`** (batch_processor.py) builds the outcome of one service query. It has two strategies:
  - a paced-sequential loop that pauses 2 s after each item;
  - a parallel fan-out that gives each item its own agent runner.
- **`PromptGenerator`** (prompt_generator.py) fills the agent's Spanish prompt template and strips it.

asyncio runs one coroutine at a time. Each operation is therefore a step on a shared immutable state:

- The store is a sequence of job records with distinct ids. A Python dict keeps insertion order, and the stable sorts rely on that order.
- The FIFO is a sequence of entries.
- Clocks are `nat` parameters.
- The uuid of a new job is a parameter.
- The database, the agent and the HTTP POST are function-valued parameters: a `Backend` value for the database and agent, and `post(i)` for attempt `i`.
- Every database and agent call, and every opening and closing of an agent runner, is recorded in order in a trace of `Call`s. The callback POSTs are not in that trace: they are counted by the number of attempts, and `post(i)` gives the answer to each. Every sleep is recorded as a number of seconds.

Modules:

- `Basics`: `Option`, `Result` and list filtering.
- `Sorting`: a stable sort by key, with its rank, order and permutation lemmas.
- `Text`: `str.strip`, `in` on strings, `str(n)`.
- `Records`: database rows.
- `PromptGenerator`.
- `BatchProcessor`.
- `Jobs`: the job record, the store and the queue invariant `Valid`.
- `Queue`: add_job, the workers, the worker iteration and the callback.
- `Queries`: status, listing, statistics and the sweep.

`Jobs.Valid` is the invariant every operation keeps. It requires:

- distinct ids;
- a FIFO that holds exactly the entries of the pending jobs, in store order;
- each record's fields to match its status;
- no two `processing` jobs on the same worker;
- the worker list to be either empty or `0 .. max_workers-1`.

`Jobs.StatusesAdvance` says that every job that is kept moves only forward along `pending -> processing -> completed | failed`.

The model keeps one behaviour of the code that its comments do not intend. A job that fails keeps `resultado = None`. Its callback therefore fails on `len(None)` while logging the payload size. That happens before any POST, the exception ends in the worker's outer handler (a one-second pause), and `callback_error` stays `None`. A failed job with a callback URL is never notified.

## Model

| member | source | states |
|---|---|---|
| Jobs.Init | job_queue.py:19-29 | A new queue stores nothing, queues nothing, has not started its workers, and satisfies the invariant. |
| Jobs.StatusNameInjective | job_queue.py:50 | The four status strings are distinct, so comparing the strings compares the statuses. |
| Jobs.IndexOf | job_queue.py:217 | `self.jobs.get(id)`: the first record carrying the id, or none exactly when no record carries it. |
| Jobs.PendingEntriesTakeHead | job_queue.py:148-153 | Moving the first pending job out of `pending` removes exactly the FIFO's head entry. |
| Jobs.FirstPending | job_queue.py:148 | The FIFO head belongs to the earliest-stored pending job. |
| Jobs.PendingEntriesFilter | job_queue.py:288-293 | Deleting only non-pending jobs leaves the FIFO's entries as they were. |
| Jobs.UpdateKeepsValid | job_queue.py:153-192 | Rewriting one record in place with a well-formed record that moved forward along the lifecycle, and no worker clash, keeps the invariant. |
| Queue.StartWorkers | job_queue.py:125-132 | The first call sets `workers_started` and creates one worker for each of `0 .. max_workers-1`. A later call changes nothing. |
| Queue.StartWorkersIdempotent | job_queue.py:127 | Starting the workers twice is the same as starting them once. |
| Queue.AddJob | job_queue.py:31-70 | The new record is stored under its id, with status pending and every run field unset: `callback_sent` false, `queue_position` the FIFO length before the call plus one, the given tipo, params, callback and voucher. Its entry goes to the FIFO's tail. For a fresh id every earlier record stays as it was. The workers are started. |
| Queue.StoreLands | job_queue.py:46 | Writing a record under its id makes it the one found under that id. A fresh id appends, and a known id writes in place. |
| Queue.AddJobKeepsValid | job_queue.py:44-68 | Adding a job with a fresh id keeps the invariant. Afterwards exactly `max_workers` workers exist, however many jobs were added before. |
| Queue.Claim | job_queue.py:148-155 | A worker takes the FIFO head and marks its record `processing`, with the start time and its worker id. An empty FIFO blocks. A head whose record is missing is dropped, leaving the store unchanged. |
| Queue.ClaimKeepsValid | job_queue.py:148-155 | On a valid queue an idle worker always finds the head's record. That record is the earliest-added pending job, and the invariant holds afterwards. |
| Queue.Finish | job_queue.py:177-192 | The record becomes `completed` with its result, or `failed` with the error text, and is stamped with the completion time either way. No other record changes. |
| Queue.FinishKeepsValid | job_queue.py:177-192 | Finishing a processing job keeps the invariant and frees its worker. A failed job keeps `resultado = None`. |
| Queue.ParseTipo | job_queue.py:161-173 | The `tipo` chain selects the kind whose name equals the string, or none when no kind has that name. |
| Queue.Strategy | job_queue.py:161-170 | Each kind starts with its fetch. A failed fetch ends it with that single call. |
| Queue.Dispatch | job_queue.py:157-175 | The worker opens the processor's runner, runs the strategy the tipo selects (its result and its calls are the strategy's), and closes the runner exactly when the strategy returns. An unsupported tipo fails with `Tipo de trabajo no soportado: <tipo>` before any collaborator call. |
| Queue.Run | job_queue.py:161-170 | Runs the selected strategy through the batch processor's operations and gives the strategy's result and calls. |
| Queue.RunPropiedad | job_queue.py:161-163 | `propiedad` runs the paced loop over the property's services and stores the outcome list. |
| Queue.RunServicios | job_queue.py:165-167 | `servicios` runs the fan-out over the listed services and stores the outcome list. |
| Queue.RunTodas | job_queue.py:169-170 | `todas` runs the paced loop over all active services and stores the summary, whatever the params. |
| Queue.SendCallback | job_queue.py:72-123 | Unknown job or falsy callback URL: returns False with no attempt. `resultado` of None: raises before any POST. Otherwise it posts until the first delivery and makes at most `max_retries` attempts. It waits `2^i` seconds after a failed attempt `i` unless that attempt was the last. On delivery it sets `callback_sent` and clears `callback_error` and returns True. When every attempt fails it records `Falló después de <n> intentos: <reason>` and returns False. |
| Queue.Notify | job_queue.py:184-205 | The callback step. Without a callback URL nothing happens. With one but no `resultado`, `_send_callback` raises on `len(None)` before posting and the outer handler pauses a second. Otherwise it posts until the first delivery, at most three times, with `2^i`-second waits in between, and sets `callback_sent`/`callback_error` as the retry loop does. Only the callback fields of that record change. |
| Queue.NotifiedFirstDelivery | job_queue.py:98-107 | When attempt `i` is the first POST that goes through, the callback step makes exactly `i + 1` POSTs with `i` waits, returns True, and marks the callback sent with no error. |
| Queue.Record | job_queue.py:177-199 | Only the taken record changes. It becomes the record `Finish` writes (`completed` with the result or `failed` with the error text, stamped at the finish time), and then goes through the callback step as `Notify` states, which can change only its two callback fields. |
| Queue.RunEntry | job_queue.py:157-175 | The batch work for a FIFO entry behaves as `Dispatch` states for the entry's tipo and parameters: the strategy's result and calls for a known tipo, the "not supported" failure otherwise, and the runner closed exactly on success. |
| Queue.WorkerStep | job_queue.py:145-205 | One pass of the worker loop. An empty FIFO blocks. A head without a record is dropped with a one-second pause. Otherwise the head is taken and processed as `RunTaken` states: a known tipo ends `completed` with the strategy's result, and any failure ends `failed` with its text, followed by the callback step. On a valid queue with the worker idle, the invariant holds afterwards, statuses only advance, the worker is idle again, and the dropped case never occurs. |
| Queue.RunTaken | job_queue.py:145-205 | The head leaves the FIFO. The batch work runs as `Dispatch` states for its tipo and parameters. The record is marked `processing` by the worker at the start time and finished as `Finish` writes it, keeping its tipo, params, creation time, position and voucher. Then the callback step runs as `Notify` states, and no other record changes. On a valid queue with the worker idle: the job taken is the earliest-added pending one, the invariant holds, and a failed job with a callback URL is never posted, leaving `callback_sent` false and `callback_error` None. |
| Queue.WorkerStepKeepsValid | job_queue.py:148-199 | Taking the first pending job and concluding it leaves a valid queue with the worker idle and every status moved forward. |
| Queue.TakeAndRun | job_queue.py:145-199 | Taking the FIFO head whose record exists: the entry leaves the FIFO, the batch work and the record update happen as `RunTaken` states, and no other record or queue field changes. |
| Queue.RanKeepsValid | job_queue.py:145-205 | A pass that took the head of a valid queue with the worker idle took the earliest-added pending job, leaves a valid queue with statuses advanced and the worker idle, and never notifies a failed job. |
| Queue.RanRecords | job_queue.py:145-194 | After a pass, the taken record carries the worker, the start and finish times, and its id, tipo, params, creation time, position, voucher and callback URL unchanged. A known tipo whose strategy returns ends `completed` with the strategy's result. A strategy error ends `failed` with its text, and an unknown tipo ends `failed` with `Tipo de trabajo no soportado: <tipo>`. |
| Queries.GetJobStatus | job_queue.py:207-229 | Unknown id gives None and no change. A non-pending job is returned unchanged. For a pending job only its `queue_position` is rewritten, and the returned record is the stored one. |
| Queries.GetJobStatusPosition | job_queue.py:219-227 | A pending job's position is one plus the number of pending jobs created earlier, plus the number created at the same time but stored before it. The position lies between 1 and the number of pending jobs. |
| Queries.GetJobStatusLonePending | job_queue.py:219-227 | The only pending job gets position 1. |
| Queries.SortedIndexOf | job_queue.py:224-227 | In the pending jobs sorted by creation time, a job with a unique id is found at its stable rank. |
| Queries.GetJobStatusKeepsValid | job_queue.py:207-229 | Reading a status keeps the invariant. |
| Queries.GetAllJobs | job_queue.py:231-250 | `[:limit]` keeps at most `limit` jobs for a non-negative limit (all of them when there are fewer) and drops `-limit` jobs from the end for a negative one. Every listed job is a stored job with the requested status (when the filter is truthy), listed no more often than it is stored. Creation times never increase along the list. |
| Queries.GetAllJobsNewestFirst | job_queue.py:248-250 | Every selected job that the limit leaves out is at most as new as every job listed. |
| Queries.GetAllJobsComplete | job_queue.py:242-250 | With a limit at least the number of selected jobs, the listing is a permutation of them. |
| Queries.GetAllJobsPlaces | job_queue.py:248-250 | Each selected job whose place in the stable newest-first order (its rank) lies inside the cut is listed at that place. |
| Queries.GetAllJobsStable | job_queue.py:248-250 | Of two selected jobs created at the same time, when the later-stored one is listed, the earlier-stored one is listed too, before it, as the stable `sorted(..., reverse=True)` keeps them. |
| Queries.GetAllJobsUnknownStatus | job_queue.py:244-245 | A non-empty status that names no status lists nothing. |
| Queries.GetQueueStats | job_queue.py:252-274 | The total is the store size, the queue size is the FIFO length, and the workers fields are copied. |
| Queries.StatusCountsPartition | job_queue.py:259-263 | The four status counts add up to the number of jobs. |
| Queries.PendingEntriesCount | job_queue.py:260 | The FIFO holds one entry for each pending job. |
| Queries.GetQueueStatsConsistent | job_queue.py:252-274 | On a valid queue, `pending + processing + completed + failed == total_jobs` and `queue_size == pending`. |
| Queries.ProcessingAtMostWorkers | job_queue.py:125-132 | On a valid queue the `processing` count of the statistics is at most `max_workers`. Each job being processed is held by its own worker, and the workers are numbered `0 .. max_workers-1`. |
| Queries.FirstUnparseable | job_queue.py:288-290 | The first finished record without a completion time, or none exactly when there is no such record. |
| Queries.SweepStore | job_queue.py:285-293 | The loop deletes, in store order, the finished jobs completed before the cutoff. It stops at the first finished record with no completion time, keeping that record and all later ones. The count deleted is the decrease in store size. |
| Queries.SweptMembers | job_queue.py:288-293 | The sweep only deletes. On a store that does not raise, a job stays exactly when it has not expired, so pending and processing jobs of any age stay. |
| Queries.ClearOldJobs | job_queue.py:276-296 | Returns the number of jobs deleted, which equals the store's decrease. It keeps exactly the jobs that have not expired, changes nothing else, and raises `TypeError` on a finished job without `completed_at`. |
| Queries.ValidNeverUnparseable | job_queue.py:288-292 | Every finished job of a valid queue carries its completion time (written at lines 180 and 192), so the sweep never raises on one. |
| Queries.ClearOldJobsKeepsValid | job_queue.py:276-296 | Sweeping a valid queue leaves it valid, and every job kept keeps its status. |
| Queries.ClearOldJobsIdempotent | job_queue.py:288-293 | A second sweep with the same cutoff deletes nothing more. |
| BatchProcessor.ProcessServicio | batch_processor.py:23-85 | Every outcome carries the service's ids. A company lookup that raises gives the short record with that error text. An unregistered company gives `Empresa no registrada: <compania>` after one lookup. A `credenciales` holding JSON that is not an object gives the short record with the AttributeError text naming its Python type. A queryable service makes exactly one agent run and one save, with the agent's deuda and error and the metadata. A failed save gives the short record with the save's error text. A clean save gives the full record, with `exito` set exactly when the agent reported no error. |
| BatchProcessor.ProcessServicioCalls | batch_processor.py:39-65 | One company lookup per item. The agent run and the save happen together, once, and only for a queryable service. |
| BatchProcessor.SucceededMeansQueried | batch_processor.py:69-76 | `exito` holds exactly when the agent ran, reported no error, and the row was saved. |
| BatchProcessor.OutcomeIgnoresRunner | batch_processor.py:35 | The outcome does not depend on which runner executed the agent. |
| BatchProcessor.PacedCallsCounts | batch_processor.py:106-111 | The paced loop makes one lookup and one 2-second pause per item, and one agent run and one save per queryable item. It opens no runner. |
| BatchProcessor.OutcomesOfAt | batch_processor.py:106-109 | Outcome `i` of the loop is the outcome of service `i` processed on its own, in fetch order. |
| BatchProcessor.RunPaced | batch_processor.py:106-113 | The loop gives one outcome per service in order, and its trace is each item's calls followed by the pause. |
| BatchProcessor.ProcesarPropiedad | batch_processor.py:87-113 | A failed fetch propagates. No services gives `[]` with no pause. Otherwise there is one outcome per service, in fetch order, with the paced trace. |
| BatchProcessor.SuccessesAndFailuresPartition | batch_processor.py:137-138 | Successes plus failures equal the number of outcomes. |
| BatchProcessor.ProcesarTodasPropiedades | batch_processor.py:115-149 | No services gives the all-zero summary. Otherwise the summary's total is the number of services, `exitosos` counts the successes, `fallidos` counts the rest, and the outcomes are the paced loop's. |
| BatchProcessor.Summarize | batch_processor.py:137-145 | The summary lists the outcomes in order. `total` is their number, `exitosos` counts the successful ones and `fallidos` counts the failed ones, so the two add up to `total`. |
| BatchProcessor.FanOutCallsCounts | batch_processor.py:163-174 | The fan-out opens and closes exactly one dedicated runner per fetched service. It makes one lookup per service and one agent run and save per queryable service, and never pauses. |
| BatchProcessor.ProcesarServiciosEspecificos | batch_processor.py:151-176 | A failed fetch propagates. Otherwise there is one outcome per fetched service (not per requested id), in fetch order. Each outcome equals the one the paced loop gives, and each item's calls are scoped by its own runner's open and close. |
| PromptGenerator.GeneratePromptStripsTemplate | prompt_generator.py:25-43 | The prompt is exactly the filled template passed through `str.strip()`, whatever the three values are. |
| PromptGenerator.GeneratePromptShape | prompt_generator.py:25-43 | The prompt starts with `Ve a la página `, ends with `(4713.5)`, and contains the URL, the field name, the identifier and `{"deuda": float}` verbatim. |
| PromptGenerator.Identificador | prompt_generator.py:58 | The stored identifier, or `""` when either key is missing. A `credenciales` holding JSON that is not an object (null, a string, a list, a number, a boolean) fails with `'<type>' object has no attribute 'get'`, for example `'NoneType'` or `'str'`. |
| PromptGenerator.GeneratePromptFromServicio | prompt_generator.py:46-64 | The company's portal URL and field name are passed through unchanged, and the identifier is the service's stored credential (`""` when absent). It fails, with the AttributeError text, exactly when `credenciales` holds JSON that is not an object. |
| PromptGenerator.GeneratePromptFromServicioShape | prompt_generator.py:46-64 | A prompt is built exactly when `credenciales` is missing or an object. It opens and closes with the template's fixed text and holds the company's portal URL, its field name and the answer format. When `identificador` is stored, it holds that identifier too. |
| Text.Strip | prompt_generator.py:43 | `str.strip()`: the result sits inside the input with only whitespace around it, and does not start or end with whitespace. |
| Text.StripPadded | prompt_generator.py:43 | Stripping whitespace padding from a core that neither starts nor ends with whitespace gives the core back. |
| Sorting.SortBySorted | job_queue.py:222 | The stable sort orders its output by key. |
| Sorting.SortByPermutes | job_queue.py:222 | The stable sort's output is a permutation of its input. |
| Sorting.SortByPlaces | job_queue.py:222 | Element `i` lands at its rank: the number of smaller keys plus the number of equal keys before it. This is what makes the sort stable. |

## Left out

- The browser agent (agent_runner.py) is left out. The agent is a function from prompt to `(deuda, error)` that never raises, and `deuda` is a `real`.
- The Supabase layer (database.py) is left out. Its lookups, fetches and inserts are functions of a `Backend` value, a raised error is an `Err`, and each call is recorded in the trace.
- The HTTP layer (api.py), main.py, cron_job.py and config.py are not part of this model. They are endpoints, bootstrap and settings around the core.
- The test scripts are not part of this model. test_callbacks.py expects `job_id`, `voucher_id` and `status` in the callback body, but the code sends only `resultados`. The model follows the code. The callback payload itself is not modelled beyond its effect on the record.
- Real concurrency is not modelled: asyncio tasks, the blocking `queue.get`, `task_done`, the interleaving of `gather`, and the timeout of the HTTP client. Each worker pass is one sequential step, and sleeps are recorded as seconds.
- BatchProcessor.FanOutCalls: the fan-out's runner scopes are recorded one after another in argument order. Their concurrent interleaving is not modelled.
- uuid generation is a parameter. `AddJob` states its facts for any id, and `AddJobKeepsValid` assumes a fresh one.
- ISO timestamp strings are `nat` seconds of one clock. Comparing them compares the numbers. `timedelta(hours=h)` is `3600*h` seconds. The overflow that `datetime` raises for huge `hours` is not modelled.
- A `completed_at` that is present but not an ISO string is not modelled, because the code only ever writes `isoformat()` there.
- Logging is left out.
- `max_workers` is a `nat`. A negative count, for which `range` creates no worker, is not modelled.
- The batch processor's runner is closed only when the strategy returns. A strategy that raises leaves it open, and the model records exactly that.
- PromptGenerator.Identificador: the values inside `credenciales` are texts only. A JSON null or number stored under `identificador` would be rendered by the f-string as `None` or as the number's decimal text, and the model cannot express such values.
- Text.NatToString: states only that the result is a non-empty run of digits without a leading zero, not which number it spells. It only feeds the `intentos` count into the callback error text.
