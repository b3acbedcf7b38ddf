/** The batch processor: building the outcome of one service query, the
    paced-sequential strategy (one shared agent runner, a fixed pause after
    every item) and the parallel fan-out (one dedicated runner per item).
    The database, the browser agent and the pause are collaborators: their
    answers come from a `Backend` value and every call made to them is
    recorded, in order, in a trace of `Call`s. */
module BatchProcessor {
  import opened Basics
  import opened Records
  import opened PromptGenerator

  /** The agent's answer `{"deuda": ..., "error": ...}`; the agent reports
      every failure in `error` and never raises. */
  datatype AgentResult = AgentResult(deuda: real, error: Option<string>)

  /** `db.get_empresa_servicio(compania)`: a row, no row, or a raised error. */
  datatype Lookup = Found(info: EmpresaInfo) | NotFound | LookupRaised(reason: string)

  datatype Metadata = Metadata(empresa: string, tipo: string)

  /** The row written by `db.guardar_consulta_deuda`. */
  datatype Consulta = Consulta(
    servicioId: int,
    propiedadId: int,
    montoDeuda: real,
    metadata: Metadata,
    error: Option<string>)

  /** The processor's own agent runner, or the runner created for item `slot`
      of a fan-out. */
  datatype Runner = Shared | Dedicated(slot: nat)

  datatype Call =
    | FetchServiciosPropiedad(propiedadId: Option<int>)
    | FetchServiciosActivos
    | FetchServiciosPorIds(ids: Option<seq<int>>)
    | LookupEmpresa(compania: string)
    | RunAgent(runner: Runner, prompt: string)
    | SaveConsulta(record: Consulta)
    | OpenRunner(runner: Runner)
    | CloseRunner(runner: Runner)
    | Sleep(seconds: nat)

  datatype CallKind = Fetch | Lookup | Agent | Save | Open | Close | Pause

  function KindOf(c: Call): CallKind
  {
    match c
    case FetchServiciosPropiedad(_) => Fetch
    case FetchServiciosActivos => Fetch
    case FetchServiciosPorIds(_) => Fetch
    case LookupEmpresa(_) => Lookup
    case RunAgent(_, _) => Agent
    case SaveConsulta(_) => Save
    case OpenRunner(_) => Open
    case CloseRunner(_) => Close
    case Sleep(_) => Pause
  }

  /** Answers of the collaborators. A fetch that raises is an `Err`; `save`
      gives the text of the error the insert raised, if any. */
  datatype Backend = Backend(
    empresa: string -> Lookup,
    agent: string -> AgentResult,
    save: Consulta -> Option<string>,
    serviciosPropiedad: Option<int> -> Result<seq<Servicio>>,
    serviciosActivos: Result<seq<Servicio>>,
    serviciosPorIds: Option<seq<int>> -> Result<seq<Servicio>>)

  /** The dictionary `procesar_servicio` returns. `Consulted` is the full
      record built after the agent ran and the row was saved; `Skipped` is the
      short record (no company, no amount) of the early return and of the
      exception handler. */
  datatype ItemOutcome =
    | Consulted(servicioId: int, propiedadId: int, empresa: string, deuda: real, exito: bool, error: Option<string>)
    | Skipped(servicioId: int, propiedadId: int, reason: string)
  {
    /** The `exito` key: always false in the short record. */
    predicate Succeeded()
    {
      Consulted? && exito
    }
  }

  datatype Processed = Processed(outcome: ItemOutcome, calls: seq<Call>)

  /** Seconds slept after each item of the paced strategy. */
  const PauseSeconds: nat := 2

  /** The prefix of the error recorded when the company is not registered. */
  const UnregisteredPrefix: string := "Empresa no registrada: "

  /** Number of calls of kind `k` in a trace. */
  function Count(calls: seq<Call>, k: CallKind): (n: nat)
    ensures n <= |calls|
  {
    if |calls| == 0 then 0
    else Count(calls[..|calls| - 1], k) + (if KindOf(calls[|calls| - 1]) == k then 1 else 0)
  }

  lemma CountOne(c: Call, k: CallKind)
    ensures Count([c], k) == if KindOf(c) == k then 1 else 0
  {
    assert [c][..0] == [];
  }

  lemma {:induction false} CountAppend(a: seq<Call>, b: seq<Call>, k: CallKind)
    ensures Count(a + b, k) == Count(a, k) + Count(b, k)
    decreases |b|
  {
    if |b| > 0 {
      assert (a + b)[..|a + b| - 1] == a + b[..|b| - 1];
      CountAppend(a, b[..|b| - 1], k);
    } else {
      assert a + b == a;
    }
  }

  /** Counting over a trace built from three consecutive pieces. */
  lemma CountSteps(prev: seq<Call>, item: seq<Call>, tail: seq<Call>)
    ensures forall k :: Count(prev + item + tail, k) == Count(prev, k) + Count(item, k) + Count(tail, k)
  {
    forall k: CallKind
      ensures Count(prev + item + tail, k) == Count(prev, k) + Count(item, k) + Count(tail, k)
    {
      CountAppend(prev + item, tail, k);
      CountAppend(prev, item, k);
    }
  }

  lemma CountSingle(c: Call)
    ensures forall k :: Count([c], k) == if KindOf(c) == k then 1 else 0
  {
    forall k: CallKind
      ensures Count([c], k) == if KindOf(c) == k then 1 else 0
    {
      CountOne(c, k);
    }
  }

  /** The number of calls of each kind in a trace; saves always match agent
      runs and closes match opens in the traces this module produces. */
  predicate CountsAre(calls: seq<Call>, lookups: nat, agents: nat, pauses: nat, runners: nat)
  {
    && Count(calls, Fetch) == 0
    && Count(calls, Lookup) == lookups
    && Count(calls, Agent) == agents && Count(calls, Save) == agents
    && Count(calls, Pause) == pauses
    && Count(calls, Open) == runners && Count(calls, Close) == runners
  }

  /** The agent is reached for a service exactly when its company is
      registered and its credentials can be read. */
  predicate Queryable(b: Backend, s: Servicio)
  {
    b.empresa(s.compania).Found? && !s.credenciales.NotAnObject?
  }

  /** The prompt sent for a queryable service. */
  function PromptOf(b: Backend, s: Servicio): string
    requires Queryable(b, s)
  {
    GeneratePromptFromServicio(s, b.empresa(s.compania).info).value
  }

  /** The row saved for a queryable service: the agent's amount and error,
      and the company and service type as metadata. */
  function RecordOf(b: Backend, s: Servicio): Consulta
    requires Queryable(b, s)
  {
    var answer := b.agent(PromptOf(b, s));
    Consulta(s.servicioId, s.propiedadId, answer.deuda, Metadata(s.compania, s.tipoServicio), answer.error)
  }

  /** `procesar_servicio` run with agent runner `runner`. Every failure is
      turned into a short record carrying the service's identifiers. */
  function ProcessServicio(b: Backend, s: Servicio, runner: Runner): (r: Processed)
    ensures r.outcome.servicioId == s.servicioId && r.outcome.propiedadId == s.propiedadId
    ensures |r.calls| >= 1 && r.calls[0] == LookupEmpresa(s.compania)
    ensures b.empresa(s.compania).LookupRaised? ==>
      r.outcome == Skipped(s.servicioId, s.propiedadId, b.empresa(s.compania).reason)
    ensures b.empresa(s.compania).NotFound? ==>
      r.outcome == Skipped(s.servicioId, s.propiedadId, UnregisteredPrefix + s.compania)
    ensures b.empresa(s.compania).Found? && s.credenciales.NotAnObject? ==>
      r.outcome == Skipped(s.servicioId, s.propiedadId, NoGetMessage(s.credenciales.kind))
    ensures !Queryable(b, s) ==> r.outcome.Skipped? && |r.calls| == 1
    ensures Queryable(b, s) ==>
      |r.calls| == 3 && r.calls[1] == RunAgent(runner, PromptOf(b, s)) && r.calls[2] == SaveConsulta(RecordOf(b, s))
    ensures Queryable(b, s) && b.save(RecordOf(b, s)).None? ==>
      var answer := b.agent(PromptOf(b, s));
      r.outcome == Consulted(s.servicioId, s.propiedadId, s.compania, answer.deuda, answer.error.None?, answer.error)
    ensures Queryable(b, s) && b.save(RecordOf(b, s)).Some? ==>
      r.outcome == Skipped(s.servicioId, s.propiedadId, b.save(RecordOf(b, s)).value)
  {
    var lookup := [LookupEmpresa(s.compania)];
    match b.empresa(s.compania)
    case LookupRaised(reason) => Processed(Skipped(s.servicioId, s.propiedadId, reason), lookup)
    case NotFound => Processed(Skipped(s.servicioId, s.propiedadId, UnregisteredPrefix + s.compania), lookup)
    case Found(info) =>
      match GeneratePromptFromServicio(s, info)
      case Err(reason) => Processed(Skipped(s.servicioId, s.propiedadId, reason), lookup)
      case Ok(prompt) =>
        var answer := b.agent(prompt);
        var record := Consulta(s.servicioId, s.propiedadId, answer.deuda, Metadata(s.compania, s.tipoServicio), answer.error);
        var calls := lookup + [RunAgent(runner, prompt), SaveConsulta(record)];
        match b.save(record)
        case Some(reason) => Processed(Skipped(s.servicioId, s.propiedadId, reason), calls)
        case None =>
          Processed(Consulted(s.servicioId, s.propiedadId, s.compania, answer.deuda, answer.error.None?, answer.error), calls)
  }

  /** One item's calls: one company lookup; the agent and the save happen
      together, once, and only for a queryable service; nothing else. */
  lemma ProcessServicioCalls(b: Backend, s: Servicio, runner: Runner)
    ensures CountsAre(ProcessServicio(b, s, runner).calls, 1, if Queryable(b, s) then 1 else 0, 0, 0)
  {
    ItemTraceCounts(ProcessServicio(b, s, runner).calls, Queryable(b, s));
  }

  lemma ItemTraceCounts(calls: seq<Call>, queried: bool)
    requires |calls| == (if queried then 3 else 1) && KindOf(calls[0]) == Lookup
    requires queried ==> KindOf(calls[1]) == Agent && KindOf(calls[2]) == Save
    ensures CountsAre(calls, 1, if queried then 1 else 0, 0, 0)
  {
    forall k: CallKind
      ensures Count(calls[..1], k) == if k == Lookup then 1 else 0
    {
      assert calls[..1][..0] == [];
    }
    if queried {
      forall k: CallKind
        ensures Count(calls[..2], k) == Count(calls[..1], k) + (if k == Agent then 1 else 0)
      {
        assert calls[..2][..1] == calls[..1];
      }
      assert calls[..3] == calls;
    } else {
      assert calls[..1] == calls;
    }
  }

  /** An outcome counts as a success exactly when the agent reported no error
      and its row was saved. */
  lemma SucceededMeansQueried(b: Backend, s: Servicio, runner: Runner)
    ensures ProcessServicio(b, s, runner).outcome.Succeeded() <==>
      Queryable(b, s) && b.save(RecordOf(b, s)).None? && b.agent(PromptOf(b, s)).error.None?
  {
  }

  /** The outcome does not depend on which runner executed the agent. */
  lemma OutcomeIgnoresRunner(b: Backend, s: Servicio, r1: Runner, r2: Runner)
    ensures ProcessServicio(b, s, r1).outcome == ProcessServicio(b, s, r2).outcome
  {
  }

  /** Number of services in `ss` for which the agent is reached. */
  function CountQueryable(b: Backend, ss: seq<Servicio>): (n: nat)
    ensures n <= |ss|
  {
    if |ss| == 0 then 0
    else CountQueryable(b, ss[..|ss| - 1]) + (if Queryable(b, ss[|ss| - 1]) then 1 else 0)
  }

  // ---------------------------------------------------------------------
  // Paced-sequential strategy (`procesar_propiedad`, `procesar_todas_propiedades`)
  // ---------------------------------------------------------------------

  /** The calls of the paced loop over `ss`: each item processed with the
      processor's own runner, followed by a pause. */
  function PacedCalls(b: Backend, ss: seq<Servicio>): seq<Call>
  {
    if |ss| == 0 then []
    else PacedCalls(b, ss[..|ss| - 1]) + ProcessServicio(b, ss[|ss| - 1], Shared).calls + [Sleep(PauseSeconds)]
  }

  /** In the paced loop every item gets one company lookup and one pause, and
      the agent runs (and a row is saved) once per queryable item. */
  lemma {:induction false} PacedCallsCounts(b: Backend, ss: seq<Servicio>)
    ensures CountsAre(PacedCalls(b, ss), |ss|, CountQueryable(b, ss), |ss|, 0)
  {
    if |ss| > 0 {
      var init := ss[..|ss| - 1];
      PacedCallsCounts(b, init);
      ProcessServicioCalls(b, ss[|ss| - 1], Shared);
      PacedStep(PacedCalls(b, init), ProcessServicio(b, ss[|ss| - 1], Shared).calls,
                |init|, CountQueryable(b, init), Queryable(b, ss[|ss| - 1]));
    }
  }

  lemma PacedStep(prev: seq<Call>, item: seq<Call>, n: nat, q: nat, queried: bool)
    requires CountsAre(prev, n, q, n, 0)
    requires CountsAre(item, 1, if queried then 1 else 0, 0, 0)
    ensures CountsAre(prev + item + [Sleep(PauseSeconds)], n + 1, q + (if queried then 1 else 0), n + 1, 0)
  {
    CountSteps(prev, item, [Sleep(PauseSeconds)]);
    CountSingle(Sleep(PauseSeconds));
  }

  lemma PacedCallsExtend(b: Backend, ss: seq<Servicio>, i: nat)
    requires i < |ss|
    ensures PacedCalls(b, ss[..i + 1]) == PacedCalls(b, ss[..i]) + ProcessServicio(b, ss[i], Shared).calls + [Sleep(PauseSeconds)]
  {
    assert ss[..i + 1][..i] == ss[..i];
  }

  /** The outcomes of processing `ss` one after the other, in order. */
  function OutcomesOf(b: Backend, ss: seq<Servicio>): (r: seq<ItemOutcome>)
    ensures |r| == |ss|
  {
    if |ss| == 0 then []
    else OutcomesOf(b, ss[..|ss| - 1]) + [ProcessServicio(b, ss[|ss| - 1], Shared).outcome]
  }

  /** Outcome `i` is the outcome of service `i`, processed on its own. */
  lemma {:induction false} OutcomesOfAt(b: Backend, ss: seq<Servicio>)
    ensures forall i :: 0 <= i < |ss| ==> OutcomesOf(b, ss)[i] == ProcessServicio(b, ss[i], Shared).outcome
  {
    if |ss| > 0 {
      var init := ss[..|ss| - 1];
      OutcomesOfAt(b, init);
      assert forall i :: 0 <= i < |init| ==> init[i] == ss[i];
    }
  }

  lemma OutcomesOfExtend(b: Backend, ss: seq<Servicio>, i: nat)
    requires i < |ss|
    ensures OutcomesOf(b, ss[..i + 1]) == OutcomesOf(b, ss[..i]) + [ProcessServicio(b, ss[i], Shared).outcome]
  {
    assert ss[..i + 1][..i] == ss[..i];
  }

  /** The loop shared by the two paced operations: items processed one at a
      time, in order, each followed by the pause. */
  method RunPaced(b: Backend, ss: seq<Servicio>) returns (outcomes: seq<ItemOutcome>, calls: seq<Call>)
    ensures outcomes == OutcomesOf(b, ss)
    ensures calls == PacedCalls(b, ss)
  {
    outcomes := [];
    calls := [];
    var i := 0;
    while i < |ss|
      invariant 0 <= i <= |ss|
      invariant outcomes == OutcomesOf(b, ss[..i])
      invariant calls == PacedCalls(b, ss[..i])
    {
      var item := ProcessServicio(b, ss[i], Shared);
      outcomes := outcomes + [item.outcome];
      calls := calls + item.calls + [Sleep(PauseSeconds)];
      OutcomesOfExtend(b, ss, i);
      PacedCallsExtend(b, ss, i);
      i := i + 1;
    }
    assert ss[..|ss|] == ss;
  }

  /** `procesar_propiedad`: the property's services are fetched; a failing
      fetch propagates; no services gives an empty list without pauses;
      otherwise one outcome per service, in fetch order. */
  method ProcesarPropiedad(b: Backend, propiedadId: Option<int>) returns (r: Result<seq<ItemOutcome>>, calls: seq<Call>)
    ensures |calls| >= 1 && calls[0] == FetchServiciosPropiedad(propiedadId)
    ensures b.serviciosPropiedad(propiedadId).Err? ==>
      r == Err(b.serviciosPropiedad(propiedadId).message) && calls == [FetchServiciosPropiedad(propiedadId)]
    ensures b.serviciosPropiedad(propiedadId).Ok? ==>
      var ss := b.serviciosPropiedad(propiedadId).value;
      && r == Ok(OutcomesOf(b, ss))
      && calls == [FetchServiciosPropiedad(propiedadId)] + PacedCalls(b, ss)
  {
    calls := [FetchServiciosPropiedad(propiedadId)];
    match b.serviciosPropiedad(propiedadId)
    case Err(e) =>
      r := Err(e);
    case Ok(ss) =>
      if |ss| == 0 {
        r := Ok([]);
      } else {
        var outcomes, loopCalls := RunPaced(b, ss);
        r := Ok(outcomes);
        calls := calls + loopCalls;
      }
  }

  /** The summary `procesar_todas_propiedades` returns. */
  datatype Summary = Summary(total: int, exitosos: int, fallidos: int, resultados: seq<ItemOutcome>)

  /** `sum(1 for r in resultados if r["exito"])`. */
  function CountExitosos(outcomes: seq<ItemOutcome>): (n: nat)
    ensures n <= |outcomes|
  {
    if |outcomes| == 0 then 0
    else CountExitosos(outcomes[..|outcomes| - 1]) + (if outcomes[|outcomes| - 1].Succeeded() then 1 else 0)
  }

  /** Number of outcomes whose `exito` is false. */
  function CountFallidos(outcomes: seq<ItemOutcome>): nat
  {
    if |outcomes| == 0 then 0
    else CountFallidos(outcomes[..|outcomes| - 1]) + (if outcomes[|outcomes| - 1].Succeeded() then 0 else 1)
  }

  lemma {:induction false} SuccessesAndFailuresPartition(outcomes: seq<ItemOutcome>)
    ensures CountExitosos(outcomes) + CountFallidos(outcomes) == |outcomes|
  {
    if |outcomes| > 0 {
      SuccessesAndFailuresPartition(outcomes[..|outcomes| - 1]);
    }
  }

  /** The summary of a list of outcomes: `fallidos` is computed as
      `total - exitosos`, which is the number of failed outcomes. */
  function Summarize(outcomes: seq<ItemOutcome>): (r: Summary)
    ensures r.total == |outcomes| && r.resultados == outcomes
    ensures r.exitosos == CountExitosos(outcomes) && r.fallidos == CountFallidos(outcomes)
  {
    SuccessesAndFailuresPartition(outcomes);
    Summary(|outcomes|, CountExitosos(outcomes), |outcomes| - CountExitosos(outcomes), outcomes)
  }

  /** `procesar_todas_propiedades`: every active service is processed in the
      paced loop and the summary counts the outcomes; no services gives the
      all-zero summary. */
  method ProcesarTodasPropiedades(b: Backend) returns (r: Result<Summary>, calls: seq<Call>)
    ensures |calls| >= 1 && calls[0] == FetchServiciosActivos
    ensures b.serviciosActivos.Err? ==> r == Err(b.serviciosActivos.message) && calls == [FetchServiciosActivos]
    ensures b.serviciosActivos == Ok([]) ==> r == Ok(Summary(0, 0, 0, []))
    ensures b.serviciosActivos.Ok? ==>
      var ss := b.serviciosActivos.value;
      && r.Ok? && r.value.resultados == OutcomesOf(b, ss)
      && calls == [FetchServiciosActivos] + PacedCalls(b, ss)
      && r.value.total == |ss|
      && r.value.exitosos == CountExitosos(r.value.resultados)
      && r.value.fallidos == CountFallidos(r.value.resultados)
  {
    calls := [FetchServiciosActivos];
    match b.serviciosActivos {
      case Err(e) =>
        r := Err(e);
      case Ok(ss) =>
        if |ss| == 0 {
          r := Ok(Summary(0, 0, 0, []));
          assert PacedCalls(b, ss) == [];
          assert calls == calls + PacedCalls(b, ss);
        } else {
          var outcomes, loopCalls := RunPaced(b, ss);
          calls := calls + loopCalls;
          r := Ok(Summarize(outcomes));
        }
    }
  }

  // ---------------------------------------------------------------------
  // Parallel fan-out strategy (`procesar_servicios_especificos`)
  // ---------------------------------------------------------------------

  /** The calls made for item `slot` of a fan-out: a runner of its own is
      created, used, and closed in `finally`. */
  function RunnerScope(b: Backend, s: Servicio, slot: nat): seq<Call>
  {
    [OpenRunner(Dedicated(slot))] + ProcessServicio(b, s, Dedicated(slot)).calls + [CloseRunner(Dedicated(slot))]
  }

  /** The fan-out's calls, one runner scope per item in argument order (the
      concurrent interleaving of the scopes is not modelled). */
  function FanOutCalls(b: Backend, ss: seq<Servicio>): seq<Call>
  {
    if |ss| == 0 then []
    else FanOutCalls(b, ss[..|ss| - 1]) + RunnerScope(b, ss[|ss| - 1], |ss| - 1)
  }

  /** In the fan-out every item opens and closes exactly one runner of its
      own and gets one company lookup; the agent runs (and a row is saved)
      once per queryable item; nothing pauses. */
  lemma {:induction false} FanOutCallsCounts(b: Backend, ss: seq<Servicio>)
    ensures CountsAre(FanOutCalls(b, ss), |ss|, CountQueryable(b, ss), 0, |ss|)
  {
    if |ss| > 0 {
      var init := ss[..|ss| - 1];
      var last := |ss| - 1;
      FanOutCallsCounts(b, init);
      ProcessServicioCalls(b, ss[last], Dedicated(last));
      FanOutStep(FanOutCalls(b, init), ProcessServicio(b, ss[last], Dedicated(last)).calls, Dedicated(last),
                 |init|, CountQueryable(b, init), Queryable(b, ss[last]));
    }
  }

  lemma FanOutStep(prev: seq<Call>, item: seq<Call>, runner: Runner, n: nat, q: nat, queried: bool)
    requires CountsAre(prev, n, q, 0, n)
    requires CountsAre(item, 1, if queried then 1 else 0, 0, 0)
    ensures CountsAre(prev + ([OpenRunner(runner)] + item + [CloseRunner(runner)]), n + 1, q + (if queried then 1 else 0), 0, n + 1)
  {
    CountSteps([OpenRunner(runner)], item, [CloseRunner(runner)]);
    CountSingle(OpenRunner(runner));
    CountSingle(CloseRunner(runner));
    forall k: CallKind {
      CountAppend(prev, [OpenRunner(runner)] + item + [CloseRunner(runner)], k);
    }
  }

  /** `procesar_servicios_especificos`: one outcome per FETCHED service (not
      per requested id), in fetch order; each outcome is the one the paced
      loop would produce for that service. A failing fetch propagates. */
  function ProcesarServiciosEspecificos(b: Backend, ids: Option<seq<int>>): (r: (Result<seq<ItemOutcome>>, seq<Call>))
    ensures |r.1| >= 1 && r.1[0] == FetchServiciosPorIds(ids)
    ensures b.serviciosPorIds(ids).Err? ==> r == (Err(b.serviciosPorIds(ids).message), [FetchServiciosPorIds(ids)])
    ensures b.serviciosPorIds(ids).Ok? ==>
      var ss := b.serviciosPorIds(ids).value;
      && r.0 == Ok(OutcomesOf(b, ss))
      && r.1 == [FetchServiciosPorIds(ids)] + FanOutCalls(b, ss)
  {
    match b.serviciosPorIds(ids)
    case Err(e) => (Err(e), [FetchServiciosPorIds(ids)])
    case Ok(ss) =>
      var outcomes := seq(|ss|, i requires 0 <= i < |ss| => ProcessServicio(b, ss[i], Dedicated(i)).outcome);
      assert outcomes == OutcomesOf(b, ss) by {
        OutcomesOfAt(b, ss);
        forall i | 0 <= i < |ss| {
          OutcomeIgnoresRunner(b, ss[i], Dedicated(i), Shared);
        }
      }
      (Ok(outcomes), [FetchServiciosPorIds(ids)] + FanOutCalls(b, ss))
  }
}
