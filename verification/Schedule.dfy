/** The executor's transitions on values: one call, one fetch batch, one round, one run. */
module Schedule {
  import opened Outcomes
  import opened ToolPlans

  datatype State = State(
    pending: seq<ToolCall>,                    // insertion-ordered, popped as calls finish
    completed: set<CallId>,
    raw: map<CallId, RawResponse>,
    extractions: map<CallId, Extraction>,
    derivations: map<CallId, Derivation>,
    skipped: map<CallId, SkippedCall>,
    rawEffects: seq<RawResponse>,
    extractionEffects: seq<Extraction>,
    derivationEffects: seq<Derivation>,
    claims: seq<ClaimEffect>,
    claimants: seq<CallId>,                    // whose claim each entry of `claims` is
    responses: seq<ResponseRef>,
    stored: map<string, RawResponse>,          // the raw response index, by response id
    requested: multiset<CallId>,               // client calls made so far
    log: seq<CallId>)                          // finished calls, in the order they left `pending`

  type Outcome = Attempt<State, ExecutionError>

  function Lookup<V>(table: map<CallId, V>, id: CallId): Option<V> {
    if id in table then Some(table[id]) else None
  }

  /** The source effect a stage handler sees: nothing when the source call was skipped. */
  function Available<V>(table: map<CallId, V>, skipped: map<CallId, SkippedCall>, id: CallId): Option<V> {
    if id in skipped then None else Lookup(table, id)
  }

  function Judge(tools: Tools, call: ToolCall, st: State): Verdict {
    match call.stage
    case Fetch => FetchVerdict(tools, call, call.callId in st.raw)
    case Extract => ExtractVerdict(tools, call, Available(st.raw, st.skipped, SourceOf(call)))
    case Derive => DeriveVerdict(tools, call, Available(st.extractions, st.skipped, SourceOf(call)))
    case Claim => ClaimVerdict(tools, call, Available(st.derivations, st.skipped, SourceOf(call)))
    case Unsupported(_) => Fail(UnsupportedStage(call.callId))
  }

  function StoreFetch(call: ToolCall, raw: RawResponse, st: State): State {
    st.(raw := st.raw[call.callId := raw],
        rawEffects := st.rawEffects + [raw],
        responses := st.responses + [RefTo(raw)],
        stored := st.stored[raw.responseId := raw],
        requested := st.requested + multiset{call.callId})
  }

  function RecordSkip(call: ToolCall, record: SkippedCall, st: State): State {
    st.(skipped := st.skipped[call.callId := record])
  }

  /** A stage handler's effect on the state, short of retiring the call. */
  function Record(call: ToolCall, verdict: Verdict, st: State): Outcome {
    match verdict
    case Fail(error) => Raised(error)
    case Cached => Done(st)
    case Skip(record) => Done(RecordSkip(call, record, st))
    case Fetched(raw) => Done(StoreFetch(call, raw, st))
    case Extracted(effect) =>
      Done(st.(extractions := st.extractions[call.callId := effect],
               extractionEffects := st.extractionEffects + [effect]))
    case Derived(effect) =>
      Done(st.(derivations := st.derivations[call.callId := effect],
               derivationEffects := st.derivationEffects + [effect]))
    case Claimed(effect) =>
      Done(st.(claims := st.claims + [effect], claimants := st.claimants + [call.callId]))
  }

  function Handle(tools: Tools, call: ToolCall, st: State): Outcome {
    Record(call, Judge(tools, call, st), st)
  }

  function Without(calls: seq<ToolCall>, id: CallId): (rest: seq<ToolCall>)
    ensures forall c :: c in rest <==> c in calls && c.callId != id
    ensures |rest| <= |calls|
    ensures (exists c :: c in calls && c.callId == id) ==> |rest| < |calls|
    ensures DistinctIds(calls) ==> DistinctIds(rest)
  {
    if calls == [] then []
    else if calls[0].callId == id then Without(calls[1..], id)
    else
      var tail := Without(calls[1..], id);
      assert forall c :: c in calls[1..] ==> c in calls;
      [calls[0]] + tail
  }

  /** `completed.add(id)` and `pending.pop(id)`. */
  function Retire(id: CallId, st: State): State {
    st.(completed := st.completed + {id}, pending := Without(st.pending, id), log := st.log + [id])
  }

  /** One ready call handled on its own. */
  function Perform(tools: Tools, call: ToolCall, st: State): Outcome {
    match Handle(tools, call, st)
    case Raised(error) => Raised(error)
    case Done(next) => Done(Retire(call.callId, next))
  }

  type Deps = map<CallId, set<CallId>>

  function DepsOf(deps: Deps, id: CallId): set<CallId> {
    if id in deps then deps[id] else {}
  }

  predicate Ready(deps: Deps, call: ToolCall, st: State) {
    DepsOf(deps, call.callId) <= st.completed
  }

  // ----- The fetch batch: sort out the ready calls, then run the rest in parallel

  function ReadyFetches(deps: Deps, calls: seq<ToolCall>, st: State): (ready: seq<ToolCall>)
    ensures forall c :: c in ready <==> c in calls && c.stage.Fetch? && Ready(deps, c, st)
    ensures DistinctIds(calls) ==> DistinctIds(ready)
  {
    if calls == [] then []
    else
      var tail := ReadyFetches(deps, calls[1..], st);
      assert forall c :: c in calls <==> c == calls[0] || c in calls[1..];
      if calls[0].stage.Fetch? && Ready(deps, calls[0], st) then [calls[0]] + tail else tail
  }

  datatype Batch = Batch(executable: seq<ToolCall>, state: State)

  /** The loop that drops cached calls, records skips, and keeps what a client must run. */
  function Triage(tools: Tools, calls: seq<ToolCall>, executable: seq<ToolCall>, st: State)
    : Attempt<Batch, ExecutionError>
  {
    if calls == [] then
      Done(Batch(executable, st))
    else
      var call := calls[0];
      if call.callId in st.raw then
        Triage(tools, calls[1..], executable, st)
      else if call.tool in tools.clients then
        Triage(tools, calls[1..], executable + [call], st)
      else
        match Decline(call, "missing_client", None, MissingClient(call.tool))
        case Fail(error) => Raised(error)
        case Skip(record) => Triage(tools, calls[1..], executable, RecordSkip(call, record, st))
  }

  /** Storing the clients' answers in submission order; the first exception wins. */
  function FetchAll(tools: Tools, calls: seq<ToolCall>, st: State): Outcome {
    if calls == [] then
      Done(st)
    else
      match RunClient(tools, calls[0])
      case Raised(error) => Raised(error)
      case Done(raw) => FetchAll(tools, calls[1..], StoreFetch(calls[0], raw, st))
  }

  function RetireAll(calls: seq<ToolCall>, st: State): State {
    if calls == [] then st else RetireAll(calls[1..], Retire(calls[0].callId, st))
  }

  function FetchBatch(tools: Tools, calls: seq<ToolCall>, st: State): Outcome {
    match Triage(tools, calls, [], st)
    case Raised(error) => Raised(error)
    case Done(batch) => FetchAll(tools, batch.executable, batch.state)
  }

  function FetchRound(tools: Tools, ready: seq<ToolCall>, st: State): Outcome {
    match FetchBatch(tools, ready, st)
    case Raised(error) => Raised(error)
    case Done(next) => Done(RetireAll(ready, next))
  }

  // ----- Rounds and runs

  /** One sweep over a copy of the pending calls, performing those that are ready by then. */
  function Sweep(tools: Tools, deps: Deps, calls: seq<ToolCall>, st: State): Outcome {
    if calls == [] then
      Done(st)
    else if Ready(deps, calls[0], st) then
      match Perform(tools, calls[0], st)
      case Raised(error) => Raised(error)
      case Done(next) => Sweep(tools, deps, calls[1..], next)
    else
      Sweep(tools, deps, calls[1..], st)
  }

  function Round(tools: Tools, deps: Deps, st: State): Outcome {
    var ready := ReadyFetches(deps, st.pending, st);
    if ready != [] then FetchRound(tools, ready, st) else Sweep(tools, deps, st.pending, st)
  }

  function Run(tools: Tools, deps: Deps, st: State): Outcome
    decreases |st.pending|
  {
    if st.pending == [] then
      Done(st)
    else
      match Round(tools, deps, st)
      case Raised(error) => Raised(error)
      case Done(next) =>
        if |next.pending| < |st.pending| then Run(tools, deps, next) else Raised(DependencyCycle)
  }

  // ----- A batch is its calls performed one at a time

  /** The ready calls performed one after the other, each retired before the next starts. */
  function PerformAll(tools: Tools, calls: seq<ToolCall>, st: State): Outcome {
    if calls == [] then
      Done(st)
    else
      match Perform(tools, calls[0], st)
      case Raised(error) => Raised(error)
      case Done(next) => PerformAll(tools, calls[1..], next)
  }

  lemma {:induction false} TriageAppends(tools: Tools, calls: seq<ToolCall>, executable: seq<ToolCall>, st: State)
    ensures match Triage(tools, calls, [], st)
            case Raised(error) => Triage(tools, calls, executable, st) == Raised(error)
            case Done(batch) =>
              Triage(tools, calls, executable, st) == Done(batch.(executable := executable + batch.executable))
  {
    if calls == [] {
      assert executable + [] == executable;
    } else {
      var call := calls[0];
      if call.callId !in st.raw && call.tool in tools.clients {
        TriageAppends(tools, calls[1..], executable + [call], st);
        TriageAppends(tools, calls[1..], [] + [call], st);
        var rest := Triage(tools, calls[1..], [], st);
        if rest.Done? {
          assert executable + ([] + [call] + rest.value.executable) == executable + [call] + rest.value.executable;
        }
      } else if call.callId in st.raw {
        TriageAppends(tools, calls[1..], executable, st);
      } else {
        match Decline(call, "missing_client", None, MissingClient(call.tool))
        case Fail(_) =>
        case Skip(record) => TriageAppends(tools, calls[1..], executable, RecordSkip(call, record, st));
      }
    }
  }

  lemma {:induction false} TriageIgnoresRetire(tools: Tools, calls: seq<ToolCall>, executable: seq<ToolCall>,
                                               id: CallId, st: State)
    ensures Triage(tools, calls, executable, Retire(id, st)) ==
            match Triage(tools, calls, executable, st)
            case Raised(error) => Raised(error)
            case Done(batch) => Done(batch.(state := Retire(id, batch.state)))
  {
    if calls != [] {
      var call := calls[0];
      if call.callId in st.raw {
        TriageIgnoresRetire(tools, calls[1..], executable, id, st);
      } else if call.tool in tools.clients {
        TriageIgnoresRetire(tools, calls[1..], executable + [call], id, st);
      } else {
        match Decline(call, "missing_client", None, MissingClient(call.tool))
        case Fail(_) =>
        case Skip(record) =>
          TriageIgnoresRetire(tools, calls[1..], executable, id, RecordSkip(call, record, st));
      }
    }
  }

  lemma {:induction false} TriageIgnoresStore(
    tools: Tools, calls: seq<ToolCall>, executable: seq<ToolCall>, stored: ToolCall, raw: RawResponse, st: State)
    requires forall c :: c in calls ==> c.callId != stored.callId
    ensures Triage(tools, calls, executable, StoreFetch(stored, raw, st)) ==
            match Triage(tools, calls, executable, st)
            case Raised(error) => Raised(error)
            case Done(batch) => Done(batch.(state := StoreFetch(stored, raw, batch.state)))
  {
    if calls != [] {
      var call := calls[0];
      assert forall c :: c in calls[1..] ==> c in calls;
      if call.callId in st.raw {
        TriageIgnoresStore(tools, calls[1..], executable, stored, raw, st);
      } else if call.tool in tools.clients {
        TriageIgnoresStore(tools, calls[1..], executable + [call], stored, raw, st);
      } else {
        match Decline(call, "missing_client", None, MissingClient(call.tool))
        case Fail(_) =>
        case Skip(record) =>
          TriageIgnoresStore(tools, calls[1..], executable, stored, raw, RecordSkip(call, record, st));
      }
    }
  }

  lemma {:induction false} FetchAllIgnoresRetire(tools: Tools, calls: seq<ToolCall>, id: CallId, st: State)
    ensures FetchAll(tools, calls, Retire(id, st)) ==
            match FetchAll(tools, calls, st)
            case Raised(error) => Raised(error)
            case Done(next) => Done(Retire(id, next))
  {
    if calls != [] {
      var answer := RunClient(tools, calls[0]);
      if answer.Done? {
        FetchAllIgnoresRetire(tools, calls[1..], id, StoreFetch(calls[0], answer.value, st));
      }
    }
  }

  lemma BatchIgnoresRetire(tools: Tools, calls: seq<ToolCall>, id: CallId, st: State)
    ensures FetchBatch(tools, calls, Retire(id, st)) ==
            match FetchBatch(tools, calls, st)
            case Raised(error) => Raised(error)
            case Done(next) => Done(Retire(id, next))
  {
    TriageIgnoresRetire(tools, calls, [], id, st);
    var sorted := Triage(tools, calls, [], st);
    if sorted.Done? {
      FetchAllIgnoresRetire(tools, sorted.value.executable, id, sorted.value.state);
    }
  }

  /**
   Fetching a batch in parallel and storing the answers in submission order leaves exactly the
   state of performing the same calls one at a time, and raises exactly when that raises.
   */
  lemma {:induction false} BatchIsSequential(tools: Tools, calls: seq<ToolCall>, st: State)
    requires DistinctIds(calls)
    requires forall c :: c in calls ==> c.stage.Fetch?
    ensures FetchRound(tools, calls, st).Done? <==> PerformAll(tools, calls, st).Done?
    ensures FetchRound(tools, calls, st).Done? ==>
              FetchRound(tools, calls, st) == PerformAll(tools, calls, st)
  {
    if calls != [] {
      var call, rest := calls[0], calls[1..];
      assert calls == [call] + rest;
      RoundPeels(tools, call, rest, st);
      var performed := Perform(tools, call, st);
      if performed.Done? {
        BatchIsSequential(tools, rest, performed.value);
      }
    }
  }

  /** A batch round performs its first call and is then the round of the others. */
  lemma RoundPeels(tools: Tools, call: ToolCall, rest: seq<ToolCall>, st: State)
    requires call.stage.Fetch?
    requires forall c :: c in rest ==> c.callId != call.callId
    ensures match Perform(tools, call, st)
            case Raised(_) => FetchRound(tools, [call] + rest, st).Raised?
            case Done(next) => FetchRound(tools, [call] + rest, st) == FetchRound(tools, rest, next)
  {
    var calls := [call] + rest;
    assert calls[0] == call && calls[1..] == rest;
    var handled := Handle(tools, call, st);
    if call.callId !in st.raw && call.tool in tools.clients {
      FetchThenBatch(tools, call, rest, st);
    }
    if handled.Done? {
      assert FetchBatch(tools, calls, st) == FetchBatch(tools, rest, handled.value);
      BatchIgnoresRetire(tools, rest, call.callId, handled.value);
    }
  }

  lemma FetchThenBatch(tools: Tools, call: ToolCall, rest: seq<ToolCall>, st: State)
    requires call.callId !in st.raw && call.tool in tools.clients
    requires forall c :: c in rest ==> c.callId != call.callId
    ensures RunClient(tools, call).Raised? ==> FetchBatch(tools, [call] + rest, st).Raised?
    ensures RunClient(tools, call).Done? ==>
              FetchBatch(tools, [call] + rest, st) ==
              FetchBatch(tools, rest, StoreFetch(call, RunClient(tools, call).value, st))
  {
    var calls := [call] + rest;
    assert calls[0] == call && calls[1..] == rest;
    TriageAppends(tools, rest, [] + [call], st);
    var sorted := Triage(tools, rest, [], st);
    if sorted.Done? {
      var executable := [] + [call] + sorted.value.executable;
      assert executable[0] == call && executable[1..] == sorted.value.executable;
    }
    var answer := RunClient(tools, call);
    if answer.Done? {
      TriageIgnoresStore(tools, rest, [], call, answer.value, st);
    }
  }
}
