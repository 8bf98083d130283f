/** The staged plan executor, updating its state in place. */
module Executor {
  import opened Outcomes
  import opened ToolPlans
  import opened Schedule
  import opened Runs
  import opened ResponseCache

  class RawResponseIndex {
    var entries: map<string, RawResponse>

    constructor ()
      ensures entries == map[]
    {
      entries := map[];
    }

    method Get(responseId: string) returns (r: Option<RawResponse>)
      ensures r == if responseId in entries then Some(entries[responseId]) else None
    {
      r := if responseId in entries then Some(entries[responseId]) else None;
    }

    method Store(effect: RawResponse) returns (ref: ResponseRef)
      modifies this
      ensures entries == old(entries)[effect.responseId := effect]
      ensures ref == RefTo(effect)
    {
      entries := entries[effect.responseId := effect];
      ref := ResponseRef(effect.tool, effect.callId, effect.responseId, false);
    }
  }

  class PlanResponseIndex {
    var entries: map<string, seq<ResponseRef>>

    constructor ()
      ensures entries == map[]
    {
      entries := map[];
    }

    method Upsert(planHash: string, refs: seq<ResponseRef>)
      modifies this
      ensures entries == old(entries)[planHash := refs]
    {
      entries := entries[planHash := refs];
    }
  }

  function Minus(calls: seq<ToolCall>, ids: set<CallId>): (rest: seq<ToolCall>)
    ensures forall c :: c in rest <==> c in calls && c.callId !in ids
    ensures DistinctIds(calls) ==> DistinctIds(rest)
  {
    if calls == [] then []
    else
      var tail := Minus(calls[1..], ids);
      assert forall c :: c in calls <==> c == calls[0] || c in calls[1..];
      if calls[0].callId in ids then tail else [calls[0]] + tail
  }

  function Indices(n: nat): (r: set<nat>)
    ensures forall k: nat :: k in r <==> k < n
  {
    if n == 0 then {} else Indices(n - 1) + {n - 1}
  }

  function Elements(ids: seq<CallId>): set<CallId> {
    set id <- ids
  }

  lemma ElementsAppend(ids: seq<CallId>, id: CallId)
    ensures Elements(ids + [id]) == Elements(ids) + {id}
  {
  }

  lemma NoElements(ids: seq<CallId>)
    ensures Elements(ids[..0]) == {}
  {
  }

  function IdsOf(calls: seq<ToolCall>): seq<CallId> {
    if calls == [] then [] else [calls[0].callId] + IdsOf(calls[1..])
  }

  lemma {:induction false} MinusNone(calls: seq<ToolCall>)
    ensures Minus(calls, {}) == calls
  {
    if calls != [] { MinusNone(calls[1..]); }
  }

  lemma {:induction false} MinusOneMore(calls: seq<ToolCall>, ids: set<CallId>, id: CallId)
    ensures Without(Minus(calls, ids), id) == Minus(calls, ids + {id})
  {
    if calls != [] {
      MinusOneMore(calls[1..], ids, id);
      var tail := Minus(calls[1..], ids);
      assert calls[0].callId !in ids ==> ([calls[0]] + tail)[1..] == tail;
    }
  }

  lemma {:induction false} RetireAllFrame(calls: seq<ToolCall>, st: State)
    ensures var next := RetireAll(calls, st);
            next == st.(completed := next.completed, pending := next.pending, log := next.log)
  {
    if calls != [] { RetireAllFrame(calls[1..], Retire(calls[0].callId, st)); }
  }

  lemma {:induction false} RetireAllPending(calls: seq<ToolCall>, ids: set<CallId>, table: seq<ToolCall>, st: State)
    requires st.pending == Minus(table, ids)
    ensures RetireAll(calls, st).pending == Minus(table, ids + Ids(calls))
  {
    if calls == [] {
      assert ids + Ids(calls) == ids;
    } else {
      hide Ids, Minus, Without;
      MinusOneMore(table, ids, calls[0].callId);
      RetireAllPending(calls[1..], ids + {calls[0].callId}, table, Retire(calls[0].callId, st));
      IdsSplit(calls);
      assert ids + {calls[0].callId} + Ids(calls[1..]) == ids + Ids(calls);
    }
  }

  lemma {:induction false} RetireAllCompletes(calls: seq<ToolCall>, st: State)
    ensures RetireAll(calls, st).completed == st.completed + Ids(calls)
  {
    if calls == [] {
      assert Ids(calls) == {};
    } else {
      hide Ids, Without;
      RetireAllCompletes(calls[1..], Retire(calls[0].callId, st));
      IdsSplit(calls);
    }
  }

  lemma {:induction false} RetireAllLogs(calls: seq<ToolCall>, st: State)
    ensures RetireAll(calls, st).log == st.log + IdsOf(calls)
  {
    hide Without;
    if calls == [] {
      assert st.log + [] == st.log;
    } else {
      RetireAllLogs(calls[1..], Retire(calls[0].callId, st));
      assert st.log + [calls[0].callId] + IdsOf(calls[1..]) == st.log + ([calls[0].callId] + IdsOf(calls[1..]));
    }
  }

  /** Retiring a batch removes its calls, in whatever order they are retired. */
  lemma RetireAllShape(calls: seq<ToolCall>, st: State)
    ensures RetireAll(calls, st) ==
            st.(completed := st.completed + Ids(calls),
                pending := Minus(st.pending, Ids(calls)),
                log := st.log + IdsOf(calls))
  {
    MinusNone(st.pending);
    RetireAllPending(calls, {}, st.pending, st);
    RetireAllCompletes(calls, st);
    RetireAllLogs(calls, st);
    RetireAllFrame(calls, st);
    assert {} + Ids(calls) == Ids(calls);
  }

  lemma IdsSplit(calls: seq<ToolCall>)
    requires calls != []
    ensures Ids(calls) == {calls[0].callId} + Ids(calls[1..])
  {
    assert forall c :: c in calls <==> c == calls[0] || c in calls[1..];
  }

  lemma {:induction false} RetireAllShrinks(calls: seq<ToolCall>, st: State)
    ensures |RetireAll(calls, st).pending| <= |st.pending|
    ensures calls != [] && calls[0] in st.pending ==> |RetireAll(calls, st).pending| < |st.pending|
  {
    if calls != [] { RetireAllShrinks(calls[1..], Retire(calls[0].callId, st)); }
  }

  /** How often each call's client is run by a batch. */
  function Submissions(calls: seq<ToolCall>): multiset<CallId> {
    if calls == [] then multiset{}
    else Submissions(calls[..|calls| - 1]) + multiset{calls[|calls| - 1].callId}
  }

  lemma PeelReady(deps: Deps, calls: seq<ToolCall>, i: nat, st: State)
    requires i < |calls|
    ensures ReadyFetches(deps, calls[i..], st) ==
            (if calls[i].stage.Fetch? && Ready(deps, calls[i], st) then [calls[i]] else []) +
            ReadyFetches(deps, calls[i + 1..], st)
  {
    assert calls[i..][0] == calls[i] && calls[i..][1..] == calls[i + 1..];
  }

  lemma FetchAllStep(tools: Tools, calls: seq<ToolCall>, k: nat, st: State)
    requires k < |calls|
    ensures FetchAll(tools, calls[k..], st) ==
            var answer := RunClient(tools, calls[k]);
            if answer.Raised? then Raised(answer.error)
            else FetchAll(tools, calls[k + 1..], StoreFetch(calls[k], answer.value, st))
  {
    assert calls[k..][0] == calls[k] && calls[k..][1..] == calls[k + 1..];
  }

  lemma SubmissionsGrow(calls: seq<ToolCall>, k: nat)
    requires k < |calls|
    ensures Submissions(calls[..k + 1]) == Submissions(calls[..k]) + multiset{calls[k].callId}
  {
    assert calls[..k + 1][..k] == calls[..k];
  }

  /** Storing an answer goes on as the batch does, with the requests counted that it has made by then. */
  lemma FetchAllStores(tools: Tools, calls: seq<ToolCall>, k: nat, st: State, next: State, base: multiset<CallId>)
    requires k < |calls| && RunClient(tools, calls[k]).Done?
    requires next.(requested := multiset{}) ==
      StoreFetch(calls[k], RunClient(tools, calls[k]).value, st).(requested := multiset{})
    ensures FetchAll(tools, calls[k..], st.(requested := base + Submissions(calls[..k]))) ==
      FetchAll(tools, calls[k + 1..], next.(requested := base + Submissions(calls[..k + 1])))
  {
    hide FetchAll, Submissions, RunClient;
    var counted := st.(requested := base + Submissions(calls[..k]));
    FetchAllStep(tools, calls, k, counted);
    SubmissionsGrow(calls, k);
    assert StoreFetch(calls[k], RunClient(tools, calls[k]).value, counted)
      == next.(requested := base + Submissions(calls[..k + 1]));
  }

  /** Where an answer is an exception, the batch raises it. */
  lemma FetchAllRaises(tools: Tools, calls: seq<ToolCall>, k: nat, st: State)
    requires k < |calls| && RunClient(tools, calls[k]).Raised?
    ensures FetchAll(tools, calls[k..], st) == Raised(RunClient(tools, calls[k]).error)
  {
    FetchAllStep(tools, calls, k, st);
  }

  /** A ready call of the sweep is performed, and any other passed over. */
  lemma SweepStep(tools: Tools, deps: Deps, calls: seq<ToolCall>, i: nat, st: State)
    requires i < |calls|
    ensures Sweep(tools, deps, calls[i..], st) ==
      if !Ready(deps, calls[i], st) then Sweep(tools, deps, calls[i + 1..], st)
      else
        var next := Perform(tools, calls[i], st);
        if next.Raised? then Raised(next.error) else Sweep(tools, deps, calls[i + 1..], next.value)
  {
    hide Perform, Ready;
    assert calls[i..][0] == calls[i] && calls[i..][1..] == calls[i + 1..];
  }

  lemma BatchKeepsPending(tools: Tools, calls: seq<ToolCall>, st: State)
    requires FetchBatch(tools, calls, st).Done?
    ensures var next := FetchBatch(tools, calls, st).value;
            next.pending == st.pending && next.completed == st.completed && next.log == st.log
  {
    TriageKeepsPending(tools, calls, [], st);
    var batch := Triage(tools, calls, [], st).value;
    FetchAllKeepsPending(tools, batch.executable, batch.state);
  }

  lemma {:induction false} TriageKeepsPending(tools: Tools, calls: seq<ToolCall>, executable: seq<ToolCall>, st: State)
    requires Triage(tools, calls, executable, st).Done?
    ensures var next := Triage(tools, calls, executable, st).value.state;
            next.pending == st.pending && next.completed == st.completed && next.log == st.log
  {
    if calls != [] {
      var call := calls[0];
      if call.callId in st.raw {
        TriageKeepsPending(tools, calls[1..], executable, st);
      } else if call.tool in tools.clients {
        TriageKeepsPending(tools, calls[1..], executable + [call], st);
      } else {
        var verdict := Decline(call, "missing_client", None, MissingClient(call.tool));
        TriageKeepsPending(tools, calls[1..], executable, RecordSkip(call, verdict.record, st));
      }
    }
  }

  lemma {:induction false} FetchAllKeepsPending(tools: Tools, calls: seq<ToolCall>, st: State)
    requires FetchAll(tools, calls, st).Done?
    ensures var next := FetchAll(tools, calls, st).value;
            next.pending == st.pending && next.completed == st.completed && next.log == st.log
  {
    if calls != [] {
      FetchAllKeepsPending(tools, calls[1..], StoreFetch(calls[0], RunClient(tools, calls[0]).value, st));
    }
  }

  lemma ByCallStep(table: seq<ResponseRef>, refs: seq<ResponseRef>, i: nat)
    requires i < |refs|
    ensures ByCall(table, refs[i..]) == ByCall(PutRef(table, refs[i]), refs[i + 1..])
  {
    assert refs[i..][1..] == refs[i + 1..];
  }

  lemma SeedStep(seeding: Seeding, refs: seq<ResponseRef>, i: nat, stored: map<string, RawResponse>)
    requires i < |refs|
    ensures Seed(seeding, refs[i..], stored) ==
      if refs[i].responseId in stored then
        var raw := stored[refs[i].responseId];
        Seed(Seeding(seeding.seeds[refs[i].callId := raw], seeding.effects + [raw]), refs[i + 1..], stored)
      else Seed(seeding, refs[i + 1..], stored)
  {
    assert refs[i..][1..] == refs[i + 1..];
  }

  class StagedExecution {
    const tools: Tools
    const deps: Deps
    const rawIndex: RawResponseIndex

    var pending: seq<ToolCall>
    var completed: set<CallId>
    var rawByCall: map<CallId, RawResponse>
    var extractionByCall: map<CallId, Extraction>
    var derivationByCall: map<CallId, Derivation>
    var skipped: map<CallId, SkippedCall>

    var rawEffects: seq<RawResponse>
    var extractions: seq<Extraction>
    var derivations: seq<Derivation>
    var claims: seq<ClaimEffect>
    var responses: seq<ResponseRef>

    ghost var claimants: seq<CallId>
    ghost var requested: multiset<CallId>
    ghost var log: seq<CallId>

    ghost function Snapshot(): State
      reads this, rawIndex
    {
      State(pending, completed, rawByCall, extractionByCall, derivationByCall, skipped, rawEffects,
            extractions, derivations, claims, claimants, responses, rawIndex.entries, requested, log)
    }

    /** `_initialize_cache_and_state`: seeds the state from the cached references. */
    constructor (tools: Tools, calls: seq<ToolCall>, deps: Deps, cached: seq<ResponseRef>, rawIndex: RawResponseIndex)
      ensures this.tools == tools && this.deps == deps && this.rawIndex == rawIndex
      ensures Snapshot() == InitialState(calls, cached, rawIndex.entries)
    {
      this.tools, this.deps, this.rawIndex := tools, deps, rawIndex;
      pending, completed := calls, {};
      rawByCall, extractionByCall, derivationByCall, skipped := map[], map[], map[], map[];
      rawEffects, extractions, derivations, claims, responses := [], [], [], [], [];
      claimants, requested, log := [], multiset{}, [];
      new;
      FileReferences(cached);
      SeedResponses();
      completed := rawByCall.Keys;
    }

    /** The dictionary comprehension over the cached references; its values are the references kept. */
    method FileReferences(cached: seq<ResponseRef>)
      modifies this
      ensures Snapshot() == old(Snapshot()).(responses := ByCall(old(responses), cached))
    {
      var i := 0;
      while i < |cached|
        invariant 0 <= i <= |cached|
        invariant ByCall(responses, cached[i..]) == ByCall(old(responses), cached)
        invariant Snapshot() == old(Snapshot()).(responses := responses)
      {
        hide ByCall, PutRef;
        ByCallStep(responses, cached, i);
        responses := PutRef(responses, cached[i]);
        i := i + 1;
      }
      assert cached[i..] == [];
    }

    /** Looks every reference up in the raw response index. */
    method SeedResponses()
      modifies this
      ensures var seeding := Seed(Seeding(old(rawByCall), old(rawEffects)), responses, rawIndex.entries);
        Snapshot() == old(Snapshot()).(raw := seeding.seeds, rawEffects := seeding.effects)
    {
      var i := 0;
      while i < |responses|
        invariant 0 <= i <= |responses| && responses == old(responses)
        invariant Seed(Seeding(rawByCall, rawEffects), responses[i..], rawIndex.entries) ==
          Seed(Seeding(old(rawByCall), old(rawEffects)), responses, rawIndex.entries)
        invariant Snapshot() == old(Snapshot()).(raw := rawByCall, rawEffects := rawEffects)
      {
        hide Seed;
        var ref := responses[i];
        SeedStep(Seeding(rawByCall, rawEffects), responses, i, rawIndex.entries);
        var found := rawIndex.Get(ref.responseId);
        if found.Some? {
          rawByCall := rawByCall[ref.callId := found.value];
          rawEffects := rawEffects + [found.value];
        }
        i := i + 1;
      }
      assert responses[i..] == [];
    }

    method RecordSkipped(call: ToolCall, reason: string, source: Option<CallId>)
      modifies this
      ensures Snapshot() ==
        RecordSkip(call, SkippedCall(call.callId, call.tool, call.stage, reason, source), old(Snapshot()))
    {
      skipped := skipped[call.callId := SkippedCall(call.callId, call.tool, call.stage, reason, source)];
    }

    method StoreFetchEffect(call: ToolCall, effect: RawResponse)
      modifies this, rawIndex
      ensures Snapshot().(requested := multiset{}) ==
        StoreFetch(call, effect, old(Snapshot())).(requested := multiset{})
      ensures requested == old(requested)
    {
      var ref := rawIndex.Store(effect);
      rawEffects := rawEffects + [effect];
      rawByCall := rawByCall[call.callId := effect];
      responses := responses + [ref];
    }

    /** The state a stage handler leaves: skips and cached fetches also mark the call completed. */
    ghost predicate Recorded(id: CallId, next: State, before: set<CallId>)
      reads this, rawIndex
    {
      && Snapshot().(completed := next.completed) == next
      && before <= completed <= before + {id}
      && next.completed == before
    }

    /** Skips an optional call that cannot run, and raises for a required one. */
    method DeclineCall(call: ToolCall, reason: string, source: Option<CallId>, error: ExecutionError)
      returns (r: Attempt<bool, ExecutionError>)
      modifies this
      ensures match Record(call, Decline(call, reason, source, error), old(Snapshot()))
              case Raised(error) => r == Raised(error)
              case Done(next) => r == Done(true) && Recorded(call.callId, next, old(completed))
    {
      if !call.optional {
        return Raised(error);
      }
      RecordSkipped(call, reason, source);
      completed := completed + {call.callId};
      return Done(true);
    }

    method HandleFetchStage(call: ToolCall) returns (r: Attempt<bool, ExecutionError>)
      requires call.stage.Fetch?
      modifies this, rawIndex
      ensures match Handle(tools, call, old(Snapshot()))
              case Raised(error) => r == Raised(error)
              case Done(next) => r == Done(true) && Recorded(call.callId, next, old(completed))
    {
      hide ExtractVerdict, DeriveVerdict, ClaimVerdict, Decline;
      if call.callId in rawByCall {
        completed := completed + {call.callId};
        return Done(true);
      }
      if call.tool !in tools.clients {
        r := DeclineCall(call, "missing_client", None, MissingClient(call.tool));
        return;
      }
      var answer := RunClient(tools, call);
      requested := requested + multiset{call.callId};
      if answer.Raised? {
        return Raised(answer.error);
      }
      StoreFetchEffect(call, answer.value);
      return Done(true);
    }

    method HandleExtractStage(call: ToolCall) returns (r: Attempt<bool, ExecutionError>)
      requires call.stage.Extract?
      modifies this
      ensures match Handle(tools, call, old(Snapshot()))
              case Raised(error) => r == Raised(error)
              case Done(next) => r == Done(true) && Recorded(call.callId, next, old(completed))
    {
      hide FetchVerdict, DeriveVerdict, ClaimVerdict, Decline;
      var handler := tools.extract.Get(call.tool);
      if handler.None? {
        r := DeclineCall(call, "missing_extract_handler", None, MissingHandler(Extract, call.tool));
        return;
      }
      var source := SourceOf(call);
      if source in skipped {
        r := DeclineCall(call, "missing_source_extract", Some(source), MissingSource(call.callId));
        return;
      }
      if source !in rawByCall {
        r := DeclineCall(call, "missing_source_extract", Some(source), MissingSource(call.callId));
        return;
      }
      var answer := handler.value.run(call, rawByCall[source]);
      if answer.Raised? {
        return Raised(ToolFailure(answer.error));
      }
      var extraction := answer.value;
      if handler.value.version.Some? {
        extraction := extraction.(handlerVersion := handler.value.version);
      }
      extractions := extractions + [extraction];
      extractionByCall := extractionByCall[call.callId := extraction];
      return Done(true);
    }

    method HandleDeriveStage(call: ToolCall) returns (r: Attempt<bool, ExecutionError>)
      requires call.stage.Derive?
      modifies this
      ensures match Handle(tools, call, old(Snapshot()))
              case Raised(error) => r == Raised(error)
              case Done(next) => r == Done(true) && Recorded(call.callId, next, old(completed))
    {
      hide FetchVerdict, ExtractVerdict, ClaimVerdict, Decline;
      var handler := tools.derive.Get(call.tool);
      if handler.None? {
        r := DeclineCall(call, "missing_derive_handler", None, MissingHandler(Derive, call.tool));
        return;
      }
      var source := SourceOf(call);
      if source in skipped {
        r := DeclineCall(call, "missing_source_derive", Some(source), MissingSource(call.callId));
        return;
      }
      if source !in extractionByCall {
        r := DeclineCall(call, "missing_source_derive", Some(source), MissingSource(call.callId));
        return;
      }
      var answer := handler.value.run(call, extractionByCall[source]);
      if answer.Raised? {
        return Raised(ToolFailure(answer.error));
      }
      var derivation := answer.value;
      if handler.value.version.Some? {
        derivation := derivation.(handlerVersion := handler.value.version);
      }
      derivations := derivations + [derivation];
      derivationByCall := derivationByCall[call.callId := derivation];
      return Done(true);
    }

    method HandleClaimStage(call: ToolCall) returns (r: Attempt<bool, ExecutionError>)
      requires call.stage.Claim?
      modifies this
      ensures match Handle(tools, call, old(Snapshot()))
              case Raised(error) => r == Raised(error)
              case Done(next) => r == Done(true) && Recorded(call.callId, next, old(completed))
    {
      hide FetchVerdict, ExtractVerdict, DeriveVerdict, Decline;
      var handler := tools.claim.Get(call.tool);
      if handler.None? {
        r := DeclineCall(call, "missing_claim_handler", None, MissingHandler(Claim, call.tool));
        return;
      }
      var source := SourceOf(call);
      if source in skipped {
        r := DeclineCall(call, "missing_source_claim", Some(source), MissingSource(call.callId));
        return;
      }
      if source !in derivationByCall {
        r := DeclineCall(call, "missing_source_claim", Some(source), MissingSource(call.callId));
        return;
      }
      var answer := handler.value.run(call, derivationByCall[source]);
      if answer.Raised? {
        return Raised(ToolFailure(answer.error));
      }
      var claim := answer.value;
      if handler.value.version.Some? {
        claim := claim.(handlerVersion := handler.value.version);
      }
      claims := claims + [claim];
      claimants := claimants + [call.callId];
      return Done(true);
    }

    /**
     Runs a batch of ready fetch calls. The futures complete in any order; their answers are
     stored in the order the calls were submitted.
     */
    method HandleReadyFetchCalls(calls: seq<ToolCall>) returns (r: Attempt<seq<CallId>, ExecutionError>)
      requires forall c :: c in calls ==> c.stage.Fetch?
      modifies this, rawIndex
      ensures match FetchBatch(tools, calls, old(Snapshot()))
              case Raised(error) => r == Raised(error)
              case Done(next) => r.Done? && Snapshot() == next && Elements(r.value) == Ids(calls)
    {
      hide Triage, FetchAll, Submissions, Ids, Elements;
      var sorted := SortOut(calls);
      if sorted.Raised? {
        return Raised(sorted.error);
      }
      var (processed, executable) := sorted.value;
      label Sorted:
      var answers := RunInPool(executable);
      assert Snapshot() == old@Sorted(Snapshot()).(requested := requested);
      r := StoreAnswers(executable, answers, processed, old@Sorted(Snapshot()));
    }

    /** Drops cached calls, records skips, and keeps the calls a client must run. */
    method SortOut(calls: seq<ToolCall>)
      returns (r: Attempt<(seq<CallId>, seq<ToolCall>), ExecutionError>)
      modifies this
      ensures match Triage(tools, calls, [], old(Snapshot()))
              case Raised(error) => r == Raised(error)
              case Done(batch) =>
                && r.Done?
                && batch == Batch(r.value.1, Snapshot())
                && Elements(r.value.0) + Ids(r.value.1) == Ids(calls)
    {
      var processed: seq<CallId> := [];
      var executable: seq<ToolCall> := [];
      var i := 0;
      while i < |calls|
        invariant 0 <= i <= |calls|
        invariant Triage(tools, calls[i..], executable, Snapshot()) == Triage(tools, calls, [], old(Snapshot()))
        invariant Elements(processed) + Ids(executable) == Ids(calls[..i])
      {
        hide Ids, Elements;
        var call := calls[i];
        IdsGrow(calls, i);
        ElementsAppend(processed, call.callId);
        IdsAppend(executable, call);
        assert calls[i..][0] == call && calls[i..][1..] == calls[i + 1..];
        if call.callId in rawByCall {
          processed := processed + [call.callId];
        } else if call.tool !in tools.clients {
          if !call.optional {
            return Raised(MissingClient(call.tool));
          }
          RecordSkipped(call, "missing_client", None);
          processed := processed + [call.callId];
        } else {
          executable := executable + [call];
        }
        i := i + 1;
      }
      assert calls[i..] == [] && calls[..i] == calls;
      return Done((processed, executable));
    }

    /** Stores the pool's answers in submission order, up to the first exception. */
    method StoreAnswers(
      calls: seq<ToolCall>, answers: seq<Attempt<RawResponse, ExecutionError>>, before: seq<CallId>, ghost st: State)
      returns (r: Attempt<seq<CallId>, ExecutionError>)
      requires |answers| == |calls|
      requires forall k :: 0 <= k < |calls| ==> answers[k] == RunClient(tools, calls[k])
      requires requested == st.requested + Submissions(calls)
      requires Snapshot() == st.(requested := requested)
      modifies this, rawIndex
      ensures match FetchAll(tools, calls, st)
              case Raised(error) => r == Raised(error)
              case Done(next) => r.Done? && Snapshot() == next && Elements(r.value) == Elements(before) + Ids(calls)
    {
      var processed := before;
      var k := 0;
      assert calls[k..] == calls && calls[..k] == [];
      assert Snapshot().(requested := st.requested + Submissions(calls[..k])) == st;
      while k < |calls|
        invariant 0 <= k <= |calls|
        invariant Elements(processed) == Elements(before) + Ids(calls[..k])
        invariant requested == st.requested + Submissions(calls)
        invariant FetchAll(tools, calls[k..], Snapshot().(requested := st.requested + Submissions(calls[..k]))) ==
          FetchAll(tools, calls, st)
      {
        hide Ids, Elements, RunClient, Submissions, FetchAll, StoreFetch;
        var call := calls[k];
        ghost var now := Snapshot();
        IdsGrow(calls, k);
        ElementsAppend(processed, call.callId);
        if answers[k].Raised? {
          FetchAllRaises(tools, calls, k, now.(requested := st.requested + Submissions(calls[..k])));
          return Raised(answers[k].error);
        }
        StoreFetchEffect(call, answers[k].value);
        FetchAllStores(tools, calls, k, now, Snapshot(), st.requested);
        processed := processed + [call.callId];
        k := k + 1;
      }
      assert calls[..k] == calls && calls[k..] == [];
      return Done(processed);
    }

    /** The thread pool: calls are submitted in order and finish in any order. */
    method RunInPool(calls: seq<ToolCall>) returns (answers: seq<Attempt<RawResponse, ExecutionError>>)
      modifies this`requested
      ensures |answers| == |calls|
      ensures forall k :: 0 <= k < |calls| ==> answers[k] == RunClient(tools, calls[k])
      ensures requested == old(requested) + Submissions(calls)
    {
      Submit(calls);
      var results: map<nat, Attempt<RawResponse, ExecutionError>> := map[];
      var running := Indices(|calls|);
      while running != {}
        invariant running <= Indices(|calls|)
        invariant forall k :: 0 <= k < |calls| && k !in running ==>
          k in results && results[k] == RunClient(tools, calls[k])
      {
        hide RunClient;
        var k :| k in running;
        results := results[k := RunClient(tools, calls[k])];
        running := running - {k};
      }
      answers := seq(|calls|, k requires 0 <= k < |calls| && k in results => results[k]);
    }

    /** Each call is submitted once. */
    method Submit(calls: seq<ToolCall>)
      modifies this`requested
      ensures requested == old(requested) + Submissions(calls)
    {
      var i := 0;
      while i < |calls|
        invariant 0 <= i <= |calls|
        invariant requested == old(requested) + Submissions(calls[..i])
      {
        hide Submissions;
        SubmissionsGrow(calls, i);
        requested := requested + multiset{calls[i].callId};
        i := i + 1;
      }
      assert calls[..i] == calls;
    }

    /** One iteration over the pending calls; returns whether any call was finished. */
    method ProcessPendingCalls() returns (r: Attempt<bool, ExecutionError>)
      requires DistinctIds(pending)
      modifies this, rawIndex
      ensures match Round(tools, deps, old(Snapshot()))
              case Raised(error) => r == Raised(error)
              case Done(next) =>
                && Snapshot() == next
                && DistinctIds(pending)
                && |pending| <= |old(pending)|
                && r == Done(|pending| < |old(pending)|)
    {
      hide FetchRound, Sweep;
      var ready := CollectReadyFetches();
      if ready != [] {
        r := ProcessBatch(ready);
      } else {
        r := SweepPending();
      }
    }

    method CollectReadyFetches() returns (ready: seq<ToolCall>)
      ensures ready == ReadyFetches(deps, pending, Snapshot())
    {
      ghost var st := Snapshot();
      var calls := pending;
      ready := [];
      var i := 0;
      while i < |calls|
        invariant 0 <= i <= |calls|
        invariant ready + ReadyFetches(deps, calls[i..], st) == ReadyFetches(deps, calls, st)
      {
        hide ReadyFetches;
        PeelReady(deps, calls, i, st);
        if calls[i].stage.Fetch? && DepsOf(deps, calls[i].callId) <= completed {
          ready := ready + [calls[i]];
        }
        i := i + 1;
      }
      assert calls[i..] == [];
    }

    method ProcessBatch(ready: seq<ToolCall>) returns (r: Attempt<bool, ExecutionError>)
      requires ready != [] && DistinctIds(pending)
      requires forall c :: c in ready ==> c.stage.Fetch? && c in pending
      modifies this, rawIndex
      ensures match FetchRound(tools, ready, old(Snapshot()))
              case Raised(error) => r == Raised(error)
              case Done(next) =>
                && Snapshot() == next
                && DistinctIds(pending)
                && |pending| < |old(pending)|
                && r == Done(true)
    {
      hide FetchBatch, Triage, FetchAll, RetireAll, Ids;
      var answer := HandleReadyFetchCalls(ready);
      if answer.Raised? {
        return Raised(answer.error);
      }
      ghost var batch := Snapshot();
      BatchKeepsPending(tools, ready, old(Snapshot()));
      RetireProcessed(answer.value);
      log := log + IdsOf(ready);
      RetireAllShape(ready, batch);
      RetireAllShrinks(ready, batch);
      assert ready[0] in ready;
      return Done(true);
    }

    /** Marks the processed calls completed and pops them, one after the other. */
    method RetireProcessed(processed: seq<CallId>)
      modifies this`completed, this`pending
      ensures completed == old(completed) + Elements(processed)
      ensures pending == Minus(old(pending), Elements(processed))
    {
      hide Elements, Minus, Without, DistinctIds;
      ghost var table, done := pending, completed;
      MinusNone(table);
      NoElements(processed);
      var i := 0;
      while i < |processed|
        invariant 0 <= i <= |processed|
        invariant completed == done + Elements(processed[..i])
        invariant pending == Minus(table, Elements(processed[..i]))
      {
        assert processed[..i + 1] == processed[..i] + [processed[i]];
        ElementsAppend(processed[..i], processed[i]);
        MinusOneMore(table, Elements(processed[..i]), processed[i]);
        completed := completed + {processed[i]};
        pending := Without(pending, processed[i]);
        i := i + 1;
      }
      assert processed[..i] == processed;
    }

    method SweepPending() returns (r: Attempt<bool, ExecutionError>)
      requires DistinctIds(pending)
      modifies this, rawIndex
      ensures match Sweep(tools, deps, old(pending), old(Snapshot()))
              case Raised(error) => r == Raised(error)
              case Done(next) =>
                && Snapshot() == next
                && DistinctIds(pending)
                && |pending| <= |old(pending)|
                && r == Done(|pending| < |old(pending)|)
    {
      hide Perform;
      var calls := pending;
      var progressed := false;
      var i := 0;
      while i < |calls|
        invariant 0 <= i <= |calls|
        invariant Sweep(tools, deps, calls[i..], Snapshot()) == Sweep(tools, deps, calls, old(Snapshot()))
        invariant DistinctIds(pending) && |pending| <= |old(pending)|
        invariant forall k :: i <= k < |calls| ==> calls[k] in pending
        invariant progressed <==> |pending| < |old(pending)|
      {
        hide Sweep, DistinctIds;
        var call := calls[i];
        SweepStep(tools, deps, calls, i, Snapshot());
        if DepsOf(deps, call.callId) <= completed {
          var answer := FinishCall(call);
          if answer.Raised? {
            return Raised(answer.error);
          }
          progressed := true;
        }
        i := i + 1;
      }
      assert calls[i..] == [];
      return Done(progressed);
    }

    /** Handles a ready call, marks it completed and pops it. */
    method FinishCall(call: ToolCall) returns (r: Attempt<(), ExecutionError>)
      requires call in pending && DistinctIds(pending)
      modifies this, rawIndex
      ensures match Perform(tools, call, old(Snapshot()))
              case Raised(error) => r == Raised(error)
              case Done(next) => r.Done? && Snapshot() == next
      ensures r.Done? ==>
                && DistinctIds(pending)
                && |pending| < |old(pending)|
                && forall c :: c in old(pending) && c.callId != call.callId ==> c in pending
    {
      hide Handle;
      var answer := HandleCall(call);
      if answer.Raised? {
        return Raised(answer.error);
      }
      completed := completed + {call.callId};
      pending := Without(pending, call.callId);
      log := log + [call.callId];
      PerformShape(tools, call, old(Snapshot()));
      return Done(());
    }

    method HandleCall(call: ToolCall) returns (r: Attempt<bool, ExecutionError>)
      modifies this, rawIndex
      ensures match Handle(tools, call, old(Snapshot()))
              case Raised(error) => r == Raised(error)
              case Done(next) => r == Done(true) && Recorded(call.callId, next, old(completed))
    {
      match call.stage
      case Fetch => r := HandleFetchStage(call);
      case Extract => r := HandleExtractStage(call);
      case Derive => r := HandleDeriveStage(call);
      case Claim => r := HandleClaimStage(call);
      case Unsupported(_) => r := Raised(UnsupportedStage(call.callId));
    }

    /** The executor's main loop. */
    method RunToEnd() returns (r: Attempt<(), ExecutionError>, ghost rounds: nat)
      requires DistinctIds(pending)
      modifies this, rawIndex
      ensures match Run(tools, deps, old(Snapshot()))
              case Raised(error) => r == Raised(error)
              case Done(final) => r == Done(()) && Snapshot() == final
      ensures rounds == Rounds(tools, deps, old(Snapshot())) && rounds <= |old(pending)|
    {
      rounds := 0;
      RoundsBounded(tools, deps, Snapshot());
      while pending != []
        invariant DistinctIds(pending)
        invariant Run(tools, deps, Snapshot()) == Run(tools, deps, old(Snapshot()))
        invariant rounds + Rounds(tools, deps, Snapshot()) == Rounds(tools, deps, old(Snapshot()))
        decreases |pending|
      {
        hide Round;
        var round := ProcessPendingCalls();
        rounds := rounds + 1;
        if round.Raised? {
          return Raised(round.error), rounds;
        }
        if !round.value {
          return Raised(DependencyCycle), rounds;
        }
      }
      return Done(()), rounds;
    }
  }

  lemma IdsAppend(calls: seq<ToolCall>, call: ToolCall)
    ensures Ids(calls + [call]) == Ids(calls) + {call.callId}
  {
    assert forall c :: c in calls + [call] <==> c in calls || c == call;
  }

  lemma IdsGrow(calls: seq<ToolCall>, i: nat)
    requires i < |calls|
    ensures Ids(calls[..i + 1]) == Ids(calls[..i]) + {calls[i].callId}
  {
    assert calls[..i + 1] == calls[..i] + [calls[i]];
    IdsAppend(calls[..i], calls[i]);
  }

  // ----- The plan's tables

  function TableOf(table: seq<ToolCall>, calls: seq<ToolCall>): (r: seq<ToolCall>)
    requires DistinctIds(table)
    ensures DistinctIds(r)
    decreases |calls|
  {
    if calls == [] then table else TableOf(Put(table, calls[0]), calls[1..])
  }

  /** A plan whose call ids are distinct is its own table, in its own order. */
  lemma {:induction false} DistinctPlanIsTable(table: seq<ToolCall>, calls: seq<ToolCall>)
    requires DistinctIds(table) && DistinctIds(table + calls)
    ensures TableOf(table, calls) == table + calls
    decreases |calls|
  {
    if calls == [] {
      assert table + calls == table;
    } else {
      forall i | 0 <= i < |table| ensures table[i].callId != calls[0].callId {
        assert (table + calls)[i].callId != (table + calls)[|table|].callId;
      }
      assert DistinctIds(Put(table, calls[0]));
      assert table + [calls[0]] + calls[1..] == table + calls;
      DistinctPlanIsTable(table + [calls[0]], calls[1..]);
    }
  }

  function AddDependency(deps: Deps, dep: Dependency): Deps {
    deps[dep.toCallId := DepsOf(deps, dep.toCallId) + {dep.fromCallId}]
  }

  function AddDependencies(deps: Deps, dependencies: seq<Dependency>): Deps
    decreases |dependencies|
  {
    if dependencies == [] then deps
    else AddDependencies(AddDependency(deps, dependencies[0]), dependencies[1..])
  }

  function DepsTable(plan: ToolPlan): Deps {
    AddDependencies(map id | id in Ids(plan.toolCalls) :: {}, plan.dependencies)
  }

  /** A call's dependencies are exactly those the plan lists for it. */
  lemma {:induction false} DependenciesAsListed(deps: Deps, dependencies: seq<Dependency>, id: CallId, from: CallId)
    ensures from in DepsOf(AddDependencies(deps, dependencies), id) <==>
            from in DepsOf(deps, id) || Dependency(from, id) in dependencies
    decreases |dependencies|
  {
    if dependencies != [] {
      DependenciesAsListed(AddDependency(deps, dependencies[0]), dependencies[1..], id, from);
    }
  }

  // ----- The whole execution

  datatype Artifacts = Artifacts(
    planHash: string,
    rawEffects: seq<RawResponse>,
    extractions: seq<Extraction>,
    derivations: seq<Derivation>,
    claims: seq<ClaimEffect>,
    skippedCalls: map<CallId, SkippedCall>,
    responses: seq<ResponseRef>,
    fromCache: bool)

  function ArtifactsOf(planHash: string, fromCache: bool, final: State): Artifacts {
    Artifacts(planHash, final.rawEffects, final.extractionEffects, final.derivationEffects, final.claims,
              final.skipped, final.responses, fromCache)
  }

  function CachedRefs(entries: map<string, seq<ResponseRef>>, planHash: string): seq<ResponseRef> {
    if planHash in entries then entries[planHash] else []
  }

  method BuildTables(plan: ToolPlan) returns (table: seq<ToolCall>, deps: Deps)
    ensures DistinctIds(table)
    ensures table == TableOf([], plan.toolCalls)
    ensures deps == DepsTable(plan)
  {
    table := [];
    var i := 0;
    while i < |plan.toolCalls|
      invariant 0 <= i <= |plan.toolCalls|
      invariant DistinctIds(table)
      invariant TableOf(table, plan.toolCalls[i..]) == TableOf([], plan.toolCalls)
    {
      table := Put(table, plan.toolCalls[i]);
      i := i + 1;
    }
    assert plan.toolCalls[i..] == [];
    deps := map id | id in Ids(plan.toolCalls) :: {};
    i := 0;
    while i < |plan.dependencies|
      invariant 0 <= i <= |plan.dependencies|
      invariant AddDependencies(deps, plan.dependencies[i..]) == DepsTable(plan)
    {
      deps := AddDependency(deps, plan.dependencies[i]);
      i := i + 1;
    }
    assert plan.dependencies[i..] == [];
  }

  /**
   `execute_plan_staged`: seed the state from the plan response index when the cache is allowed,
   run the plan, and on success record its response references under the plan's hash.
   */
  method ExecutePlanStaged(
    plan: ToolPlan, stableHash: string, tools: Tools, rawIndex: RawResponseIndex,
    planIndex: PlanResponseIndex?, allowCache: bool)
    returns (r: Attempt<Artifacts, ExecutionError>)
    modifies rawIndex, planIndex
    ensures var planHash := if plan.planHash != "" then plan.planHash else stableHash;
            var cached := if allowCache && planIndex != null then CachedRefs(old(planIndex.entries), planHash) else [];
            var start := InitialState(TableOf([], plan.toolCalls), cached, old(rawIndex.entries));
            match Run(tools, DepsTable(plan), start)
            case Raised(error) =>
              r == Raised(error) && (planIndex != null ==> planIndex.entries == old(planIndex.entries))
            case Done(final) =>
              && r == Done(ArtifactsOf(planHash, cached != [], final))
              && rawIndex.entries == final.stored
              && (planIndex != null ==>
                    planIndex.entries ==
                      if final.rawEffects != []
                      then old(planIndex.entries)[planHash := final.responses]
                      else old(planIndex.entries))
  {
    var planHash := if plan.planHash != "" then plan.planHash else stableHash;
    var cached: seq<ResponseRef> := [];
    if allowCache && planIndex != null {
      cached := CachedRefs(planIndex.entries, planHash);
    }
    var table, deps := BuildTables(plan);
    var execution := new StagedExecution(tools, table, deps, cached, rawIndex);
    ghost var rounds: nat;
    var outcome: Attempt<(), ExecutionError>;
    outcome, rounds := execution.RunToEnd();
    if outcome.Raised? {
      return Raised(outcome.error);
    }
    if planIndex != null && execution.rawEffects != [] {
      planIndex.Upsert(planHash, execution.responses);
    }
    return Done(Artifacts(planHash, execution.rawEffects, execution.extractions, execution.derivations,
                          execution.claims, execution.skipped, execution.responses, cached != []));
  }
}
