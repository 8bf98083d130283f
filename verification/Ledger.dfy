/** What every step of a run keeps, for any plan, any dependencies and any cached responses. */
module Ledger {
  import opened Outcomes
  import opened ToolPlans
  import opened Schedule

  /** A run's fixed inputs: tools, the plan's calls, its dependencies, and the cached responses. */
  datatype Job = Job(tools: Tools, calls: seq<ToolCall>, deps: Deps, seeds: map<CallId, RawResponse>)

  function FindCall(calls: seq<ToolCall>, id: CallId): (r: Option<ToolCall>)
    ensures r.Some? ==> r.value in calls && r.value.callId == id
    ensures r.None? ==> forall c :: c in calls ==> c.callId != id
  {
    if calls == [] then None
    else if calls[0].callId == id then Some(calls[0])
    else FindCall(calls[1..], id)
  }

  lemma {:induction false} FindsItsCall(calls: seq<ToolCall>, call: ToolCall)
    requires DistinctIds(calls) && call in calls
    ensures FindCall(calls, call.callId) == Some(call)
  {
    if calls[0] != call {
      var k :| 0 <= k < |calls| && calls[k] == call;
      assert calls[0].callId != calls[k].callId;
      FindsItsCall(calls[1..], call);
    }
  }

  function Logged(st: State): set<CallId> {
    set id <- st.log
  }

  predicate DistinctLog(log: seq<CallId>) {
    forall i, j :: 0 <= i < j < |log| ==> log[i] != log[j]
  }

  /** The plan's calls are split between `pending` and `log`; completed calls are logged or cached. */
  ghost predicate Booked(job: Job, st: State) {
    && DistinctIds(job.calls)
    && DistinctIds(st.pending)
    && DistinctLog(st.log)
    && (forall id :: id in st.log ==> FindCall(job.calls, id).Some?)
    && (forall c :: c in st.pending <==> c in job.calls && c.callId !in st.log)
    && st.completed == job.seeds.Keys + Logged(st)
  }

  /** Every logged call found its dependencies already logged, or cached before the run. */
  ghost predicate Topological(job: Job, st: State) {
    forall i :: 0 <= i < |st.log| ==>
      DepsOf(job.deps, st.log[i]) <= job.seeds.Keys + set id <- st.log[..i]
  }

  ghost predicate Executed(call: ToolCall, st: State) {
    match call.stage
    case Fetch => call.callId in st.raw
    case Extract => call.callId in st.extractions
    case Derive => call.callId in st.derivations
    case Claim => call.callId in st.claimants
    case Unsupported(_) => false
  }

  /** A logged call was executed or skipped, not both, and only optional calls are skipped. */
  ghost predicate Settled(job: Job, st: State) {
    && (forall c :: c in job.calls && c.callId in st.log ==>
          && (Executed(c, st) <==> c.callId !in st.skipped)
          && (c.callId in st.skipped ==> c.optional))
    && (forall id :: id in st.skipped ==> id in st.log)
  }

  /** Raw responses are the cached ones and what the clients answered. */
  ghost predicate RawTraced(job: Job, st: State) {
    && (forall id :: id in job.seeds ==> id in st.raw && st.raw[id] == job.seeds[id])
    && (forall id :: id in st.raw && id !in job.seeds ==>
          && id in st.log
          && var call := FindCall(job.calls, id);
          && call.Some?
          && call.value.stage.Fetch?
          && RunClient(job.tools, call.value) == Done(st.raw[id]))
  }

  ghost predicate ExtractionTraced(job: Job, st: State, id: CallId)
    requires id in st.extractions
  {
    && id in st.log
    && var call := FindCall(job.calls, id);
    && call.Some?
    && call.value.stage.Extract?
    && SourceOf(call.value) in st.raw
    && ExtractVerdict(job.tools, call.value, Some(st.raw[SourceOf(call.value)])) == Extracted(st.extractions[id])
  }

  ghost predicate DerivationTraced(job: Job, st: State, id: CallId)
    requires id in st.derivations
  {
    && id in st.log
    && var call := FindCall(job.calls, id);
    && call.Some?
    && call.value.stage.Derive?
    && SourceOf(call.value) in st.extractions
    && DeriveVerdict(job.tools, call.value, Some(st.extractions[SourceOf(call.value)])) ==
       Derived(st.derivations[id])
  }

  ghost predicate ClaimTraced(job: Job, st: State, k: nat)
    requires k < |st.claims| == |st.claimants|
  {
    && st.claimants[k] in st.log
    && var call := FindCall(job.calls, st.claimants[k]);
    && call.Some?
    && call.value.stage.Claim?
    && SourceOf(call.value) in st.derivations
    && ClaimVerdict(job.tools, call.value, Some(st.derivations[SourceOf(call.value)])) == Claimed(st.claims[k])
  }

  /** Each effect came from its handler, run on the effect recorded for the call's source. */
  ghost predicate Traced(job: Job, st: State) {
    && RawTraced(job, st)
    && (forall id :: id in st.extractions ==> ExtractionTraced(job, st, id))
    && (forall id :: id in st.derivations ==> DerivationTraced(job, st, id))
    && |st.claims| == |st.claimants|
    && DistinctLog(st.claimants)
    && (forall k :: 0 <= k < |st.claims| ==> ClaimTraced(job, st, k))
  }

  /** Clients were called once for each executed fetch that was not cached, and never otherwise. */
  ghost predicate Metered(job: Job, st: State) {
    forall id :: st.requested[id] == if id in st.raw && id !in job.seeds then 1 else 0
  }

  ghost predicate Kept(job: Job, st: State) {
    && Booked(job, st)
    && Topological(job, st)
    && Settled(job, st)
    && Traced(job, st)
    && Metered(job, st)
  }

  /** The state in which a run starts. */
  ghost predicate Starts(job: Job, st: State) {
    && DistinctIds(job.calls)
    && st.pending == job.calls
    && st.completed == job.seeds.Keys
    && st.raw == job.seeds
    && st.extractions == map[]
    && st.derivations == map[]
    && st.skipped == map[]
    && st.claims == []
    && st.claimants == []
    && st.requested == multiset{}
    && st.log == []
  }

  lemma StartKeeps(job: Job, st: State)
    requires Starts(job, st)
    ensures Kept(job, st)
  {
    forall c | c in job.calls ensures FindCall(job.calls, c.callId) == Some(c) {
      FindsItsCall(job.calls, c);
    }
  }

  // ----- One performed call keeps the ledger

  /** What retiring a call does to the books, whatever its verdict was. */
  ghost predicate Advances(call: ToolCall, st: State, next: State) {
    && next.pending == Without(st.pending, call.callId)
    && next.completed == st.completed + {call.callId}
    && next.log == st.log + [call.callId]
  }

  lemma AdvanceBooks(job: Job, call: ToolCall, st: State, next: State)
    requires Booked(job, st) && call in st.pending && Advances(call, st, next)
    ensures Booked(job, next)
  {
    FindsItsCall(job.calls, call);
    assert forall id :: id in next.log <==> id in st.log || id == call.callId;
    forall c ensures c in next.pending <==> c in job.calls && c.callId !in next.log {
    }
    assert Logged(next) == Logged(st) + {call.callId};
  }

  lemma AdvanceTopological(job: Job, call: ToolCall, st: State, next: State)
    requires Booked(job, st) && Topological(job, st) && Advances(call, st, next) && Ready(job.deps, call, st)
    ensures Topological(job, next)
  {
    forall i | 0 <= i < |next.log|
      ensures DepsOf(job.deps, next.log[i]) <= job.seeds.Keys + set id <- next.log[..i]
    {
      if i < |st.log| {
        assert next.log[..i] == st.log[..i];
      } else {
        assert next.log[..i] == st.log;
      }
    }
  }

  lemma NotYetExecuted(job: Job, call: ToolCall, st: State)
    requires Traced(job, st)
    requires call.callId !in st.log
    ensures call.callId !in st.extractions
    ensures call.callId !in st.derivations
    ensures call.callId !in st.claimants
    ensures call.callId in st.raw ==> call.callId in job.seeds
  {
    assert forall k :: 0 <= k < |st.claims| && st.claimants[k] == call.callId ==> !ClaimTraced(job, st, k);
  }

  /** What a handled call does to the effect tables. */
  ghost predicate Records(job: Job, call: ToolCall, verdict: Verdict, st: State, next: State) {
    && (next.raw == if verdict.Fetched? then st.raw[call.callId := verdict.raw] else st.raw)
    && (next.extractions ==
        if verdict.Extracted? then st.extractions[call.callId := verdict.extraction] else st.extractions)
    && (next.derivations ==
        if verdict.Derived? then st.derivations[call.callId := verdict.derivation] else st.derivations)
    && (next.skipped == if verdict.Skip? then st.skipped[call.callId := verdict.record] else st.skipped)
    && (next.claims == if verdict.Claimed? then st.claims + [verdict.claim] else st.claims)
    && (next.claimants == if verdict.Claimed? then st.claimants + [call.callId] else st.claimants)
    && (next.requested == if verdict.Fetched? then st.requested + multiset{call.callId} else st.requested)
  }

  lemma RecordRecords(job: Job, call: ToolCall, verdict: Verdict, st: State)
    requires !verdict.Fail?
    ensures Record(call, verdict, st).Done?
    ensures Advances(call, st, Retire(call.callId, Record(call, verdict, st).value))
    ensures Records(job, call, verdict, st, Retire(call.callId, Record(call, verdict, st).value))
  {
  }

  lemma HandledRecords(job: Job, call: ToolCall, verdict: Verdict, st: State, outcome: Outcome)
    requires Record(call, verdict, st).Done?
    requires outcome == Done(Retire(call.callId, Record(call, verdict, st).value))
    ensures !verdict.Fail?
    ensures Advances(call, st, outcome.value)
    ensures Records(job, call, verdict, st, outcome.value)
  {
    RecordRecords(job, call, verdict, st);
  }

  lemma PerformRecords(job: Job, call: ToolCall, st: State)
    requires Handle(job.tools, call, st).Done?
    ensures !Judge(job.tools, call, st).Fail?
    ensures Advances(call, st, Perform(job.tools, call, st).value)
    ensures Records(job, call, Judge(job.tools, call, st), st, Perform(job.tools, call, st).value)
  {
    HandledRecords(job, call, Judge(job.tools, call, st), st, Perform(job.tools, call, st));
  }

  /** The verdicts each stage can come to, and what each of them means. */
  ghost predicate Fits(call: ToolCall, verdict: Verdict, st: State) {
    && (verdict.Skip? ==> call.optional && !(call.stage.Fetch? && call.callId in st.raw))
    && match call.stage
       case Fetch => (verdict.Cached? && call.callId in st.raw) || verdict.Fetched? || verdict.Skip?
       case Extract => verdict.Extracted? || verdict.Skip?
       case Derive => verdict.Derived? || verdict.Skip?
       case Claim => verdict.Claimed? || verdict.Skip?
       case Unsupported(_) => false
  }

  lemma JudgeFits(tools: Tools, call: ToolCall, st: State)
    requires !Judge(tools, call, st).Fail?
    ensures Fits(call, Judge(tools, call, st), st)
  {
  }

  lemma OtherStaysSettled(call: ToolCall, c: ToolCall, job: Job, verdict: Verdict, st: State, next: State)
    requires Records(job, call, verdict, st, next) && c.callId != call.callId
    ensures Executed(c, next) <==> Executed(c, st)
    ensures c.callId in next.skipped <==> c.callId in st.skipped
  {
    assert c.callId in next.claimants <==> c.callId in st.claimants;
  }

  lemma CallSettles(job: Job, call: ToolCall, verdict: Verdict, st: State, next: State)
    requires call.callId !in st.extractions && call.callId !in st.derivations
    requires call.callId !in st.claimants && call.callId !in st.skipped
    requires Fits(call, verdict, st) && Records(job, call, verdict, st, next)
    ensures Executed(call, next) <==> call.callId !in next.skipped
    ensures call.callId in next.skipped ==> call.optional
  {
    assert verdict.Claimed? ==> next.claimants[|st.claimants|] == call.callId;
  }

  lemma RecordSettles(job: Job, call: ToolCall, verdict: Verdict, st: State, next: State)
    requires Settled(job, st)
    requires forall c :: c in job.calls && c.callId == call.callId ==> c == call
    requires Advances(call, st, next) && Records(job, call, verdict, st, next)
    requires Executed(call, next) <==> call.callId !in next.skipped
    requires call.callId in next.skipped ==> call.optional
    ensures Settled(job, next)
  {
    hide Executed, Without;
    assert forall id :: id in next.log <==> id in st.log || id == call.callId;
    forall c | c in job.calls && c.callId in next.log
      ensures Executed(c, next) <==> c.callId !in next.skipped
      ensures c.callId in next.skipped ==> c.optional
    {
      if c.callId != call.callId {
        OtherStaysSettled(call, c, job, verdict, st, next);
      }
    }
  }

  lemma OneCallPerId(job: Job, call: ToolCall)
    requires DistinctIds(job.calls) && call in job.calls
    ensures forall c :: c in job.calls && c.callId == call.callId ==> c == call
  {
    forall c | c in job.calls && c.callId == call.callId ensures c == call {
      FindsItsCall(job.calls, c);
      FindsItsCall(job.calls, call);
    }
  }

  /** The effect in a verdict is the one its handler made of the recorded source. */
  ghost predicate Sourced(job: Job, call: ToolCall, verdict: Verdict, st: State) {
    match verdict
    case Fetched(raw) =>
      call.stage.Fetch? && call.callId !in st.raw && RunClient(job.tools, call) == Done(raw)
    case Extracted(_) =>
      call.stage.Extract? && SourceOf(call) in st.raw
      && ExtractVerdict(job.tools, call, Some(st.raw[SourceOf(call)])) == verdict
    case Derived(_) =>
      call.stage.Derive? && SourceOf(call) in st.extractions
      && DeriveVerdict(job.tools, call, Some(st.extractions[SourceOf(call)])) == verdict
    case Claimed(_) =>
      call.stage.Claim? && SourceOf(call) in st.derivations
      && ClaimVerdict(job.tools, call, Some(st.derivations[SourceOf(call)])) == verdict
    case _ => true
  }

  lemma JudgeSources(job: Job, call: ToolCall, st: State)
    ensures Sourced(job, call, Judge(job.tools, call, st), st)
  {
  }

  lemma RecordTracesRaw(job: Job, call: ToolCall, verdict: Verdict, st: State, next: State)
    requires RawTraced(job, st) && FindCall(job.calls, call.callId) == Some(call)
    requires Sourced(job, call, verdict, st)
    requires Advances(call, st, next) && Records(job, call, verdict, st, next)
    ensures RawTraced(job, next)
    ensures forall id :: id in st.raw ==> id in next.raw && next.raw[id] == st.raw[id]
  {
    hide RunClient, ExtractVerdict, DeriveVerdict, ClaimVerdict, Without, FindCall;
    assert forall id :: id in next.log <==> id in st.log || id == call.callId;
  }

  lemma RecordTracesExtractions(job: Job, call: ToolCall, verdict: Verdict, st: State, next: State, id: CallId)
    requires forall i :: i in st.extractions ==> ExtractionTraced(job, st, i)
    requires FindCall(job.calls, call.callId) == Some(call)
    requires Sourced(job, call, verdict, st)
    requires Advances(call, st, next) && Records(job, call, verdict, st, next)
    requires forall i :: i in st.raw ==> i in next.raw && next.raw[i] == st.raw[i]
    requires id in next.extractions
    ensures ExtractionTraced(job, next, id)
  {
    hide RunClient, ExtractVerdict, DeriveVerdict, ClaimVerdict;
    assert forall i :: i in next.log <==> i in st.log || i == call.callId;
    if !(verdict.Extracted? && id == call.callId) {
      assert ExtractionTraced(job, st, id);
    }
  }

  lemma RecordTracesDerivations(job: Job, call: ToolCall, verdict: Verdict, st: State, next: State, id: CallId)
    requires forall i :: i in st.derivations ==> DerivationTraced(job, st, i)
    requires FindCall(job.calls, call.callId) == Some(call)
    requires Sourced(job, call, verdict, st)
    requires Advances(call, st, next) && Records(job, call, verdict, st, next)
    requires forall i :: i in st.extractions ==> i in next.extractions && next.extractions[i] == st.extractions[i]
    requires id in next.derivations
    ensures DerivationTraced(job, next, id)
  {
    hide RunClient, ExtractVerdict, DeriveVerdict, ClaimVerdict;
    assert forall i :: i in next.log <==> i in st.log || i == call.callId;
    if !(verdict.Derived? && id == call.callId) {
      assert DerivationTraced(job, st, id);
    }
  }

  lemma RecordTracesClaims(job: Job, call: ToolCall, verdict: Verdict, st: State, next: State, k: nat)
    requires |st.claims| == |st.claimants|
    requires forall i :: 0 <= i < |st.claims| ==> ClaimTraced(job, st, i)
    requires FindCall(job.calls, call.callId) == Some(call)
    requires Sourced(job, call, verdict, st)
    requires Advances(call, st, next) && Records(job, call, verdict, st, next)
    requires forall i :: i in st.derivations ==> i in next.derivations && next.derivations[i] == st.derivations[i]
    requires k < |next.claims| == |next.claimants|
    ensures ClaimTraced(job, next, k)
  {
    hide RunClient, ExtractVerdict, DeriveVerdict, ClaimVerdict;
    assert forall i :: i in next.log <==> i in st.log || i == call.callId;
    if k < |st.claims| {
      assert ClaimTraced(job, st, k);
    }
  }

  lemma RecordTraces(job: Job, call: ToolCall, verdict: Verdict, st: State, next: State)
    requires Booked(job, st) && Traced(job, st)
    requires call in st.pending && Sourced(job, call, verdict, st)
    requires Advances(call, st, next) && Records(job, call, verdict, st, next)
    ensures Traced(job, next)
  {
    hide ExtractionTraced, DerivationTraced, ClaimTraced, RawTraced, Sourced, FindCall;
    FindsItsCall(job.calls, call);
    NotYetExecuted(job, call, st);
    RecordTracesRaw(job, call, verdict, st, next);
    forall id | id in next.extractions ensures ExtractionTraced(job, next, id) {
      RecordTracesExtractions(job, call, verdict, st, next, id);
    }
    forall id | id in next.derivations ensures DerivationTraced(job, next, id) {
      RecordTracesDerivations(job, call, verdict, st, next, id);
    }
    forall k | 0 <= k < |next.claims| ensures ClaimTraced(job, next, k) {
      RecordTracesClaims(job, call, verdict, st, next, k);
    }
  }

  /** Performing a ready pending call keeps the whole ledger and logs the call. */
  lemma PerformKeeps(job: Job, call: ToolCall, st: State)
    requires Kept(job, st)
    requires call in st.pending && Ready(job.deps, call, st)
    requires Handle(job.tools, call, st).Done?
    ensures Kept(job, Perform(job.tools, call, st).value)
    ensures Perform(job.tools, call, st).value.log == st.log + [call.callId]
  {
    var verdict, next := Judge(job.tools, call, st), Perform(job.tools, call, st).value;
    PerformRecords(job, call, st);
    AdvanceBooks(job, call, st, next);
    AdvanceTopological(job, call, st, next);
    JudgeFits(job.tools, call, st);
    JudgeSources(job, call, st);
    NotYetExecuted(job, call, st);
    CallSettles(job, call, verdict, st, next);
    OneCallPerId(job, call);
    RecordSettles(job, call, verdict, st, next);
    RecordTraces(job, call, verdict, st, next);
  }
}
