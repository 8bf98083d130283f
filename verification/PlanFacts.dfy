/** Whole runs, told with no part of the executor: by the parameters of the calls, the tools and the tables alone. */
module PlanFacts {
  import opened Outcomes
  import opened ToolPlans
  import opened Schedule
  import opened Ledger
  import opened Waits
  import opened Runs
  import opened Meaning
  import opened PlanTheorems

  /** The source a call names; without the parameter that is the call with the empty id. */
  predicate Names(call: ToolCall, source: CallId) {
    if "source_call_id" in call.params then call.params["source_call_id"] == source else source == ""
  }

  ghost predicate HandledBy<H>(handlers: Handlers<H>, tool: string, handler: H) {
    if tool in handlers.byTool then handlers.byTool[tool] == handler else handlers.fallback == Some(handler)
  }

  ghost predicate Unhandled<H>(handlers: Handlers<H>, tool: string) {
    tool !in handlers.byTool && handlers.fallback.None?
  }

  // ----- What a call yields, or why it does not

  ghost predicate Fetches(tools: Tools, call: ToolCall, raw: RawResponse) {
    call.tool in tools.clients && tools.clients[call.tool].execute(call.callId, call.endpoint, call.params) == Done(raw)
  }

  ghost predicate Extracts(tools: Tools, call: ToolCall, raw: map<CallId, RawResponse>, effect: Extraction) {
    exists handler, source, made ::
      && HandledBy(tools.extract, call.tool, handler) && Names(call, source) && source in raw
      && handler.run(call, raw[source]) == Done(made)
      && effect == if handler.version.Some? then made.(handlerVersion := handler.version) else made
  }

  ghost predicate Derives(tools: Tools, call: ToolCall, extractions: map<CallId, Extraction>, effect: Derivation) {
    exists handler, source, made ::
      && HandledBy(tools.derive, call.tool, handler) && Names(call, source) && source in extractions
      && handler.run(call, extractions[source]) == Done(made)
      && effect == if handler.version.Some? then made.(handlerVersion := handler.version) else made
  }

  ghost predicate Claims(tools: Tools, call: ToolCall, derivations: map<CallId, Derivation>, effect: ClaimEffect) {
    exists handler, source, made ::
      && HandledBy(tools.claim, call.tool, handler) && Names(call, source) && source in derivations
      && handler.run(call, derivations[source]) == Done(made)
      && effect == if handler.version.Some? then made.(handlerVersion := handler.version) else made
  }

  predicate SkippedFor(call: ToolCall, record: SkippedCall, reason: string, source: Option<CallId>) {
    && record.callId == call.callId && record.tool == call.tool && record.stage == call.stage
    && record.reason == reason && record.sourceCallId == source
  }

  ghost predicate LacksExtract(tools: Tools, call: ToolCall, raw: map<CallId, RawResponse>, record: SkippedCall) {
    if Unhandled(tools.extract, call.tool) then SkippedFor(call, record, "missing_extract_handler", None)
    else
      exists source :: Names(call, source) && source !in raw
                       && SkippedFor(call, record, "missing_source_extract", Some(source))
  }

  ghost predicate LacksDerive(tools: Tools, call: ToolCall, extractions: map<CallId, Extraction>, record: SkippedCall) {
    if Unhandled(tools.derive, call.tool) then SkippedFor(call, record, "missing_derive_handler", None)
    else
      exists source :: Names(call, source) && source !in extractions
                       && SkippedFor(call, record, "missing_source_derive", Some(source))
  }

  ghost predicate LacksClaim(tools: Tools, call: ToolCall, derivations: map<CallId, Derivation>, record: SkippedCall) {
    if Unhandled(tools.claim, call.tool) then SkippedFor(call, record, "missing_claim_handler", None)
    else
      exists source :: Names(call, source) && source !in derivations
                       && SkippedFor(call, record, "missing_source_claim", Some(source))
  }

  // ----- The tables of a run, as the solution of its plan

  /** A claim is filed under its call. */
  datatype Tables = Tables(
    raw: map<CallId, RawResponse>,
    extractions: map<CallId, Extraction>,
    derivations: map<CallId, Derivation>,
    claims: map<CallId, ClaimEffect>,
    skipped: map<CallId, SkippedCall>)

  /** The call is cached, has its effect, or is optional and skipped for the reason there is. */
  ghost predicate Settles(job: Job, t: Tables, call: ToolCall) {
    var id := call.callId;
    match call.stage
    case Fetch =>
      || (id in job.seeds && id in t.raw && t.raw[id] == job.seeds[id] && id !in t.skipped)
      || (id !in job.seeds && id in t.raw && Fetches(job.tools, call, t.raw[id]) && id !in t.skipped)
      || (id !in job.seeds && id !in t.raw && call.optional && id in t.skipped && call.tool !in job.tools.clients
          && SkippedFor(call, t.skipped[id], "missing_client", None))
    case Extract =>
      || (id in t.extractions && Extracts(job.tools, call, t.raw, t.extractions[id]) && id !in t.skipped)
      || (id !in t.extractions && call.optional && id in t.skipped
          && LacksExtract(job.tools, call, t.raw, t.skipped[id]))
    case Derive =>
      || (id in t.derivations && Derives(job.tools, call, t.extractions, t.derivations[id]) && id !in t.skipped)
      || (id !in t.derivations && call.optional && id in t.skipped
          && LacksDerive(job.tools, call, t.extractions, t.skipped[id]))
    case Claim =>
      || (id in t.claims && Claims(job.tools, call, t.derivations, t.claims[id]) && id !in t.skipped)
      || (id !in t.claims && call.optional && id in t.skipped
          && LacksClaim(job.tools, call, t.derivations, t.skipped[id]))
    case Unsupported(_) => false
  }

  ghost predicate PlanHas(job: Job, id: CallId, stage: Stage) {
    exists c :: c in job.calls && c.callId == id && c.stage == stage
  }

  /** Every call is settled, and the tables hold nothing else but what was cached. */
  ghost predicate Solution(job: Job, t: Tables) {
    && (forall c :: c in job.calls ==> Settles(job, t, c))
    && (forall id :: id in job.seeds ==> id in t.raw && t.raw[id] == job.seeds[id])
    && (forall id :: id in t.raw ==> id in job.seeds || PlanHas(job, id, Fetch))
    && (forall id :: id in t.extractions ==> PlanHas(job, id, Extract))
    && (forall id :: id in t.derivations ==> PlanHas(job, id, Derive))
    && (forall id :: id in t.claims ==> PlanHas(job, id, Claim))
    && (forall id :: id in t.skipped ==> exists c :: c in job.calls && c.callId == id)
  }

  /** Every dependency that is not cached is a plan call, of smaller rank. */
  ghost predicate Ordered(job: Job, rank: map<CallId, nat>) {
    forall c, dep :: c in job.calls && c.callId in job.deps && dep in job.deps[c.callId] && dep !in job.seeds ==>
      && (exists d :: d in job.calls && d.callId == dep)
      && dep in rank && c.callId in rank && rank[dep] < rank[c.callId]
  }

  /** What the state holds. */
  ghost predicate Holds(st: State, t: Tables) {
    && st.raw == t.raw && st.extractions == t.extractions && st.derivations == t.derivations && st.skipped == t.skipped
    && |st.claims| == |st.claimants|
    && (forall i, j :: 0 <= i < j < |st.claimants| ==> st.claimants[i] != st.claimants[j])
    && (forall id :: id in t.claims <==> id in st.claimants)
    && (forall k :: 0 <= k < |st.claims| ==> t.claims[st.claimants[k]] == st.claims[k])
  }

  // ----- Verdicts, told that way

  lemma NamesMeans(call: ToolCall)
    ensures forall source :: Names(call, source) <==> source == SourceOf(call)
  {
  }

  lemma FetchesMeans(tools: Tools, call: ToolCall)
    ensures forall raw :: Fetches(tools, call, raw) <==> FetchVerdict(tools, call, false) == Fetched(raw)
    ensures forall record :: (call.optional && call.tool !in tools.clients
        && SkippedFor(call, record, "missing_client", None)) <==> FetchVerdict(tools, call, false) == Skip(record)
  {
  }

  lemma ExtractsMeans(tools: Tools, call: ToolCall, raw: map<CallId, RawResponse>)
    ensures var verdict := ExtractVerdict(tools, call, Lookup(raw, SourceOf(call)));
      && (forall effect :: Extracts(tools, call, raw, effect) <==> verdict == Extracted(effect))
      && (forall record :: (call.optional && LacksExtract(tools, call, raw, record)) <==> verdict == Skip(record))
  {
    NamesMeans(call);
    var handler := tools.extract.Get(call.tool);
    assert forall h :: HandledBy(tools.extract, call.tool, h) <==> handler == Some(h);
    assert Unhandled(tools.extract, call.tool) <==> handler.None?;
    assert Names(call, SourceOf(call));
  }

  lemma DerivesMeans(tools: Tools, call: ToolCall, extractions: map<CallId, Extraction>)
    ensures var verdict := DeriveVerdict(tools, call, Lookup(extractions, SourceOf(call)));
      && (forall effect :: Derives(tools, call, extractions, effect) <==> verdict == Derived(effect))
      && (forall record ::
            (call.optional && LacksDerive(tools, call, extractions, record)) <==> verdict == Skip(record))
  {
    NamesMeans(call);
    var handler := tools.derive.Get(call.tool);
    assert forall h :: HandledBy(tools.derive, call.tool, h) <==> handler == Some(h);
    assert Unhandled(tools.derive, call.tool) <==> handler.None?;
    assert Names(call, SourceOf(call));
  }

  lemma ClaimsMeans(tools: Tools, call: ToolCall, derivations: map<CallId, Derivation>)
    ensures var verdict := ClaimVerdict(tools, call, Lookup(derivations, SourceOf(call)));
      && (forall effect :: Claims(tools, call, derivations, effect) <==> verdict == Claimed(effect))
      && (forall record :: (call.optional && LacksClaim(tools, call, derivations, record)) <==> verdict == Skip(record))
  {
    NamesMeans(call);
    var handler := tools.claim.Get(call.tool);
    assert forall h :: HandledBy(tools.claim, call.tool, h) <==> handler == Some(h);
    assert Unhandled(tools.claim, call.tool) <==> handler.None?;
    assert Names(call, SourceOf(call));
  }

  lemma OrderedMeans(job: Job, rank: map<CallId, nat>)
    ensures Ordered(job, rank) <==> Ranked(job, rank)
  {
    forall id ensures id in Ids(job.calls) <==> exists c :: c in job.calls && c.callId == id {
    }
    if Ordered(job, rank) {
      forall id, dep | id in Ids(job.calls) && dep in DepsOf(job.deps, id) && dep !in job.seeds
        ensures dep in Ids(job.calls) && dep in rank && id in rank && rank[dep] < rank[id]
      {
        var c :| c in job.calls && c.callId == id;
      }
    }
    if Ranked(job, rank) {
      forall c, dep | c in job.calls && c.callId in job.deps && dep in job.deps[c.callId] && dep !in job.seeds
        ensures exists d :: d in job.calls && d.callId == dep
        ensures dep in rank && c.callId in rank && rank[dep] < rank[c.callId]
      {
        assert c.callId in Ids(job.calls) && dep in DepsOf(job.deps, c.callId);
      }
    }
  }

  // ----- The tables and the meanings

  /** The tables agree with the meaning of each plan call. */
  ghost predicate TablesMean(job: Job, t: Tables) {
    && (forall id :: RawOf(job, id) == Lookup(t.raw, id))
    && (forall id :: ExtractionOf(job, id) == Lookup(t.extractions, id))
    && (forall id :: DerivationOf(job, id) == Lookup(t.derivations, id))
    && (forall id :: ClaimOf(job, id) == Lookup(t.claims, id))
    && (forall id :: SkipOf(job, id) == Lookup(t.skipped, id))
  }

  lemma SolutionFinds(job: Job, t: Tables, id: CallId)
    requires DistinctIds(job.calls) && Solution(job, t)
    ensures var call := FindCall(job.calls, id);
      && (call.Some? ==> Settles(job, t, call.value))
      && (id in t.raw ==> id in job.seeds || (call.Some? && call.value.stage.Fetch?))
      && (id in t.extractions ==> call.Some? && call.value.stage.Extract?)
      && (id in t.derivations ==> call.Some? && call.value.stage.Derive?)
      && (id in t.claims ==> call.Some? && call.value.stage.Claim?)
      && (id in t.skipped ==> call.Some?)
  {
    hide Settles;
    forall c | c in job.calls && c.callId == id ensures FindCall(job.calls, id) == Some(c) {
      FindsItsCall(job.calls, c);
    }
  }

  lemma SolvedRaw(job: Job, t: Tables, id: CallId)
    requires WellFormed(job) && Solution(job, t)
    ensures RawOf(job, id) == Lookup(t.raw, id)
  {
    hide Solution, FetchVerdict, Fetches, SkippedFor, Extracts, Derives, Claims, LacksExtract, LacksDerive, LacksClaim,
         SourcesSettled;
    SolutionFinds(job, t, id);
    SolvedSeeds(job, t, id);
    var call := FindCall(job.calls, id);
    if call.Some? {
      FetchesMeans(job.tools, call.value);
    }
  }

  lemma SolvedSeeds(job: Job, t: Tables, id: CallId)
    requires Solution(job, t)
    ensures id in job.seeds ==> id in t.raw && t.raw[id] == job.seeds[id]
  {
  }

  lemma SolvedExtraction(job: Job, t: Tables, id: CallId)
    requires WellFormed(job) && Solution(job, t)
    ensures ExtractionOf(job, id) == Lookup(t.extractions, id)
  {
    hide Solution, RawOf, ExtractVerdict, Fetches, SkippedFor, Extracts, Derives, Claims, LacksExtract, LacksDerive,
         LacksClaim, WellFormed;
    KeepsDistinct(job);
    SolutionFinds(job, t, id);
    var call := FindCall(job.calls, id);
    if call.Some? {
      SolvedRaw(job, t, SourceOf(call.value));
      ExtractsMeans(job.tools, call.value, t.raw);
    }
  }

  lemma KeepsDistinct(job: Job)
    requires WellFormed(job)
    ensures DistinctIds(job.calls)
  {
  }

  lemma SolvedDerivation(job: Job, t: Tables, id: CallId)
    requires WellFormed(job) && Solution(job, t)
    ensures DerivationOf(job, id) == Lookup(t.derivations, id)
  {
    hide Solution, ExtractionOf, DeriveVerdict, Fetches, SkippedFor, Extracts, Derives, Claims, LacksExtract,
         LacksDerive, LacksClaim, WellFormed;
    KeepsDistinct(job);
    SolutionFinds(job, t, id);
    var call := FindCall(job.calls, id);
    if call.Some? {
      SolvedExtraction(job, t, SourceOf(call.value));
      DerivesMeans(job.tools, call.value, t.extractions);
    }
  }

  /** What a plan call of a solution means: its entry in the tables, and no error. */
  lemma SolvedMeaning(job: Job, t: Tables, call: ToolCall)
    requires WellFormed(job) && Solution(job, t) && call in job.calls
    ensures !MeaningOf(job, call).Fail?
    ensures ClaimOf(job, call.callId) == Lookup(t.claims, call.callId)
    ensures SkipOf(job, call.callId) == Lookup(t.skipped, call.callId)
  {
    hide Solution, RawOf, ExtractionOf, DerivationOf, FetchVerdict, ExtractVerdict, DeriveVerdict, ClaimVerdict,
         Fetches, SkippedFor, Extracts, Derives, Claims, LacksExtract, LacksDerive, LacksClaim, SourcesSettled;
    SolutionFinds(job, t, call.callId);
    FindsItsCall(job.calls, call);
    MeaningFitsStage(job, call);
    SolvedRaw(job, t, SourceOf(call));
    SolvedExtraction(job, t, SourceOf(call));
    SolvedDerivation(job, t, SourceOf(call));
    FetchesMeans(job.tools, call);
    ExtractsMeans(job.tools, call, t.raw);
    DerivesMeans(job.tools, call, t.extractions);
    ClaimsMeans(job.tools, call, t.derivations);
    CachedFetch(job.tools, call);
  }

  lemma CachedFetch(tools: Tools, call: ToolCall)
    ensures FetchVerdict(tools, call, true).Cached?
  {
  }

  lemma SolutionMeans(job: Job, t: Tables)
    requires WellFormed(job) && Solution(job, t)
    ensures TablesMean(job, t) && forall c :: c in job.calls ==> !MeaningOf(job, c).Fail?
  {
    hide Solution, RawOf, ExtractionOf, DerivationOf, MeaningOf, Settles, WellFormed;
    KeepsDistinct(job);
    forall id
      ensures RawOf(job, id) == Lookup(t.raw, id) && ExtractionOf(job, id) == Lookup(t.extractions, id)
      ensures DerivationOf(job, id) == Lookup(t.derivations, id)
      ensures ClaimOf(job, id) == Lookup(t.claims, id) && SkipOf(job, id) == Lookup(t.skipped, id)
    {
      SolvedRaw(job, t, id);
      SolvedExtraction(job, t, id);
      SolvedDerivation(job, t, id);
      SolutionFinds(job, t, id);
      if FindCall(job.calls, id).Some? {
        SolvedMeaning(job, t, FindCall(job.calls, id).value);
      }
    }
    forall c | c in job.calls ensures !MeaningOf(job, c).Fail? {
      SolvedMeaning(job, t, c);
    }
  }

  /** Where tables hold just the meanings and no meaning is an error, they solve the plan. */
  lemma MeaningSettles(job: Job, t: Tables, call: ToolCall)
    requires WellFormed(job) && TablesMean(job, t) && call in job.calls && !MeaningOf(job, call).Fail?
    ensures Settles(job, t, call)
  {
    hide RawOf, ExtractionOf, DerivationOf, FetchVerdict, ExtractVerdict, DeriveVerdict, ClaimVerdict, Fetches,
         SkippedFor, Extracts, Derives, Claims, LacksExtract, LacksDerive, LacksClaim, SourcesSettled, SkipOf, ClaimOf;
    MeaningFills(job, call);
    MeaningFitsStage(job, call);
    SeedMeansItself(job, call.callId);
    FetchesMeans(job.tools, call);
    ExtractsMeans(job.tools, call, t.raw);
    DerivesMeans(job.tools, call, t.extractions);
    ClaimsMeans(job.tools, call, t.derivations);
    CachedFetch(job.tools, call);
  }

  lemma MeaningsAreOfCalls(job: Job, id: CallId)
    ensures RawOf(job, id).Some? ==> id in job.seeds || PlanHas(job, id, Fetch)
    ensures ExtractionOf(job, id).Some? ==> PlanHas(job, id, Extract)
    ensures DerivationOf(job, id).Some? ==> PlanHas(job, id, Derive)
    ensures ClaimOf(job, id).Some? ==> PlanHas(job, id, Claim)
    ensures SkipOf(job, id).Some? ==> exists c :: c in job.calls && c.callId == id
  {
    hide FetchVerdict, ExtractVerdict, DeriveVerdict, ClaimVerdict;
    var call := FindCall(job.calls, id);
    if call.Some? {
      MeaningFitsStage(job, call.value);
    }
  }

  lemma MeaningsSolve(job: Job, t: Tables)
    requires WellFormed(job) && TablesMean(job, t) && forall c :: c in job.calls ==> !MeaningOf(job, c).Fail?
    ensures Solution(job, t)
  {
    hide RawOf, ExtractionOf, DerivationOf, MeaningOf, Settles, WellFormed, ClaimOf, SkipOf;
    forall c | c in job.calls ensures Settles(job, t, c) {
      MeaningSettles(job, t, c);
    }
    forall id
      ensures id in job.seeds ==> id in t.raw && t.raw[id] == job.seeds[id]
      ensures id in t.raw ==> id in job.seeds || PlanHas(job, id, Fetch)
      ensures id in t.extractions ==> PlanHas(job, id, Extract)
      ensures id in t.derivations ==> PlanHas(job, id, Derive)
      ensures id in t.claims ==> PlanHas(job, id, Claim)
      ensures id in t.skipped ==> exists c :: c in job.calls && c.callId == id
    {
      SeedMeansItself(job, id);
      MeaningsAreOfCalls(job, id);
    }
  }

  // ----- A finished state and its tables

  lemma FinalRaw(job: Job, final: State, id: CallId)
    requires Booked(job, final) && RawAgrees(job, final) && final.pending == []
    ensures RawOf(job, id) == Lookup(final.raw, id)
  {
    LoggedIsPlanned(job, final);
    SeedOrCall(job, id);
  }

  lemma FinalOthers(job: Job, final: State, id: CallId)
    requires Booked(job, final) && final.pending == []
    requires ExtractionsAgree(job, final) && DerivationsAgree(job, final) && SkipsAgree(job, final)
    ensures ExtractionOf(job, id) == Lookup(final.extractions, id)
    ensures DerivationOf(job, id) == Lookup(final.derivations, id)
    ensures SkipOf(job, id) == Lookup(final.skipped, id)
  {
    LoggedIsPlanned(job, final);
    MeaningsAreOfCalls(job, id);
  }

  /** The claims of a finished state are the meanings of their claimants, and no plan call's claim is missing. */
  lemma FinalClaims(job: Job, final: State)
    requires WellFormed(job) && Kept(job, final) && Agrees(job, final) && final.pending == []
    ensures |final.claims| == |final.claimants| && DistinctLog(final.claimants)
    ensures forall k :: 0 <= k < |final.claims| ==> ClaimOf(job, final.claimants[k]) == Some(final.claims[k])
    ensures forall id :: ClaimOf(job, id).Some? ==> id in final.claimants
  {
    hide Topological, Metered, RawAgrees, ExtractionsAgree, ClaimVerdict, WellFormed, MeaningOf, ExtractionOf;
    forall k | 0 <= k < |final.claims| ensures ClaimOf(job, final.claimants[k]) == Some(final.claims[k]) {
      assert ClaimTraced(job, final, k);
      ClaimMeans(job, FindCall(job.calls, final.claimants[k]).value);
    }
    forall id | ClaimOf(job, id).Some? ensures id in final.claimants {
      var call := FindCall(job.calls, id).value;
      LoggedIsPlanned(job, final);
      MeaningFills(job, call);
      MeaningFitsStage(job, call);
      assert call in job.calls && id in final.log;
    }
  }

  lemma ClaimMeans(job: Job, call: ToolCall)
    requires FindCall(job.calls, call.callId) == Some(call) && call.stage.Claim?
    ensures var verdict := ClaimVerdict(job.tools, call, DerivationOf(job, SourceOf(call)));
      verdict.Claimed? ==> ClaimOf(job, call.callId) == Some(verdict.claim)
  {
  }

  lemma FinalHolds(job: Job, final: State, t: Tables)
    requires WellFormed(job) && Kept(job, final) && Agrees(job, final) && final.pending == []
    ensures Holds(final, t) <==> TablesMean(job, t)
  {
    hide Kept, WellFormed, RawOf, ExtractionOf, DerivationOf, SkipOf, ClaimOf, RawAgrees, ExtractionsAgree,
         DerivationsAgree, SkipsAgree;
    FinalClaims(job, final);
    KeptBooked(job, final);
    forall id
      ensures RawOf(job, id) == Lookup(final.raw, id) && ExtractionOf(job, id) == Lookup(final.extractions, id)
      ensures DerivationOf(job, id) == Lookup(final.derivations, id) && SkipOf(job, id) == Lookup(final.skipped, id)
    {
      FinalRaw(job, final, id);
      FinalOthers(job, final, id);
    }
    if Holds(final, t) {
      forall id ensures ClaimOf(job, id) == Lookup(t.claims, id) {
        if id in t.claims {
          var k :| 0 <= k < |final.claimants| && final.claimants[k] == id;
        }
      }
    }
    if TablesMean(job, t) {
      LookupsFix(final.raw, t.raw);
      LookupsFix(final.extractions, t.extractions);
      LookupsFix(final.derivations, t.derivations);
      LookupsFix(final.skipped, t.skipped);
      forall id ensures id in t.claims <==> id in final.claimants {
        assert ClaimOf(job, id) == Lookup(t.claims, id);
      }
      forall k | 0 <= k < |final.claims| ensures t.claims[final.claimants[k]] == final.claims[k] {
        assert ClaimOf(job, final.claimants[k]) == Lookup(t.claims, final.claimants[k]);
      }
    }
  }

  lemma KeptBooked(job: Job, st: State)
    requires Kept(job, st)
    ensures Booked(job, st)
  {
  }

  lemma LookupsFix<V>(table: map<CallId, V>, other: map<CallId, V>)
    requires forall id :: Lookup(table, id) == Lookup(other, id)
    ensures table == other
  {
    assert forall id :: id in table <==> Lookup(table, id).Some?;
    assert forall id :: id in other <==> Lookup(other, id).Some?;
    assert forall id :: id in table ==> Lookup(table, id) == Some(table[id]);
  }

  /**
   What a run computes, told without it: a plan whose sources are settled finishes with just these tables if and
   only if they solve it (each call has the effect its handler makes of what it names as its source, or is optional
   and skipped for the reason there is) and the dependencies can be ranked.
   */
  lemma RunSolves(job: Job, st: State, t: Tables)
    requires WellFormed(job) && Starts(job, st)
    ensures (Run(job.tools, job.deps, st).Done? && Holds(Run(job.tools, job.deps, st).value, t)) <==>
            Solution(job, t) && exists rank :: Ordered(job, rank)
  {
    hide Run, Holds, Solution, MeaningOf, WellFormed, Starts, Stuck, Ordered, Ranked, Kept, Agrees, TablesMean;
    RunComputesMeaning(job, st);
    StuckUnlessRanked(job);
    forall rank ensures Ordered(job, rank) <==> Ranked(job, rank) {
      OrderedMeans(job, rank);
    }
    if Run(job.tools, job.deps, st).Done? {
      FinalHolds(job, Run(job.tools, job.deps, st).value, t);
    }
    if Solution(job, t) {
      SolutionMeans(job, t);
    }
    if TablesMean(job, t) && forall c :: c in job.calls ==> !MeaningOf(job, c).Fail? {
      MeaningsSolve(job, t);
    }
  }

  // ----- Every finished run, whatever its sources

  ghost predicate ExtractedBySome(job: Job, id: CallId, raw: map<CallId, RawResponse>, effect: Extraction) {
    exists c :: c in job.calls && c.callId == id && c.stage.Extract? && Extracts(job.tools, c, raw, effect)
  }

  ghost predicate DerivedBySome(job: Job, id: CallId, extractions: map<CallId, Extraction>, effect: Derivation) {
    exists c :: c in job.calls && c.callId == id && c.stage.Derive? && Derives(job.tools, c, extractions, effect)
  }

  ghost predicate ClaimedBySome(job: Job, id: CallId, derivations: map<CallId, Derivation>, effect: ClaimEffect) {
    exists c :: c in job.calls && c.callId == id && c.stage.Claim? && Claims(job.tools, c, derivations, effect)
  }

  /** What is in the tables is what the handlers made of the named sources. */
  ghost predicate Sourced(job: Job, final: State) {
    && (forall id :: id in final.extractions ==> ExtractedBySome(job, id, final.raw, final.extractions[id]))
    && (forall id :: id in final.derivations ==> DerivedBySome(job, id, final.extractions, final.derivations[id]))
    && |final.claims| == |final.claimants|
    && (forall k :: 0 <= k < |final.claims| ==>
          ClaimedBySome(job, final.claimants[k], final.derivations, final.claims[k]))
  }

  /** Each finished call found its dependencies cached, or finished before it. */
  ghost predicate InOrder(job: Job, log: seq<CallId>) {
    forall i, dep :: 0 <= i < |log| && log[i] in job.deps && dep in job.deps[log[i]] ==>
      dep in job.seeds || dep in log[..i]
  }

  lemma FinishedIsSourced(job: Job, st: State)
    requires Starts(job, st) && Run(job.tools, job.deps, st).Done?
    ensures var final := Run(job.tools, job.deps, st).value;
      Sourced(job, final) && InOrder(job, final.log)
  {
    hide Run, Extracts, Derives, Claims, ExtractVerdict, DeriveVerdict, ClaimVerdict, InOrder;
    FinishedRun(job, st);
    var final := Run(job.tools, job.deps, st).value;
    forall id | id in final.extractions ensures ExtractedBySome(job, id, final.raw, final.extractions[id]) {
      assert ExtractionTraced(job, final, id);
      ExtractsMeans(job.tools, FindCall(job.calls, id).value, final.raw);
    }
    forall id | id in final.derivations ensures DerivedBySome(job, id, final.extractions, final.derivations[id]) {
      assert DerivationTraced(job, final, id);
      DerivesMeans(job.tools, FindCall(job.calls, id).value, final.extractions);
    }
    forall k | 0 <= k < |final.claims|
      ensures ClaimedBySome(job, final.claimants[k], final.derivations, final.claims[k])
    {
      assert ClaimTraced(job, final, k);
      ClaimsMeans(job.tools, FindCall(job.calls, final.claimants[k]).value, final.derivations);
    }
    FinishedInOrder(job, final);
  }

  lemma FinishedInOrder(job: Job, final: State)
    requires Topological(job, final)
    ensures InOrder(job, final.log)
  {
    forall i, dep | 0 <= i < |final.log| && final.log[i] in job.deps && dep in job.deps[final.log[i]]
      ensures dep in job.seeds || dep in final.log[..i]
    {
      assert dep in DepsOf(job.deps, final.log[i]);
    }
  }

  /** A call of a later stage is skipped where the call it names was skipped. */
  lemma NamedSkipsPropagate(job: Job, st: State, call: ToolCall, source: CallId)
    requires Starts(job, st) && SeedsAreFetches(job) && Run(job.tools, job.deps, st).Done?
    requires call in job.calls && !call.stage.Fetch? && Names(call, source)
    requires source in Run(job.tools, job.deps, st).value.skipped
    ensures call.callId in Run(job.tools, job.deps, st).value.skipped
  {
    NamesMeans(call);
    hide Run, SourceOf, Names, Starts;
    SkipsPropagate(job, st, call);
  }

  /** Each claim goes back by the named sources through one derivation and one extraction to one raw response. */
  lemma ClaimsNameTheirSources(job: Job, st: State, k: nat)
    requires Starts(job, st) && Run(job.tools, job.deps, st).Done?
    requires k < |Run(job.tools, job.deps, st).value.claims|
    ensures var final := Run(job.tools, job.deps, st).value;
      && |final.claims| == |final.claimants|
      && exists claim, derive, extract, root ::
           && claim in job.calls && derive in job.calls && extract in job.calls
           && claim.callId == final.claimants[k] && Names(claim, derive.callId) && Names(derive, extract.callId)
           && Names(extract, root) && root in final.raw
           && extract.callId in final.extractions && derive.callId in final.derivations
           && Extracts(job.tools, extract, final.raw, final.extractions[extract.callId])
           && Derives(job.tools, derive, final.extractions, final.derivations[derive.callId])
           && Claims(job.tools, claim, final.derivations, final.claims[k])
  {
    hide Run, ExtractVerdict, DeriveVerdict, ClaimVerdict, SourceOf, Names, Extracts, Derives, Claims, Starts;
    ClaimsTraceBack(job, st, k);
    var final := Run(job.tools, job.deps, st).value;
    var claim, derive, extract :| Chain(job, final, k, claim, derive, extract);
    NamesMeans(claim);
    NamesMeans(derive);
    NamesMeans(extract);
    ExtractsMeans(job.tools, extract, final.raw);
    DerivesMeans(job.tools, derive, final.extractions);
    ClaimsMeans(job.tools, claim, final.derivations);
    assert Names(extract, SourceOf(extract));
  }
}
