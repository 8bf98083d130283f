/** Runs that start from cached responses, compared with runs that do not. */
module CachedRuns {
  import opened Outcomes
  import opened ToolPlans
  import opened Schedule
  import opened Ledger
  import opened Waits
  import opened Runs
  import opened Meaning
  import opened PlanTheorems
  import opened ResponseCache

  /** Jobs that differ only in their seeds mean the same when the raw responses do. */
  lemma ReseededMeaning(job: Job, other: Job)
    requires WellFormed(job) && WellFormed(other) && other == job.(seeds := other.seeds)
    requires forall id :: RawOf(job, id) == RawOf(other, id)
    ensures SameMeaning(job, other)
    ensures forall c :: c in job.calls ==> (MeaningOf(job, c).Fail? <==> MeaningOf(other, c).Fail?)
  {
    forall c | c in job.calls
      ensures MeaningOf(job, c).Fail? <==> MeaningOf(other, c).Fail?
      ensures SkipOf(job, c.callId) == SkipOf(other, c.callId)
      ensures ClaimOf(job, c.callId) == ClaimOf(other, c.callId)
    {
      ReseededCall(job, other, c);
    }
    forall id ensures SkipOf(job, id) == SkipOf(other, id) && ClaimOf(job, id) == ClaimOf(other, id) {
      hide MeaningOf;
      var call := FindCall(job.calls, id);
      if call.Some? {
        assert call.value in job.calls;
      }
    }
  }

  lemma ReseededCall(job: Job, other: Job, call: ToolCall)
    requires WellFormed(job) && WellFormed(other) && other == job.(seeds := other.seeds)
    requires forall id :: RawOf(job, id) == RawOf(other, id)
    requires call in job.calls
    ensures MeaningOf(job, call).Fail? <==> MeaningOf(other, call).Fail?
    ensures SkipOf(job, call.callId) == SkipOf(other, call.callId)
    ensures ClaimOf(job, call.callId) == ClaimOf(other, call.callId)
  {
    hide ExtractVerdict, DeriveVerdict, ClaimVerdict, SkipOf, ClaimOf;
    FindsItsCall(job.calls, call);
    MeaningFills(job, call);
    MeaningFills(other, call);
    assert RawOf(job, call.callId) == RawOf(other, call.callId);
  }

  /** Each cached response is what the client of its fetch call would answer. */
  ghost predicate Faithful(job: Job) {
    forall id :: id in job.seeds ==>
      var call := FindCall(job.calls, id);
      call.Some? && call.value.stage.Fetch? && RunClient(job.tools, call.value) == Done(job.seeds[id])
  }

  lemma FaithfulRaw(job: Job, bare: Job)
    requires Faithful(job) && bare == job.(seeds := map[])
    ensures forall id :: RawOf(job, id) == RawOf(bare, id)
  {
  }

  lemma FewerSeedsStickMore(job: Job, other: Job, calls: set<CallId>)
    requires other == job.(seeds := other.seeds) && job.seeds.Keys <= other.seeds.Keys
    requires Stuck(other, calls)
    ensures Stuck(job, calls)
  {
    forall id | id in calls
      ensures exists dep :: dep in DepsOf(job.deps, id) && dep !in job.seeds && (dep in calls || dep !in Ids(job.calls))
    {
      hide Stuck;
      var dep := StuckOn(other, calls, id);
    }
  }

  /**
   A faithful cache changes nothing: the uncached run finishes exactly when the cached one does
   and nothing is stuck without the cache, and then both leave the same effects. (A cached fetch
   may break a dependency cycle, so the cached run can finish where the uncached one reports it.)
   */
  lemma CachedAgreesWithUncached(job: Job, bare: Job, st: State, bareSt: State)
    requires WellFormed(job) && Faithful(job) && bare == job.(seeds := map[]) && WellFormed(bare)
    requires Starts(job, st) && Starts(bare, bareSt)
    ensures Run(bare.tools, bare.deps, bareSt).Done? <==>
            Run(job.tools, job.deps, st).Done? && !exists calls :: Stuck(bare, calls)
    ensures Run(bare.tools, bare.deps, bareSt).Done? ==>
              SameEffects(Run(job.tools, job.deps, st).value, Run(bare.tools, bare.deps, bareSt).value)
  {
    hide Run, MeaningOf, Agrees, Booked, Settled, Traced, Topological, Metered, Stuck, SourcesSettled, SeedsAreFetches;
    FaithfulRaw(job, bare);
    ReseededMeaning(job, bare);
    forall calls | Stuck(job, calls) ensures Stuck(bare, calls) { FewerSeedsStickMore(bare, job, calls); }
    RunComputesMeaning(job, st);
    RunComputesMeaning(bare, bareSt);
    if Run(bare.tools, bare.deps, bareSt).Done? {
      MeaningFixesEffects(job, bare, Run(job.tools, job.deps, st).value, Run(bare.tools, bare.deps, bareSt).value);
    }
  }

  /** A fetch that waits for itself finishes when it is cached, and is reported as a cycle when it is not. */
  lemma CachedFetchBreaksCycle(tools: Tools, call: ToolCall, raw: RawResponse, st: State, bareSt: State)
    requires call.stage.Fetch? && RunClient(tools, call) == Done(raw)
    requires var job := Job(tools, [call], map[call.callId := {call.callId}], map[call.callId := raw]);
      Starts(job, st) && Starts(job.(seeds := map[]), bareSt)
    ensures var job := Job(tools, [call], map[call.callId := {call.callId}], map[call.callId := raw]);
      && WellFormed(job) && WellFormed(job.(seeds := map[])) && Faithful(job)
      && Run(tools, job.deps, st).Done?
      && Run(tools, job.deps, bareSt) == Raised(DependencyCycle)
  {
    var deps: Deps := map[call.callId := {call.callId}];
    assert [call][1..] == [] && st.completed == {call.callId} && bareSt.completed == {};
    assert ReadyFetches(deps, [], st) == [] && ReadyFetches(deps, [], bareSt) == [];
    var ready := ReadyFetches(deps, [call], st);
    assert ready == [call];
    assert Triage(tools, [], [], st) == Done(Batch([], st)) && Triage(tools, ready, [], st) == Done(Batch([], st));
    assert FetchBatch(tools, ready, st) == Done(st);
    assert RetireAll(ready, st) == Retire(call.callId, st);
    assert ReadyFetches(deps, [call], bareSt) == [];
    assert Sweep(tools, deps, [call], bareSt) == Done(bareSt);
  }

  // ----- Running the same plan again

  /** No reference whose response was missing has the response id of a new answer, but for calls that answered. */
  ghost predicate NoneRevived(job: Job, refs: seq<ResponseRef>) {
    forall c, id | c in job.calls && Answers(job, c) && id !in job.seeds ::
      var ref := LastRef(refs, id);
      ref.Some? && ref.value.responseId == RunClient(job.tools, c).value.responseId ==>
        exists d :: d in job.calls && d.callId == id && Answers(job, d)
  }

  /**
   What a finished run caches seeds the next run with exactly the raw responses it ended with, if and only if
   its new answers are kept apart and revive no reference.
   */
  lemma RerunSeeds(tools: Tools, calls: seq<ToolCall>, deps: Deps, cached: seq<ResponseRef>,
                   stored: map<string, RawResponse>)
    requires DistinctIds(calls) && AnswersCarryIds(JobOf(tools, calls, deps, cached, stored))
    requires Run(tools, deps, InitialState(calls, cached, stored)).Done?
    ensures var final := Run(tools, deps, InitialState(calls, cached, stored)).value;
            var job, refs := JobOf(tools, calls, deps, cached, stored), InitialState(calls, cached, stored).responses;
            InitialState(calls, final.responses, final.stored).raw == final.raw <==>
              KeptApart(job, refs, stored) && NoneRevived(job, refs)
  {
    hide Run, InitialState, LastRef, Filed, AnswersAreNew, KeptApart, NoneRevived, Coherent, AnswersCarryIds,
         SeedsFromRefs, Kept;
    var job, refs := JobOf(tools, calls, deps, cached, stored), InitialState(calls, cached, stored).responses;
    var final := Run(tools, deps, InitialState(calls, cached, stored)).value;
    RunLeavesCoherentCache(tools, calls, deps, cached, stored);
    FinishedRunFiled(tools, calls, deps, cached, stored);
    InitialSeeds(tools, calls, deps, cached, stored);
    KeptTraced(job, final);
    RevivedExactly(job, refs, stored, final);
    SeedsAgain(calls, final);
  }

  /** The next run is seeded with the same responses exactly if the cache is coherent and leads to no others. */
  lemma SeedsAgain(calls: seq<ToolCall>, final: State)
    ensures InitialState(calls, final.responses, final.stored).raw == final.raw <==>
      Coherent(final) && NoOthersCached(final)
  {
    hide InitialState, LastRef;
    var second := InitialState(calls, final.responses, final.stored);
    forall id
      ensures var ref := LastRef(final.responses, id);
        && (id in second.raw <==> ref.Some? && ref.value.responseId in final.stored)
        && (id in second.raw ==> second.raw[id] == final.stored[ref.value.responseId])
    {
      InitiallySeeded(calls, final.responses, final.stored, id);
    }
  }

  ghost predicate NoOthersCached(final: State) {
    forall id :: id !in final.raw && LastRef(final.responses, id).Some? ==>
      LastRef(final.responses, id).value.responseId !in final.stored
  }

  lemma RevivedExactly(job: Job, refs: seq<ResponseRef>, stored: map<string, RawResponse>, final: State)
    requires Filed(job, refs, stored, final) && AnswersAreNew(job, final) && SeedsFromRefs(job, refs, stored)
    requires RawTraced(job, final)
    ensures NoOthersCached(final) <==> NoneRevived(job, refs)
  {
    hide RunClient, LastRef, Filed;
    forall id | id !in final.raw
      ensures LastRef(final.responses, id) == LastRef(refs, id)
      ensures LastRef(refs, id).Some? ==>
        var rid := LastRef(refs, id).value.responseId; rid in final.stored <==> Taken(job, final, rid)
    {
      StaleTaken(job, refs, stored, final, id);
    }
    if NoneRevived(job, refs) {
      forall id | id !in final.raw && LastRef(final.responses, id).Some?
        ensures LastRef(final.responses, id).value.responseId !in final.stored
      {
        NotRevived(job, refs, final, id);
      }
    }
    if NoOthersCached(final) {
      forall c, id | c in job.calls && Answers(job, c) && id !in job.seeds && LastRef(refs, id).Some?
          && LastRef(refs, id).value.responseId == RunClient(job.tools, c).value.responseId
        ensures exists d :: d in job.calls && d.callId == id && Answers(job, d)
      {
        assert New(job, final, c.callId);
        assert Taken(job, final, LastRef(refs, id).value.responseId);
        assert New(job, final, id);
      }
    }
  }

  lemma StaleTaken(job: Job, refs: seq<ResponseRef>, stored: map<string, RawResponse>, final: State, id: CallId)
    requires Filed(job, refs, stored, final) && SeedsFromRefs(job, refs, stored) && RawTraced(job, final)
    requires id !in final.raw
    ensures LastRef(final.responses, id) == LastRef(refs, id)
    ensures LastRef(refs, id).Some? ==>
      var rid := LastRef(refs, id).value.responseId; rid in final.stored <==> Taken(job, final, rid)
  {
    hide RunClient, LastRef;
    if LastRef(refs, id).Some? && LastRef(refs, id).value.responseId in final.stored {
      assert StoredAs(job, stored, final, LastRef(refs, id).value.responseId);
    }
  }

  lemma NotRevived(job: Job, refs: seq<ResponseRef>, final: State, id: CallId)
    requires NoneRevived(job, refs) && AnswersAreNew(job, final) && RawTraced(job, final)
    requires id !in final.raw && LastRef(refs, id).Some?
    ensures !Taken(job, final, LastRef(refs, id).value.responseId)
  {
    hide RunClient, LastRef;
    assert !New(job, final, id);
  }

  /** What is cached once a plan has been run: what was before, and every fetch call with a client. */
  function CachedNext(job: Job): set<CallId> {
    job.seeds.Keys + set c | c in job.calls && c.stage.Fetch? && c.tool in job.tools.clients :: c.callId
  }

  /** The cached calls of the next run are those of this one, and fetch calls of the plan. */
  lemma FinalRawIsFetched(job: Job, final: State)
    requires WellFormed(job) && RawTraced(job, final)
    ensures final.raw.Keys <= CachedNext(job)
    ensures forall c :: c in job.calls && c.callId in final.raw ==> c.stage.Fetch?
  {
    hide SourcesSettled;
    forall c | c in job.calls && c.callId in final.raw ensures c.stage.Fetch? {
      FindsItsCall(job.calls, c);
    }
    forall id | id in final.raw && id !in job.seeds ensures id in CachedNext(job) {
      assert FindCall(job.calls, id).value in job.calls;
    }
  }

  /** All of them are. */
  lemma FetchedIsFinalRaw(job: Job, final: State)
    requires WellFormed(job) && Booked(job, final) && RawTraced(job, final) && Agrees(job, final) && final.pending == []
    ensures final.raw.Keys == CachedNext(job)
  {
    hide SourcesSettled, Booked, Agrees, CachedNext;
    FinalRawIsFetched(job, final);
    NothingLeftToFetch(job, final, job.(seeds := final.raw));
    assert CachedNext(job) <= final.raw.Keys by {
      forall id | id in CachedNext(job) ensures id in final.raw {
        CachedOrFetched(job, id);
      }
    }
  }

  lemma CachedOrFetched(job: Job, id: CallId)
    requires id in CachedNext(job)
    ensures id in job.seeds || exists c ::
      c in job.calls && c.callId == id && c.stage.Fetch? && c.tool in job.tools.clients
  {
  }

  lemma FinalRawIsMeaning(job: Job, final: State, rerun: Job)
    requires WellFormed(job) && SourcesSettled(job, CachedNext(job))
    requires Kept(job, final) && Agrees(job, final) && final.pending == []
    requires rerun == job.(seeds := final.raw)
    ensures WellFormed(rerun)
    ensures forall id :: RawOf(job, id) == RawOf(rerun, id)
  {
    hide Settled, Topological, Metered, ExtractionsAgree, DerivationsAgree, SkipsAgree, FetchVerdict, MeaningOf,
         RawTraced, CachedNext, FetchedFirst, Awaits;
    KeptParts(job, final);
    LoggedIsPlanned(job, final);
    FinalRawIsFetched(job, final);
    FetchedIsFinalRaw(job, final);
    SameSettled(job, rerun, final.raw.Keys);
    forall id ensures RawOf(job, id) == RawOf(rerun, id) {
      SeedOrCall(job, id);
      assert id in final.raw ==> RawOf(job, id) == Some(final.raw[id]);
    }
  }

  lemma SameSettled(job: Job, other: Job, cached: set<CallId>)
    requires SourcesSettled(job, cached) && other == job.(seeds := other.seeds)
    ensures SourcesSettled(other, cached)
  {
    forall c | c in job.calls && !c.stage.Fetch? && FindCall(job.calls, SourceOf(c)).Some?
      ensures SourceSettled(other, cached, c)
    {
      assert SourceSettled(job, cached, c);
    }
  }

  /** A fetch call that a finished run left without a response has no client. */
  lemma NothingLeftToFetch(job: Job, final: State, rerun: Job)
    requires WellFormed(job) && Booked(job, final) && Agrees(job, final) && final.pending == []
    requires rerun == job.(seeds := final.raw)
    ensures NothingToFetch(rerun)
  {
    hide SourcesSettled, ExtractionsAgree, DerivationsAgree, SkipsAgree, RunClient;
    LoggedIsPlanned(job, final);
    forall c | c in job.calls && c.stage.Fetch? && c.callId !in final.raw
      ensures c.tool !in job.tools.clients
    {
      FindsItsCall(job.calls, c);
      assert RawOf(job, c.callId).None? && !MeaningOf(job, c).Fail?;
    }
  }

  /** The run finishes without a request, with the effects of the given state, and would cache what reads the same. */
  ghost predicate FullHit(final: State, rerun: Outcome) {
    && rerun.Done?
    && SameEffects(final, rerun.value)
    && rerun.value.requested == multiset{}
    && rerun.value.stored == final.stored
    && forall id :: LastRef(rerun.value.responses, id) == LastRef(final.responses, id)
  }

  /**
   Running a finished plan again on what the first run cached is a full hit exactly if the first run's new answers
   are kept apart and revive no reference. As its fetch calls are cached then, the sources are to be settled
   with these too.
   */
  lemma RerunIsFullHit(tools: Tools, calls: seq<ToolCall>, deps: Deps, cached: seq<ResponseRef>,
                       stored: map<string, RawResponse>)
    requires var job := JobOf(tools, calls, deps, cached, stored);
      WellFormed(job) && SourcesSettled(job, CachedNext(job)) && AnswersCarryIds(job)
    requires Run(tools, deps, InitialState(calls, cached, stored)).Done?
    ensures var final := Run(tools, deps, InitialState(calls, cached, stored)).value;
            var job, refs := JobOf(tools, calls, deps, cached, stored), InitialState(calls, cached, stored).responses;
            FullHit(final, Run(tools, deps, InitialState(calls, final.responses, final.stored))) <==>
              KeptApart(job, refs, stored) && NoneRevived(job, refs)
  {
    hide Run, InitialState, KeptApart, NoneRevived, SourcesSettled, SeedsAreFetches, AnswersCarryIds, FullHit;
    var first := InitialState(calls, cached, stored);
    var final := Run(tools, deps, first).value;
    RerunSeeds(tools, calls, deps, cached, stored);
    if InitialState(calls, final.responses, final.stored).raw == final.raw {
      SeededRerunHits(tools, calls, deps, cached, stored);
    } else if FullHit(final, Run(tools, deps, InitialState(calls, final.responses, final.stored))) {
      HitIsSeeded(tools, calls, deps, final);
    }
  }

  /** A run that made no request ends with the responses it was seeded with. */
  lemma HitIsSeeded(tools: Tools, calls: seq<ToolCall>, deps: Deps, final: State)
    requires DistinctIds(calls)
    requires FullHit(final, Run(tools, deps, InitialState(calls, final.responses, final.stored)))
    ensures InitialState(calls, final.responses, final.stored).raw == final.raw
  {
    hide Run, InitialState, PerformAll, LastRef;
    var rerun := JobOf(tools, calls, deps, final.responses, final.stored);
    var second := InitialState(calls, final.responses, final.stored);
    InitialStarts(rerun, final.responses, final.stored);
    StartKeeps(rerun, second);
    var done := RunSchedule(rerun, second);
    PerformAllKeeps(rerun, done, second);
    RequestlessRaw(rerun, Run(tools, deps, second).value);
  }

  lemma RequestlessRaw(job: Job, final: State)
    requires Kept(job, final) && final.requested == multiset{}
    ensures final.raw == job.seeds
  {
    hide Booked, Settled, Topological, RunClient;
    forall id | id in final.raw ensures id in job.seeds {
      assert final.requested[id] == 0;
    }
  }

  lemma SeededRerunHits(tools: Tools, calls: seq<ToolCall>, deps: Deps, cached: seq<ResponseRef>,
                        stored: map<string, RawResponse>)
    requires var job := JobOf(tools, calls, deps, cached, stored);
      WellFormed(job) && SourcesSettled(job, CachedNext(job))
    requires Run(tools, deps, InitialState(calls, cached, stored)).Done?
    requires var final := Run(tools, deps, InitialState(calls, cached, stored)).value;
      InitialState(calls, final.responses, final.stored).raw == final.raw
    ensures var final := Run(tools, deps, InitialState(calls, cached, stored)).value;
      FullHit(final, Run(tools, deps, InitialState(calls, final.responses, final.stored)))
  {
    hide Run, InitialState, MeaningOf, Stuck, SourcesSettled, SameEffects, SameMeaning, NothingToFetch, LastRef, Kept;
    var job := JobOf(tools, calls, deps, cached, stored);
    var first := InitialState(calls, cached, stored);
    InitialStarts(job, cached, stored);
    RunComputesMeaning(job, first);
    var final := Run(tools, deps, first).value;
    var second := InitialState(calls, final.responses, final.stored);
    var rerun := JobOf(tools, calls, deps, final.responses, final.stored);
    InitialStarts(rerun, final.responses, final.stored);
    KeptParts(job, final);
    FinalRawIsMeaning(job, final, rerun);
    RerunAgrees(job, rerun, first, second);
    NothingLeftToFetch(job, final, rerun);
    FullHitIsQuiet(tools, calls, deps, final.responses, final.stored);
  }

  lemma KeptParts(job: Job, final: State)
    requires Kept(job, final)
    ensures Booked(job, final) && RawTraced(job, final)
  {
  }

  /** A run on responses that mean the same, and no fewer of them, finishes with the same effects. */
  lemma RerunAgrees(job: Job, rerun: Job, first: State, second: State)
    requires WellFormed(job) && WellFormed(rerun) && rerun == job.(seeds := rerun.seeds)
    requires job.seeds.Keys <= rerun.seeds.Keys && forall id :: RawOf(job, id) == RawOf(rerun, id)
    requires Starts(job, first) && Starts(rerun, second) && Run(job.tools, job.deps, first).Done?
    ensures Run(job.tools, job.deps, second).Done?
    ensures SameEffects(Run(job.tools, job.deps, first).value, Run(job.tools, job.deps, second).value)
  {
    hide Run, RawOf, MeaningOf, Stuck, SourcesSettled, Agrees, SameEffects, SameMeaning, Settled, Traced, Topological,
         Metered;
    RunComputesMeaning(job, first);
    ReseededMeaning(job, rerun);
    forall ids | Stuck(rerun, ids) ensures Stuck(job, ids) {
      FewerSeedsStickMore(job, rerun, ids);
    }
    RunComputesMeaning(rerun, second);
    MeaningFixesEffects(job, rerun, Run(job.tools, job.deps, first).value, Run(job.tools, job.deps, second).value);
  }
}
