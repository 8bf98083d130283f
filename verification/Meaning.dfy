/**
 What a plan means, with no schedule: each call is evaluated from its source call's meaning.
 Runs are proved to compute it, and to finish exactly when it is defined and nothing is stuck.
 */
module Meaning {
  import opened Outcomes
  import opened ToolPlans
  import opened Schedule
  import opened Ledger
  import opened Waits
  import opened Runs

  function RawOf(job: Job, id: CallId): Option<RawResponse> {
    if id in job.seeds then
      Some(job.seeds[id])
    else
      match FindCall(job.calls, id)
      case None => None
      case Some(call) =>
        var verdict := FetchVerdict(job.tools, call, false);
        if call.stage.Fetch? && verdict.Fetched? then Some(verdict.raw) else None
  }

  function ExtractionOf(job: Job, id: CallId): Option<Extraction> {
    match FindCall(job.calls, id)
    case None => None
    case Some(call) =>
      var verdict := ExtractVerdict(job.tools, call, RawOf(job, SourceOf(call)));
      if call.stage.Extract? && verdict.Extracted? then Some(verdict.extraction) else None
  }

  function DerivationOf(job: Job, id: CallId): Option<Derivation> {
    match FindCall(job.calls, id)
    case None => None
    case Some(call) =>
      var verdict := DeriveVerdict(job.tools, call, ExtractionOf(job, SourceOf(call)));
      if call.stage.Derive? && verdict.Derived? then Some(verdict.derivation) else None
  }

  function MeaningOf(job: Job, call: ToolCall): Verdict {
    match call.stage
    case Fetch => FetchVerdict(job.tools, call, call.callId in job.seeds)
    case Extract => ExtractVerdict(job.tools, call, RawOf(job, SourceOf(call)))
    case Derive => DeriveVerdict(job.tools, call, ExtractionOf(job, SourceOf(call)))
    case Claim => ClaimVerdict(job.tools, call, DerivationOf(job, SourceOf(call)))
    case Unsupported(_) => Fail(UnsupportedStage(call.callId))
  }

  function SkipOf(job: Job, id: CallId): Option<SkippedCall> {
    match FindCall(job.calls, id)
    case None => None
    case Some(call) =>
      var verdict := MeaningOf(job, call);
      if verdict.Skip? then Some(verdict.record) else None
  }

  function ClaimOf(job: Job, id: CallId): Option<ClaimEffect> {
    match FindCall(job.calls, id)
    case None => None
    case Some(call) =>
      var verdict := MeaningOf(job, call);
      if verdict.Claimed? then Some(verdict.claim) else None
  }

  /** The claims of the calls in `log`, in that order. */
  function ClaimsOf(job: Job, log: seq<CallId>): seq<ClaimEffect> {
    if log == [] then []
    else
      var last := ClaimOf(job, log[|log| - 1]);
      ClaimsOf(job, log[..|log| - 1]) + if last.Some? then [last.value] else []
  }

  /** The source, if it is in the plan, is one of the dependencies themselves. */
  ghost predicate SourcesAreDependencies(job: Job) {
    forall c :: c in job.calls && !c.stage.Fetch? && FindCall(job.calls, SourceOf(c)).Some? ==>
      SourceOf(c) in DepsOf(job.deps, c.callId)
  }

  /** The source is cached, or awaited, or a fetch call that is done before any call of a later stage. */
  ghost predicate SourceSettled(job: Job, cached: set<CallId>, call: ToolCall) {
    || SourceOf(call) in cached
    || Awaits(job.deps, cached, call.callId, SourceOf(call))
    || exists f :: f in job.calls && f.callId == SourceOf(call) && FetchedFirst(job, cached, f)
  }

  ghost predicate SourcesSettled(job: Job, cached: set<CallId>) {
    forall c :: c in job.calls && !c.stage.Fetch? && FindCall(job.calls, SourceOf(c)).Some? ==>
      SourceSettled(job, cached, c)
  }

  /** A cached call does not hold its dependents back, so a wait for a source must not lead through one. */
  ghost predicate WellFormed(job: Job) {
    DistinctIds(job.calls) && SourcesSettled(job, job.seeds.Keys) && SeedsAreFetches(job)
  }

  /** In particular, sources that are listed as dependencies are settled, whatever is cached. */
  lemma DependenciesAreSettled(job: Job, cached: set<CallId>)
    requires SourcesAreDependencies(job)
    ensures SourcesSettled(job, cached)
  {
    forall c | c in job.calls && !c.stage.Fetch? && FindCall(job.calls, SourceOf(c)).Some?
      ensures SourceSettled(job, cached, c)
    {
      AwaitsDependency(job.deps, cached, c.callId, SourceOf(c));
    }
  }

  ghost predicate RawAgrees(job: Job, st: State) {
    && (forall id :: id in st.raw <==> (id in job.seeds || id in st.log) && RawOf(job, id).Some?)
    && (forall id :: id in st.raw ==> RawOf(job, id) == Some(st.raw[id]))
  }

  ghost predicate ExtractionsAgree(job: Job, st: State) {
    && (forall id :: id in st.extractions <==> id in st.log && ExtractionOf(job, id).Some?)
    && (forall id :: id in st.extractions ==> ExtractionOf(job, id) == Some(st.extractions[id]))
  }

  ghost predicate DerivationsAgree(job: Job, st: State) {
    && (forall id :: id in st.derivations <==> id in st.log && DerivationOf(job, id).Some?)
    && (forall id :: id in st.derivations ==> DerivationOf(job, id) == Some(st.derivations[id]))
  }

  ghost predicate SkipsAgree(job: Job, st: State) {
    && (forall id :: id in st.skipped <==> id in st.log && SkipOf(job, id).Some?)
    && (forall id :: id in st.skipped ==> SkipOf(job, id) == Some(st.skipped[id]))
  }

  /** The effect tables hold exactly the meanings of the logged calls (and the cached responses). */
  ghost predicate Agrees(job: Job, st: State) {
    && RawAgrees(job, st)
    && ExtractionsAgree(job, st)
    && DerivationsAgree(job, st)
    && SkipsAgree(job, st)
    && st.claims == ClaimsOf(job, st.log)
    && (forall c :: c in job.calls && c.callId in st.log ==> !MeaningOf(job, c).Fail?)
  }

  lemma StartAgrees(job: Job, st: State)
    requires Starts(job, st)
    ensures Agrees(job, st)
  {
  }

  lemma SeededIsNotSkipped(job: Job, id: CallId)
    requires WellFormed(job) && id in job.seeds
    ensures SkipOf(job, id).None? && ExtractionOf(job, id).None? && DerivationOf(job, id).None?
  {
  }

  lemma SkippedHasNoEffect(job: Job, id: CallId)
    requires WellFormed(job) && SkipOf(job, id).Some?
    ensures RawOf(job, id).None? && ExtractionOf(job, id).None? && DerivationOf(job, id).None?
  {
    if id in job.seeds { SeededIsNotSkipped(job, id); }
  }

  /** The source of a ready call is logged or cached, if it is in the plan at all. */
  lemma ReadySource(job: Job, call: ToolCall, st: State)
    requires WellFormed(job) && Booked(job, st) && Topological(job, st) && FirstFetched(job, st)
    requires call in st.pending && !call.stage.Fetch? && Ready(job.deps, call, st)
    requires FindCall(job.calls, SourceOf(call)).Some?
    ensures SourceOf(call) in st.log || SourceOf(call) in job.seeds
  {
    assert SourceSettled(job, job.seeds.Keys, call);
    if Awaits(job.deps, job.seeds.Keys, call.callId, SourceOf(call)) {
      AwaitedCompletes(job, st, call.callId, SourceOf(call));
    }
  }

  lemma RawAvailable(job: Job, call: ToolCall, st: State)
    requires WellFormed(job) && Booked(job, st) && Topological(job, st) && Agrees(job, st) && FirstFetched(job, st)
    requires call in st.pending && !call.stage.Fetch? && Ready(job.deps, call, st)
    ensures Available(st.raw, st.skipped, SourceOf(call)) == RawOf(job, SourceOf(call))
  {
    hide Topological, SourcesSettled, FirstFetched, FetchVerdict, MeaningOf;
    var source := SourceOf(call);
    if source in st.skipped {
      SkippedHasNoEffect(job, source);
    } else if RawOf(job, source).Some? && source !in job.seeds {
      ReadySource(job, call, st);
    }
  }

  lemma ExtractionAvailable(job: Job, call: ToolCall, st: State)
    requires WellFormed(job) && Booked(job, st) && Topological(job, st) && Agrees(job, st) && FirstFetched(job, st)
    requires call in st.pending && !call.stage.Fetch? && Ready(job.deps, call, st)
    ensures Available(st.extractions, st.skipped, SourceOf(call)) == ExtractionOf(job, SourceOf(call))
  {
    hide Topological, SourcesSettled, FirstFetched, ExtractVerdict, MeaningOf;
    var source := SourceOf(call);
    if source in st.skipped {
      SkippedHasNoEffect(job, source);
    } else if ExtractionOf(job, source).Some? {
      ReadySource(job, call, st);
      if source in job.seeds { SeededIsNotSkipped(job, source); }
    }
  }

  lemma DerivationAvailable(job: Job, call: ToolCall, st: State)
    requires WellFormed(job) && Booked(job, st) && Topological(job, st) && Agrees(job, st) && FirstFetched(job, st)
    requires call in st.pending && !call.stage.Fetch? && Ready(job.deps, call, st)
    ensures Available(st.derivations, st.skipped, SourceOf(call)) == DerivationOf(job, SourceOf(call))
  {
    hide Topological, SourcesSettled, FirstFetched, DeriveVerdict, MeaningOf;
    var source := SourceOf(call);
    if source in st.skipped {
      SkippedHasNoEffect(job, source);
    } else if DerivationOf(job, source).Some? {
      ReadySource(job, call, st);
      if source in job.seeds { SeededIsNotSkipped(job, source); }
    }
  }

  /** When its turn comes, a call is judged exactly as it is evaluated without any schedule. */
  lemma JudgedAsMeant(job: Job, call: ToolCall, st: State)
    requires WellFormed(job) && Booked(job, st) && Topological(job, st) && Agrees(job, st)
    requires call.stage.Fetch? || FirstFetched(job, st)
    requires call in st.pending && Ready(job.deps, call, st)
    ensures Judge(job.tools, call, st) == MeaningOf(job, call)
  {
    hide Topological, SourcesSettled, FirstFetched, FetchVerdict, ExtractVerdict, DeriveVerdict, ClaimVerdict,
         Available, RawOf, ExtractionOf, DerivationOf;
    match call.stage
    case Fetch =>
      assert call.callId in st.raw <==> call.callId in job.seeds by { SeedOrNothing(job, call, st); }
    case Extract => RawAvailable(job, call, st);
    case Derive => ExtractionAvailable(job, call, st);
    case Claim => DerivationAvailable(job, call, st);
    case Unsupported(_) =>
  }

  lemma SeedOrNothing(job: Job, call: ToolCall, st: State)
    requires Booked(job, st) && Agrees(job, st) && call in st.pending
    ensures call.callId in st.raw <==> call.callId in job.seeds
  {
    assert call.callId !in st.log;
    if call.callId in job.seeds {
      assert RawOf(job, call.callId) == Some(job.seeds[call.callId]);
    }
  }

  /** The verdicts each stage can mean. */
  lemma MeaningFitsStage(job: Job, call: ToolCall)
    ensures var verdict := MeaningOf(job, call);
            match call.stage
            case Fetch =>
              && (verdict.Cached? <==> call.callId in job.seeds)
              && (verdict.Cached? || verdict.Fetched? || verdict.Skip? || verdict.Fail?)
            case Extract => verdict.Extracted? || verdict.Skip? || verdict.Fail?
            case Derive => verdict.Derived? || verdict.Skip? || verdict.Fail?
            case Claim => verdict.Claimed? || verdict.Skip? || verdict.Fail?
            case Unsupported(_) => verdict.Fail?
  {
  }

  /** What a plan call's verdict says about each effect table. */
  lemma MeaningFills(job: Job, call: ToolCall)
    requires WellFormed(job) && call in job.calls
    ensures var verdict := MeaningOf(job, call);
            && (verdict.Cached? <==> call.callId in job.seeds)
            && (call.callId !in job.seeds ==>
                  RawOf(job, call.callId) == if verdict.Fetched? then Some(verdict.raw) else None)
            && ExtractionOf(job, call.callId) ==
                 (if verdict.Extracted? then Some(verdict.extraction) else None)
            && DerivationOf(job, call.callId) ==
                 (if verdict.Derived? then Some(verdict.derivation) else None)
            && SkipOf(job, call.callId) == (if verdict.Skip? then Some(verdict.record) else None)
            && ClaimOf(job, call.callId) == (if verdict.Claimed? then Some(verdict.claim) else None)
  {
    hide FetchVerdict, ExtractVerdict, DeriveVerdict, ClaimVerdict;
    MeaningFitsStage(job, call);
    FindsItsCall(job.calls, call);
  }

  lemma RecordAgreesRaw(job: Job, call: ToolCall, st: State, next: State)
    requires WellFormed(job) && RawAgrees(job, st)
    requires call in job.calls && call.callId !in st.log
    requires Advances(call, st, next) && Records(job, call, MeaningOf(job, call), st, next)
    ensures RawAgrees(job, next)
  {
    hide MeaningOf, ExtractionOf, DerivationOf, SkipOf, ClaimOf, RawOf, WellFormed, Without;
    MeaningFills(job, call);
    SeedMeansItself(job, call.callId);
    assert forall id :: id in next.log <==> id in st.log || id == call.callId;
  }

  lemma RecordAgreesExtractions(job: Job, call: ToolCall, st: State, next: State)
    requires WellFormed(job) && ExtractionsAgree(job, st) && DerivationsAgree(job, st)
    requires call in job.calls && call.callId !in st.log
    requires Advances(call, st, next) && Records(job, call, MeaningOf(job, call), st, next)
    ensures ExtractionsAgree(job, next) && DerivationsAgree(job, next)
  {
    hide MeaningOf, ExtractionOf, DerivationOf, SkipOf, ClaimOf, RawOf, WellFormed, Without;
    MeaningFills(job, call);
    assert forall id :: id in next.log <==> id in st.log || id == call.callId;
  }

  lemma RecordAgreesSkips(job: Job, call: ToolCall, st: State, next: State)
    requires WellFormed(job) && SkipsAgree(job, st)
    requires call in job.calls && call.callId !in st.log
    requires Advances(call, st, next) && Records(job, call, MeaningOf(job, call), st, next)
    ensures SkipsAgree(job, next)
  {
    hide MeaningOf, ExtractionOf, DerivationOf, SkipOf, ClaimOf, RawOf, WellFormed, Without;
    MeaningFills(job, call);
    assert forall id :: id in next.log <==> id in st.log || id == call.callId;
  }

  lemma RecordAgrees(job: Job, call: ToolCall, st: State, next: State)
    requires WellFormed(job) && Booked(job, st) && Agrees(job, st)
    requires call in st.pending && !MeaningOf(job, call).Fail?
    requires Advances(call, st, next) && Records(job, call, MeaningOf(job, call), st, next)
    ensures Agrees(job, next)
  {
    hide MeaningOf, ClaimOf, Booked, RawAgrees, ExtractionsAgree, DerivationsAgree, SkipsAgree;
    BookedPending(job, call, st);
    RecordAgreesRaw(job, call, st, next);
    RecordAgreesExtractions(job, call, st, next);
    RecordAgreesSkips(job, call, st, next);
    MeaningFills(job, call);
    assert next.log[..|next.log| - 1] == st.log;
    forall c | c in job.calls && c.callId in next.log ensures !MeaningOf(job, c).Fail? {
      if c.callId == call.callId {
        FindsItsCall(job.calls, call);
        FindsItsCall(job.calls, c);
      }
    }
  }

  lemma SeedMeansItself(job: Job, id: CallId)
    ensures id in job.seeds ==> RawOf(job, id) == Some(job.seeds[id])
  {
  }

  lemma BookedPending(job: Job, call: ToolCall, st: State)
    requires Booked(job, st) && call in st.pending
    ensures call in job.calls && call.callId !in st.log
  {
  }

  lemma PerformAgrees(job: Job, call: ToolCall, st: State)
    requires WellFormed(job) && Booked(job, st) && Topological(job, st) && Agrees(job, st)
    requires call.stage.Fetch? || FirstFetched(job, st)
    requires call in st.pending && Ready(job.deps, call, st)
    ensures Perform(job.tools, call, st).Raised? <==> MeaningOf(job, call).Fail?
    ensures Perform(job.tools, call, st).Done? ==> Agrees(job, Perform(job.tools, call, st).value)
  {
    hide Topological, WellFormed, MeaningOf, Agrees, Booked, Judge, FirstFetched;
    JudgedAsMeant(job, call, st);
    if Perform(job.tools, call, st).Done? {
      PerformRecords(job, call, st);
      RecordAgrees(job, call, st, Perform(job.tools, call, st).value);
    }
  }

  lemma {:induction false} PerformAllAgrees(job: Job, calls: seq<ToolCall>, st: State)
    requires WellFormed(job) && Kept(job, st) && Agrees(job, st)
    requires Permitted(job, calls, st) && FetchesFirst(job, calls, st)
    ensures match PerformAll(job.tools, calls, st)
            case Done(next) => Kept(job, next) && Agrees(job, next)
            case Raised(_) => exists c :: c in job.calls && MeaningOf(job, c).Fail?
  {
    hide Agrees, MeaningOf, Settled, Traced, Topological, Metered, FirstFetched;
    if calls != [] {
      PerformAgrees(job, calls[0], st);
      BookedPending(job, calls[0], st);
      var performed := Perform(job.tools, calls[0], st);
      if performed.Done? {
        PerformKeeps(job, calls[0], st);
        PerformAllAgrees(job, calls[1..], performed.value);
      }
    }
  }

  // ----- When a run finishes

  ghost predicate Executable(job: Job) {
    && (forall c :: c in job.calls ==> !MeaningOf(job, c).Fail?)
    && !exists calls :: Stuck(job, calls)
  }

  lemma DeadlockIsStuck(job: Job, st: State)
    requires Booked(job, st) && Deadlocked(job, st)
    ensures Stuck(job, Ids(st.pending))
  {
    forall id | id in Ids(st.pending)
      ensures exists dep :: dep in DepsOf(job.deps, id) && dep !in job.seeds &&
                            (dep in Ids(st.pending) || dep !in Ids(job.calls))
    {
      var c :| c in st.pending && c.callId == id;
      assert !Ready(job.deps, c, st);
      var dep :| dep in DepsOf(job.deps, id) && dep !in st.completed;
      if dep in Ids(job.calls) {
        var d :| d in job.calls && d.callId == dep;
        assert d in st.pending;
      }
    }
    assert st.pending[0] in st.pending;
    assert st.pending[0].callId in Ids(st.pending);
  }

  /** The first logged call of a stuck set would have found its dependency missing. */
  lemma {:induction false} StuckNeverLogged(job: Job, st: State, calls: set<CallId>, n: nat)
    requires Booked(job, st) && Topological(job, st) && Stuck(job, calls)
    requires n <= |st.log|
    ensures forall i :: 0 <= i < n ==> st.log[i] !in calls
  {
    if n > 0 {
      StuckNeverLogged(job, st, calls, n - 1);
      var id := st.log[n - 1];
      forall dep | dep in DepsOf(job.deps, id) && dep !in job.seeds
        ensures dep !in calls && dep in Ids(job.calls)
      {
        var k :| 0 <= k < n - 1 && st.log[k] == dep;
        assert FindCall(job.calls, st.log[k]).value in job.calls;
      }
    }
  }

  lemma FinishedIsNotStuck(job: Job, st: State, calls: set<CallId>)
    requires Booked(job, st) && Topological(job, st) && st.pending == []
    ensures !Stuck(job, calls)
  {
    if Stuck(job, calls) {
      var id :| id in calls;
      var c :| c in job.calls && c.callId == id;
      assert c !in st.pending;
      assert id in st.log;
      StuckNeverLogged(job, st, calls, |st.log|);
    }
  }

  /**
   The main theorem. A run of a well-formed plan finishes exactly when every call has a meaning
   and no set of calls is stuck; it then holds exactly those meanings.
   */
  lemma RunComputesMeaning(job: Job, st: State)
    requires WellFormed(job) && Starts(job, st)
    ensures Run(job.tools, job.deps, st).Done? <==> Executable(job)
    ensures Run(job.tools, job.deps, st).Done? ==>
              var final := Run(job.tools, job.deps, st).value;
              Kept(job, final) && Agrees(job, final) && final.pending == []
    ensures Run(job.tools, job.deps, st) == Raised(DependencyCycle) ==> exists calls :: Stuck(job, calls)
  {
    hide MeaningOf, Settled, Traced, Metered, Run, PerformAll, FetchesFirst;
    StartKeeps(job, st);
    StartAgrees(job, st);
    var done := RunSchedule(job, st);
    if Flows(job) {
      PerformAllAgrees(job, done, st);
    }
    match Run(job.tools, job.deps, st)
    case Done(final) =>
      PerformAllKeeps(job, done, st);
      forall calls ensures !Stuck(job, calls) { FinishedIsNotStuck(job, final, calls); }
      forall c | c in job.calls ensures !MeaningOf(job, c).Fail? {
        assert c !in final.pending;
      }
    case Raised(_) =>
      var reached := PerformAll(job.tools, done, st);
      if reached.Done? {
        PerformAllKeeps(job, done, st);
        DeadlockIsStuck(job, reached.value);
      }
  }
}
