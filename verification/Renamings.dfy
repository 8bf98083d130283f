/**
 Cached and uncached runs when clients answer under a new response id each time: they agree up to a
 renaming of ids that the handlers carry through.
 */
module Renamings {
  import opened Outcomes
  import opened ToolPlans
  import opened Schedule
  import opened Ledger
  import opened Waits
  import opened Runs
  import opened Meaning
  import opened PlanTheorems
  import opened ResponseCache
  import opened CachedRuns

  datatype Renaming = Renaming(
    raw: RawResponse -> RawResponse,
    extraction: Extraction -> Extraction,
    derivation: Derivation -> Derivation,
    claim: ClaimEffect -> ClaimEffect)

  function Mapped<V, W>(f: V -> W, value: Option<V>): Option<W> {
    if value.Some? then Some(f(value.value)) else None
  }

  /** The second verdict is the first one renamed; errors may differ in their text. */
  predicate Renames(ren: Renaming, verdict: Verdict, renamed: Verdict) {
    if verdict.Fail? then renamed.Fail?
    else if verdict.Extracted? then renamed == Extracted(ren.extraction(verdict.extraction))
    else if verdict.Derived? then renamed == Derived(ren.derivation(verdict.derivation))
    else if verdict.Claimed? then renamed == Claimed(ren.claim(verdict.claim))
    else renamed == verdict
  }

  /** Handlers that are given a renamed source make the renamed effect. */
  ghost predicate Commutes(ren: Renaming, tools: Tools) {
    && (forall call, raw ::
          Renames(ren, ExtractVerdict(tools, call, Some(raw)), ExtractVerdict(tools, call, Some(ren.raw(raw)))))
    && (forall call, extraction ::
          Renames(ren, DeriveVerdict(tools, call, Some(extraction)),
                  DeriveVerdict(tools, call, Some(ren.extraction(extraction)))))
    && (forall call, derivation ::
          Renames(ren, ClaimVerdict(tools, call, Some(derivation)),
                  ClaimVerdict(tools, call, Some(ren.derivation(derivation)))))
  }

  /** Each cached response is the renamed answer of its client; the other answers keep their names. */
  ghost predicate FaithfulUpTo(ren: Renaming, job: Job) {
    && (forall id :: id in job.seeds ==>
          var call := FindCall(job.calls, id);
          call.Some? && call.value.stage.Fetch? && RunClient(job.tools, call.value).Done?
          && job.seeds[id] == ren.raw(RunClient(job.tools, call.value).value))
    && (forall c :: c in job.calls && Answers(job, c) ==>
          ren.raw(RunClient(job.tools, c).value) == RunClient(job.tools, c).value)
  }

  lemma RenamedRaw(ren: Renaming, job: Job, bare: Job, id: CallId)
    requires FaithfulUpTo(ren, job) && bare == job.(seeds := map[])
    ensures RawOf(job, id) == Mapped(ren.raw, RawOf(bare, id))
  {
    var call := FindCall(job.calls, id);
    if call.Some? && id !in job.seeds && call.value.stage.Fetch? && RunClient(job.tools, call.value).Done? {
      assert Answers(job, call.value);
    }
  }

  lemma RenamedExtraction(ren: Renaming, job: Job, bare: Job, id: CallId)
    requires FaithfulUpTo(ren, job) && Commutes(ren, job.tools) && bare == job.(seeds := map[])
    ensures ExtractionOf(job, id) == Mapped(ren.extraction, ExtractionOf(bare, id))
  {
    hide RawOf, ExtractVerdict, FaithfulUpTo;
    var call := FindCall(job.calls, id);
    if call.Some? {
      var source := SourceOf(call.value);
      RenamedRaw(ren, job, bare, source);
      if RawOf(bare, source).Some? {
        assert Renames(ren, ExtractVerdict(job.tools, call.value, Some(RawOf(bare, source).value)),
                       ExtractVerdict(job.tools, call.value, Some(ren.raw(RawOf(bare, source).value))));
      }
      SourcelessExtract(job.tools, call.value);
    }
  }

  lemma SourcelessExtract(tools: Tools, call: ToolCall)
    ensures !ExtractVerdict(tools, call, None).Extracted?
  {
  }

  lemma SourcelessDerive(tools: Tools, call: ToolCall)
    ensures !DeriveVerdict(tools, call, None).Derived?
  {
  }

  lemma RenamedDerivation(ren: Renaming, job: Job, bare: Job, id: CallId)
    requires FaithfulUpTo(ren, job) && Commutes(ren, job.tools) && bare == job.(seeds := map[])
    ensures DerivationOf(job, id) == Mapped(ren.derivation, DerivationOf(bare, id))
  {
    hide ExtractionOf, DeriveVerdict, FaithfulUpTo;
    var call := FindCall(job.calls, id);
    if call.Some? {
      var source := SourceOf(call.value);
      RenamedExtraction(ren, job, bare, source);
      if ExtractionOf(bare, source).Some? {
        assert Renames(ren, DeriveVerdict(job.tools, call.value, Some(ExtractionOf(bare, source).value)),
                       DeriveVerdict(job.tools, call.value, Some(ren.extraction(ExtractionOf(bare, source).value))));
      }
      SourcelessDerive(job.tools, call.value);
    }
  }

  /** What a verdict of the cached job has in common with the one of the bare job. */
  ghost predicate MeansAlike(ren: Renaming, job: Job, bare: Job, call: ToolCall) {
    var verdict, other := MeaningOf(bare, call), MeaningOf(job, call);
    && (other.Fail? <==> verdict.Fail?)
    && (!call.stage.Fetch? ==> Renames(ren, verdict, other))
    && (other.Skip? <==> verdict.Skip?)
    && (other.Skip? ==> other == verdict)
  }

  lemma FetchMeansAlike(ren: Renaming, job: Job, bare: Job, call: ToolCall)
    requires DistinctIds(job.calls) && call in job.calls && call.stage.Fetch?
    requires FaithfulUpTo(ren, job) && bare == job.(seeds := map[])
    ensures MeansAlike(ren, job, bare, call)
  {
    FindsItsCall(job.calls, call);
  }

  lemma ExtractMeansAlike(ren: Renaming, job: Job, bare: Job, call: ToolCall)
    requires call.stage.Extract? && FaithfulUpTo(ren, job) && Commutes(ren, job.tools) && bare == job.(seeds := map[])
    ensures MeansAlike(ren, job, bare, call)
  {
    hide RawOf, ExtractVerdict, FaithfulUpTo;
    RenamedRaw(ren, job, bare, SourceOf(call));
    UnsourcedVerdicts(ren, job.tools, call);
  }

  lemma DeriveMeansAlike(ren: Renaming, job: Job, bare: Job, call: ToolCall)
    requires call.stage.Derive? && FaithfulUpTo(ren, job) && Commutes(ren, job.tools) && bare == job.(seeds := map[])
    ensures MeansAlike(ren, job, bare, call)
  {
    hide ExtractionOf, DeriveVerdict, FaithfulUpTo;
    RenamedExtraction(ren, job, bare, SourceOf(call));
    UnsourcedVerdicts(ren, job.tools, call);
  }

  lemma ClaimMeansAlike(ren: Renaming, job: Job, bare: Job, call: ToolCall)
    requires call.stage.Claim? && FaithfulUpTo(ren, job) && Commutes(ren, job.tools) && bare == job.(seeds := map[])
    ensures MeansAlike(ren, job, bare, call)
  {
    hide DerivationOf, ClaimVerdict, FaithfulUpTo;
    RenamedDerivation(ren, job, bare, SourceOf(call));
    UnsourcedVerdicts(ren, job.tools, call);
  }

  lemma RenamedMeaning(ren: Renaming, job: Job, bare: Job, call: ToolCall)
    requires WellFormed(job) && call in job.calls
    requires FaithfulUpTo(ren, job) && Commutes(ren, job.tools) && bare == job.(seeds := map[])
    ensures MeansAlike(ren, job, bare, call)
  {
    hide FaithfulUpTo, Commutes, SourcesSettled;
    if call.stage.Unsupported? {
    } else {
      hide MeansAlike, MeaningOf;
      match call.stage
      case Fetch => FetchMeansAlike(ren, job, bare, call);
      case Extract => ExtractMeansAlike(ren, job, bare, call);
      case Derive => DeriveMeansAlike(ren, job, bare, call);
      case Claim => ClaimMeansAlike(ren, job, bare, call);
    }
  }

  lemma UnsourcedVerdicts(ren: Renaming, tools: Tools, call: ToolCall)
    ensures Renames(ren, ExtractVerdict(tools, call, None), ExtractVerdict(tools, call, None))
    ensures Renames(ren, DeriveVerdict(tools, call, None), DeriveVerdict(tools, call, None))
    ensures Renames(ren, ClaimVerdict(tools, call, None), ClaimVerdict(tools, call, None))
  {
  }

  function ClaimsMapped(ren: Renaming, claims: seq<ClaimEffect>): seq<ClaimEffect> {
    seq(|claims|, i requires 0 <= i < |claims| => ren.claim(claims[i]))
  }

  /** The same skips, and the renamed tables and (as a bag) claims. */
  ghost predicate RenamedEffects(ren: Renaming, final: State, bare: State) {
    && (forall id :: Lookup(final.raw, id) == Mapped(ren.raw, Lookup(bare.raw, id)))
    && (forall id :: Lookup(final.extractions, id) == Mapped(ren.extraction, Lookup(bare.extractions, id)))
    && (forall id :: Lookup(final.derivations, id) == Mapped(ren.derivation, Lookup(bare.derivations, id)))
    && final.skipped == bare.skipped
    && multiset(final.claims) == multiset(ClaimsMapped(ren, bare.claims))
  }

  lemma RenamedClaimOf(ren: Renaming, job: Job, bare: Job, id: CallId)
    requires WellFormed(job) && FaithfulUpTo(ren, job) && Commutes(ren, job.tools) && bare == job.(seeds := map[])
    ensures ClaimOf(job, id) == Mapped(ren.claim, ClaimOf(bare, id))
    ensures SkipOf(job, id) == SkipOf(bare, id)
  {
    hide MeaningOf, FaithfulUpTo, Commutes, WellFormed;
    var call := FindCall(job.calls, id);
    if call.Some? {
      RenamedMeaning(ren, job, bare, call.value);
      MeaningFitsStage(job, call.value);
      MeaningFitsStage(bare, call.value);
    }
  }

  lemma {:induction false} RenamedClaims(ren: Renaming, job: Job, bare: Job, log: seq<CallId>)
    requires WellFormed(job) && FaithfulUpTo(ren, job) && Commutes(ren, job.tools) && bare == job.(seeds := map[])
    ensures ClaimsOf(job, log) == ClaimsMapped(ren, ClaimsOf(bare, log))
  {
    hide ClaimOf, FaithfulUpTo, Commutes, WellFormed;
    if log != [] {
      RenamedClaims(ren, job, bare, log[..|log| - 1]);
      RenamedClaimOf(ren, job, bare, log[|log| - 1]);
    }
  }

  /** In a finished state, looking a call up finds its meaning. */
  lemma FinalLookups(job: Job, final: State, id: CallId)
    requires Agrees(job, final) && forall i :: i in final.log <==> i in Ids(job.calls)
    ensures Lookup(final.raw, id) == RawOf(job, id)
    ensures Lookup(final.extractions, id) == ExtractionOf(job, id)
    ensures Lookup(final.derivations, id) == DerivationOf(job, id)
    ensures Lookup(final.skipped, id) == SkipOf(job, id)
  {
    hide ExtractVerdict, DeriveVerdict, FetchVerdict, MeaningOf, ClaimsOf;
    SeedOrCall(job, id);
    var call := FindCall(job.calls, id);
    assert call.Some? ==> call.value in job.calls && id in Ids(job.calls);
  }

  lemma RenamedLookups(ren: Renaming, job: Job, bare: Job, final: State, bareFinal: State, id: CallId)
    requires WellFormed(job) && FaithfulUpTo(ren, job) && Commutes(ren, job.tools) && bare == job.(seeds := map[])
    requires Agrees(job, final) && Agrees(bare, bareFinal)
    requires forall i :: i in final.log <==> i in Ids(job.calls)
    requires forall i :: i in bareFinal.log <==> i in Ids(job.calls)
    ensures Lookup(final.raw, id) == Mapped(ren.raw, Lookup(bareFinal.raw, id))
    ensures Lookup(final.extractions, id) == Mapped(ren.extraction, Lookup(bareFinal.extractions, id))
    ensures Lookup(final.derivations, id) == Mapped(ren.derivation, Lookup(bareFinal.derivations, id))
    ensures Lookup(final.skipped, id) == Lookup(bareFinal.skipped, id)
  {
    hide RawOf, ExtractionOf, DerivationOf, SkipOf, Agrees, Lookup, FaithfulUpTo, Commutes, WellFormed;
    FinalLookups(job, final, id);
    FinalLookups(bare, bareFinal, id);
    RenamedRaw(ren, job, bare, id);
    RenamedExtraction(ren, job, bare, id);
    RenamedDerivation(ren, job, bare, id);
    RenamedClaimOf(ren, job, bare, id);
  }

  lemma RenamedFinals(ren: Renaming, job: Job, bare: Job, final: State, bareFinal: State)
    requires WellFormed(job) && FaithfulUpTo(ren, job) && Commutes(ren, job.tools) && bare == job.(seeds := map[])
    requires Booked(job, final) && Agrees(job, final) && final.pending == []
    requires Booked(bare, bareFinal) && Agrees(bare, bareFinal) && bareFinal.pending == []
    ensures RenamedEffects(ren, final, bareFinal)
  {
    hide Booked, RawAgrees, ExtractionsAgree, DerivationsAgree, SkipsAgree, FaithfulUpTo, Commutes, WellFormed,
         ClaimsOf, MeaningOf;
    LoggedIsPlanned(job, final);
    LoggedIsPlanned(bare, bareFinal);
    forall id
      ensures Lookup(final.raw, id) == Mapped(ren.raw, Lookup(bareFinal.raw, id))
      ensures Lookup(final.extractions, id) == Mapped(ren.extraction, Lookup(bareFinal.extractions, id))
      ensures Lookup(final.derivations, id) == Mapped(ren.derivation, Lookup(bareFinal.derivations, id))
      ensures Lookup(final.skipped, id) == Lookup(bareFinal.skipped, id)
    {
      RenamedLookups(ren, job, bare, final, bareFinal, id);
    }
    SameLookups(final.skipped, bareFinal.skipped);
    LogsPermute(job, bare, final, bareFinal);
    ClaimsPermute(job, job, final.log, bareFinal.log);
    RenamedClaims(ren, job, bare, bareFinal.log);
  }

  lemma SameLookups<V>(table: map<CallId, V>, other: map<CallId, V>)
    requires forall id :: Lookup(table, id) == Lookup(other, id)
    ensures table == other
  {
    assert forall id :: id in table <==> Lookup(table, id).Some?;
    assert forall id :: id in other <==> Lookup(other, id).Some?;
    assert forall id :: id in table ==> Lookup(table, id) == Some(table[id]);
  }

  lemma LogsPermute(job: Job, bare: Job, final: State, bareFinal: State)
    requires Booked(job, final) && Booked(bare, bareFinal)
    requires forall id :: id in final.log <==> id in bareFinal.log
    ensures multiset(final.log) == multiset(bareFinal.log)
  {
    SameLogs(final.log, bareFinal.log);
  }

  /**
   With a cache faithful up to a renaming that the handlers carry through, the uncached run finishes exactly
   when the cached one does and nothing is stuck without the cache, and the cached run's effects are then
   the renamed ones of the uncached run, with the same skips.
   */
  lemma CachedAgreesUpToRenaming(ren: Renaming, job: Job, bare: Job, st: State, bareSt: State)
    requires WellFormed(job) && FaithfulUpTo(ren, job) && Commutes(ren, job.tools)
    requires bare == job.(seeds := map[]) && WellFormed(bare)
    requires Starts(job, st) && Starts(bare, bareSt)
    ensures Run(bare.tools, bare.deps, bareSt).Done? <==>
            Run(job.tools, job.deps, st).Done? && !exists calls :: Stuck(bare, calls)
    ensures Run(bare.tools, bare.deps, bareSt).Done? ==>
              RenamedEffects(ren, Run(job.tools, job.deps, st).value, Run(bare.tools, bare.deps, bareSt).value)
  {
    hide Run, MeaningOf, Agrees, Booked, Settled, Traced, Topological, Metered, Stuck, FaithfulUpTo, Commutes,
         RenamedEffects, SourcesSettled, SeedsAreFetches, Renames;
    forall c | c in job.calls ensures MeaningOf(job, c).Fail? <==> MeaningOf(bare, c).Fail? {
      RenamedMeaning(ren, job, bare, c);
    }
    forall calls | Stuck(job, calls) ensures Stuck(bare, calls) { FewerSeedsStickMore(bare, job, calls); }
    RunComputesMeaning(job, st);
    RunComputesMeaning(bare, bareSt);
    if Run(bare.tools, bare.deps, bareSt).Done? {
      RenamedFinals(ren, job, bare, Run(job.tools, job.deps, st).value, Run(bare.tools, bare.deps, bareSt).value);
    }
  }
}
