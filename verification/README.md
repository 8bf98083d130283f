# Verification of langnet's execution, briefing and dictionary core

This Dafny 4.11 project models the parts of langnet that hold real algorithms, and proves what they
promise. `dafny verify dfyconfig.toml` checks all of it.

Code that changes things step by step is modelled as classes and methods with loops (the executor, the
validator's issue list, the briefing cache, the edit distance, the crawl, the importers and loaders, the
samplers). Each method is proved against a specification on values, and the properties are lemmas about
that specification: for all plans, payloads, texts, pages or candidates.

## What is modelled

- **The staged plan executor** (`ToolPlans`, `Schedule`, `Ledger`, `Waits`, `Runs`, `Meaning`,
  `PlanTheorems`, `OrderExact`, `PlanFacts`, `ResponseCache`, `EffectLists`, `CachedRuns`, `Renamings`,
  `NamedEffects`, `Executor`). `Schedule` has the scheduler's transitions on values, `Executor` the class
  with its dictionaries and loops, `Meaning` an evaluation of a plan that knows no schedule at all. The main
  theorem, `Meaning.RunComputesMeaning`, says when a run finishes and that it then holds exactly those
  meanings; `PlanFacts.RunSolves` tells the same by the calls' parameters, the tools and the final tables
  alone. Order independence, cache agreement, skip closure and provenance follow. Clients and handlers are
  unknown functions that may raise.
- **The grounded briefing** (`Json`, `TextOrder`, `Validator`, `Issues`, `Briefing`, `DigestFacts`,
  `BriefingFlow`, `DigestProvenance`, `ExactCopies`). The validator is sound and complete for a relation
  written field by field, and reports exactly the issues there are; the digest shows what the payload shows,
  and the draft what the digest shows; the draft always passes for a built digest; so the final output is
  grounded whatever the model answered, and what the validator compares of it is in the encounter payload.
  Three fields it does not compare.
- **Edit distance and word lists** (`EditDistance`, `WordList`, `WordOrder`). The two-row loop is optimal
  over edit scripts and a metric; merging and ranking do not depend on the order of the entries, and the
  words returned are the first in an order told by distances, counts and texts.
- **The Velthuis converter** (`Velthuis`, `VelthuisWords`). Words over the phonemes of the tables, with a
  Devanagari encoder after the Unicode chart and an IAST spelling; exactly when both give the same text.
- **Building the Diogenes index** (`EntryIndex`, `Crawl`, `CrawlWindow`, `PageCrawl`, `Batches`,
  `LinkedImport`), and the **batched loaders** of DICO and Gaffiot (`Loaders`).
- **Encounter spans** (`Encounters`, `EncounterFacts`), **balanced sampling** (`Sampling`), the **word of
  the day** (`WordOfDay`), **anchors** (`Anchors`), and **preferred lemmas** and **learner quality**
  (`LemmaRanking`, `TextQuality`, `QualityTexts`).

`Outcomes` and `Splitting` hold what several modules share.

## Results that are not what one might expect

These follow the code. Where a promise fails, the lemma named says exactly when it is met.

- What a plan does can depend on the order in which its calls are listed. It does not if and only if every
  source in the plan is cached, or awaited by its call along dependencies that are not cached, or a fetch
  call that waits for fetch calls only (`OrderExact.OrderFreeExactly`, for plans of which some run executes
  every call; `PlanTheorems.OrderMattersWithoutDependency` shows two orders that differ).
- The references that a run caches lead back to its responses only if the new response ids are kept apart
  from each other and from those that cached calls are read from (`ResponseCache.RunLeavesCoherentCache`).
- A faithful cache can let a plan finish that reports a cycle without it, as a cached fetch completes
  before its dependencies (`CachedRuns.CachedAgreesWithUncached`; `CachedRuns.CachedFetchBreaksCycle` has
  the smallest plan that does so).
- The output contract of a briefing asks for exact copies of a meaning's translation sources and of a
  grammar row's lemma and Foster display, but nothing checks them: for every payload some accepted answer
  does not copy them (`ExactCopies.SomeAnswerIsNotCopied`), and only the model's answer decides
  (`ExactCopies.FinalOutputCopiesExactly`).
- The demerit of 320 for dictionary headers never applies, as the texts are casefolded before
  (`TextQuality.NoHeader`); so seven places of lead in rank always decide (`QualityTexts.LeadDecides`).
- "Dependency cycle detected" is also raised for a dependency on a call that is not in the plan
  (`PlanTheorems.StuckUnlessRanked` covers both). A comment at
  `src/langnet/execution/executor.py:669` says the plan index is written for new responses only; it is
  also written when all were cached, which `ResponseCache.FullHitIsQuiet` shows to be harmless.
- The Devanagari converter adds an "a" after a character outside Devanagari, and after a bare consonant
  before a sign (`VelthuisWords.DevanagariSpells`).
- The Gaffiot loader writes one row for a limit below one (`Loaders.LimitKept`); DICO does not.
- The word of the day may return one item when none is asked for (`WordOfDay.CountKept`,
  `WordOfDay.NoneAskedFor`), and ambiguous repeats even when only clean items are wanted
  (`WordOfDay.CleanExactly`).
- The docstring of `_rank_word_list` gives the ranking as distance, then frequency, then length; the
  fragment penalty comes before all of them, and `order_weight` is merged but never used to rank. The
  model follows the code.
- A sense key with a `#`, a form with an arrow and a lemma with a `#` do not read back from their anchors;
  what the lemma read from an interpretation is then, `Anchors.InterpKeepsLemma` says.

## Model

| member | source | states |
|---|---|---|
| `Schedule.BatchIsSequential` | src/langnet/execution/executor.py:273-321 | A parallel batch of ready fetch calls leaves the very state (maps, references, effect order, skips) that performing the same calls one at a time leaves, and raises exactly when that raises. |
| `Executor.StagedExecution.RunInPool` | src/langnet/execution/executor.py:310-317 | Whatever order the pool completes its futures in, position k of the answers is the answer to the k-th submitted call, and each client is called once. |
| `Executor.StagedExecution.HandleReadyFetchCalls` | src/langnet/execution/executor.py:273-321 | On the live object, a batch with out-of-order completions ends in the same state as storing the answers in submission order; the returned ids are exactly those of the given calls. |
| `Executor.StagedExecution.constructor` | src/langnet/execution/executor.py:170-207 | A fresh executor starts in the state whose seeds, completed calls and references come from the cached references (see `InitiallySeeded` for what they are). |
| `Executor.StagedExecution.DeclineCall` | src/langnet/execution/executor.py:154-167 | A call that cannot be handled is filed as skipped and completed if it is optional, and otherwise raises with nothing changed, just as the value-level scheduler records it. |
| `Executor.StagedExecution.StoreFetchEffect` | src/langnet/execution/executor.py:251-270 | A response is stored, filed under its call, appended to the effects and referenced; nothing else changes. |
| `Executor.StagedExecution.HandleFetchStage` | src/langnet/execution/executor.py:210-240 | A fetch call ends as cached, skipped, fetched or raised exactly as its verdict says, and the object holds the recorded outcome. |
| `Executor.StagedExecution.HandleExtractStage` | src/langnet/execution/executor.py:324-395 | The same for an extraction, judged on the raw response of its source call, which a skipped source does not supply. |
| `Executor.StagedExecution.HandleDeriveStage` | src/langnet/execution/executor.py:398-467 | The same for a derivation, judged on the extraction of its source call. |
| `Executor.StagedExecution.HandleClaimStage` | src/langnet/execution/executor.py:470-538 | The same for a claim, judged on the derivation of its source call. |
| `Executor.StagedExecution.SweepPending` | src/langnet/execution/executor.py:574-598 | A pass over a snapshot of the pending calls handles each that is ready by its turn, shrinks `pending` by exactly those, and reports progress exactly if it shrank. |
| `Executor.StagedExecution.ProcessPendingCalls` | src/langnet/execution/executor.py:541-598 | One round of the object is one round of the value-level scheduler: same new state or same error, and progress is reported exactly when fewer calls are pending. |
| `Executor.StagedExecution.RunToEnd` | src/langnet/execution/executor.py:649-654 | The main loop terminates after at most as many rounds as there are pending calls; it ends in the state, or raises the error, of the value-level run from the state it started in. |
| `Executor.ExecutePlanStaged` | src/langnet/execution/executor.py:601-685 | The whole entry point: outcome, raw index and plan response index are those of the run from the seeded start; the plan index is written only on success and only if there are raw effects. |
| `Executor.DistinctPlanIsTable` | src/langnet/execution/executor.py:630 | A plan with distinct call ids is its own pending table, in plan order. |
| `Executor.DependenciesAsListed` | src/langnet/execution/executor.py:631-633 | A call waits for exactly the calls that the plan lists for it. |
| `Executor.RetireAllShape` | src/langnet/execution/executor.py:569-572 | Popping a batch removes just its calls, in whatever order they are popped. |
| `Ledger.PerformKeeps` | src/langnet/execution/executor.py:555-598 | Every step from every reachable state keeps the ledger: calls are split between pending and finished, finished ones found their dependencies finished or cached, each is executed or skipped and not both with only optional ones skipped, every effect is traced to its handler and source, and clients are called once per executed uncached fetch. |
| `Runs.RunSchedule` | src/langnet/execution/executor.py:649-654 | Every run is a schedule of calls performed one at a time, each ready in its turn; it ends with nothing pending, in a deadlock reported as a cycle, or at the call that raised. |
| `Waits.NoneReadyFirstFetched` | src/langnet/execution/executor.py:555-573 | Unless calls are stuck, once no fetch call is ready every fetch call that waits for fetch calls only is done; so a sweep finds them done. |
| `Runs.PerformAllKeeps` | src/langnet/execution/executor.py:555-598 | The ledger holds along whole schedules. |
| `Runs.PerformAllAdvances` | src/langnet/execution/executor.py:593-598 | A schedule of n calls leaves at least n fewer pending and only adds to the log. |
| `Runs.RoundsBounded` | src/langnet/execution/executor.py:649-654 | A run makes at most as many rounds as there are pending calls, also when it ends in a deadlock or an error. |
| `Meaning.JudgedAsMeant` | src/langnet/execution/executor.py:324-538 | In a plan whose sources are settled (each is cached, or awaited by its call along dependencies that are not cached, or a fetch call that waits for fetch calls only), a call is judged at its turn exactly as a recursive evaluation along the source call ids judges it. |
| `Meaning.PerformAgrees` | src/langnet/execution/executor.py:541-598 | Performing a ready call raises exactly if its meaning is an error, and otherwise keeps the tables equal to the meanings of the finished calls. |
| `Meaning.DeadlockIsStuck` | src/langnet/execution/executor.py:653-654 | When no call is ready, the pending calls form a set in which each waits for another of the set, or for a call that never completes. |
| `Meaning.RunComputesMeaning` | src/langnet/execution/executor.py:541-685 | Main theorem: a run of a plan whose sources are settled finishes if and only if every call has a non-error meaning and no set of calls is stuck; the final maps, skips and claims are then exactly those meanings. |
| `PlanFacts.RunSolves` | src/langnet/execution/executor.py:324-538 | The same, told with no part of the executor: a plan whose sources are settled finishes with just these tables if and only if its dependencies can be ranked and every call is cached, has the effect its handler makes of the call named by `params["source_call_id"]` (with the handler's version put in), or is optional and skipped for the reason there is. |
| `PlanFacts.FinishedIsSourced` | src/langnet/execution/executor.py:324-538 | In every finished run, of any plan, each extraction, derivation and claim is what its handler makes of the entry of the call it names as its source, and each call finished after its dependencies that were not cached. |
| `PlanTheorems.StuckUnlessRanked` | src/langnet/execution/executor.py:653-654 | Some ranking puts every dependency before its call if and only if no set of calls is stuck. |
| `PlanTheorems.AcyclicPlansNeverCycle` | src/langnet/execution/executor.py:649-654 | A closed acyclic plan never raises the cycle error, whatever its tools do. |
| `PlanTheorems.FinishedRun` | src/langnet/execution/executor.py:649-685 | A finished run logs each plan call exactly once in a topological order; each is executed or skipped, never both, and only optional calls are skipped. |
| `PlanFacts.NamedSkipsPropagate` | src/langnet/execution/executor.py:349-395 | A later-stage call is skipped if the call that its parameters name as its source was skipped. |
| `PlanFacts.ClaimsNameTheirSources` | src/langnet/execution/executor.py:470-538 | Every claim goes back, by the sources that the calls name, through one derivation and one extraction to one raw response of the final state, each made by its handler from the one before. |
| `PlanTheorems.ClaimsPermute` | src/langnet/execution/executor.py:493-538 | The same calls finished in another order make the same bag of claims. |
| `PlanTheorems.MeaningFixesEffects` | src/langnet/execution/executor.py:541-598 | Finished states of jobs with the same meaning hold the same maps, skips and bag of claims. |
| `PlanTheorems.OrderIndependent` | src/langnet/execution/executor.py:541-685 | Permuting the calls of a plan whose sources are settled changes neither whether its run finishes nor any effect, skip or (as a bag) claim. |
| `PlanTheorems.ListedSourcesSuffice` | src/langnet/execution/executor.py:541-685 | In particular where each source in the plan is listed as a dependency of its call, whatever is cached. |
| `OrderExact.OrderFreeExactly` | src/langnet/execution/executor.py:541-685 | Exactly then: a plan of which some run executes every call finishes with the same effects in every order of its calls if and only if its sources are settled. |
| `PlanTheorems.OrderMattersWithoutDependency` | src/langnet/execution/executor.py:575-596 | What goes wrong otherwise: whatever the dependencies, when an optional derivation and its extraction are both ready and the only calls left, one order makes the derivation and the other skips it. |
| `EffectLists.FinishedRunListed` | src/langnet/execution/executor.py:676-685 | As bags, the lists of raw responses, extractions and derivations that a finished run returns are the values of its maps, call by call. |
| `EffectLists.PlanOrderIndependent` | src/langnet/execution/executor.py:601-685 | So what a caller receives for a permuted plan, started on the same references and stored responses, has the same effects and differs at most in the order within the lists. |
| `ResponseCache.ByCallKeepsLast` | src/langnet/execution/executor.py:183 | Reading references through the dictionary comprehension and reading the list last-wins find the same reference for every call. |
| `ResponseCache.InitiallySeeded` | src/langnet/execution/executor.py:181-205 | A call is seeded if and only if its last cached reference has its response stored, and then with that response; the last-wins view of the references is unchanged by seeding. |
| `ResponseCache.RunLeavesCoherentCache` | src/langnet/execution/executor.py:181-205 | After a finished run the references to be cached lead, last-wins, to exactly the raw responses the run used, if and only if no two new answers share a response id and none takes that of another response that a cached call is read from. (Clients answer under the id of their call.) |
| `ResponseCache.FullHitIsQuiet` | src/langnet/execution/executor.py:668-674 | If every fetch call is cached or has no client, no client is called, nothing is stored, and upserting leaves the last-wins view as it was. |
| `CachedRuns.CachedAgreesWithUncached` | src/langnet/execution/executor.py:170-207 | With a cache that holds what the clients would answer, and sources settled with it and without it, the uncached run finishes if and only if the cached one does and nothing is stuck without the cache; both then leave the same effects. |
| `CachedRuns.CachedFetchBreaksCycle` | src/langnet/execution/executor.py:192-207 | The two can differ: every cached fetch that waits for itself finishes, and without the cache is reported as a cycle. |
| `Renamings.CachedAgreesUpToRenaming` | src/langnet/execution/executor.py:170-207 | The same agreement when clients answer under a new response id each time: the cached effects are the uncached ones renamed, for every renaming that the handlers carry through. |
| `NamedEffects.NamingHandlersCommute` | src/langnet/execution/effects.py:13-26 | Handlers that use the id of their source only to name their effect, by any function that tells sources apart, carry every renaming of response ids through. |
| `NamedEffects.CopyingCommutes` | src/langnet/execution/effects.py:13-26 | An instance with a renaming that changes every id: handlers that give an effect the id of its source. |
| `CachedRuns.RerunSeeds` | src/langnet/execution/executor.py:194-205 | What a finished run caches seeds the next run with exactly the raw responses it ended with, if and only if the cache is coherent and no reference whose response was missing got the response id of another call's answer. |
| `CachedRuns.RerunIsFullHit` | src/langnet/execution/executor.py:601-685 | Under just that condition, running a finished plan again on its own cache finishes, calls no client, stores nothing, leaves the same effects, and would cache references that read the same. |
| `Json.StringsOfTrimmed` | src/langnet/encounter_briefing.py:1354-1357 | Writing trimmed strings to a JSON list and reading them back loses the empty ones and nothing else. |
| `Json.ObjectsOfRows` | src/langnet/encounter_briefing.py:1344-1347 | Rows written as JSON objects read back unchanged. |
| `Validator.ValidatorExact` | src/langnet/encounter_briefing.py:731-758 | Sound and complete: no issue is reported if and only if every form, gloss (up to normalization), source, reference, analysis, decomposition, usage and phrase of the summary occurs in the digest, field by field, and the summary has the required shape. |
| `Issues.IssuesExact` | src/langnet/encounter_briefing.py:731-1024 | The validator reports exactly what is so: an issue is in its list if and only if the field it points at is missing, of the wrong type or without support in the digest, with the code for that, the path to it and the offending value. |
| `Validator.ShapeExact` | src/langnet/encounter_briefing.py:761-808 | No shape issue if and only if all required fields, lists, object lists and row fields are there. |
| `Validator.FormsExact` | src/langnet/encounter_briefing.py:882-889 | No form issue if and only if each form is one of the digest, or the digest has none. |
| `Validator.MeaningsExact` | src/langnet/encounter_briefing.py:892-931 | No meaning issue if and only if all glosses, sources, references, languages and statuses of the meanings are cited from the digest. |
| `Validator.GrammarsExact` | src/langnet/encounter_briefing.py:934-957 | No grammar issue if and only if each row is a form, analysis and source of one morphology row. |
| `Validator.DecompositionsExact` | src/langnet/encounter_briefing.py:960-979 | The same for decomposition rows, with their lemma. |
| `Validator.UsagesExact` | src/langnet/encounter_briefing.py:982-996 | The same for label and snippet of a reader usage. |
| `Validator.PhrasesExact` | src/langnet/encounter_briefing.py:999-1024 | The same for phrase, gloss, source and reference of a phrase pair. |
| `Validator.ValidateSummaryShape` | src/langnet/encounter_briefing.py:761-808 | The shared issue list grows by exactly the shape issues, in order. |
| `Validator.ValidateSummaryMeanings` | src/langnet/encounter_briefing.py:892-931 | The shared issue list grows by exactly the meaning issues, in order. |
| `Validator.ValidateSummaryPhrasePairs` | src/langnet/encounter_briefing.py:999-1024 | The shared issue list grows by exactly the phrase issues, in order. |
| `Validator.ValidateBriefingSummary` | src/langnet/encounter_briefing.py:731-758 | The returned list is empty if and only if the summary is grounded in the digest. |
| `Briefing.DedupeLoop` | src/langnet/encounter_briefing.py:1372-1379 | The result has no value twice and just the non-empty values of the list. |
| `Briefing.DraftMeaningGrounded` | src/langnet/encounter_briefing.py:534-546 | A drafted meaning cites only its own digest row. |
| `Briefing.DraftGroundedExactly` | src/langnet/encounter_briefing.py:442-514 | For any digest at all, the draft passes the validator if and only if the digest's morphology rows are about its forms. |
| `Briefing.DraftSourcesExact` | src/langnet/encounter_briefing.py:454-466 | For any digest, the draft lists exactly the sources of its meanings, morphology and decomposition, each once, in ascending order. |
| `Briefing.BuiltDigestOnForms` | src/langnet/encounter_briefing.py:1035-1041 | Whatever the payload and the limits, a built digest meets that condition. |
| `BriefingFlow.ApplyBriefingModelResponse` | src/langnet/encounter_briefing.py:213-245 | The summary is accepted if and only if it is grounded; otherwise, or if the answer is not a JSON object, the final output is the draft. Digest, prompt and draft stay. |
| `BriefingFlow.FinalOutputGrounded` | src/langnet/encounter_briefing.py:213-245 | End to end: for every payload, model, limits and answer, the final output validates with no issue against its digest. |
| `BriefingFlow.RunBriefing` | src/langnet/encounter_briefing.py:74-101 | The same as a program: building a flow and applying an answer yields a grounded final output. |
| `DigestProvenance.AnalysesArePartitioned` | src/langnet/encounter_briefing.py:1035-1050 | Every analysis of the payload is in the digest exactly once, as morphology or as decomposition. |
| `DigestFacts.DigestShowsMeanings` | src/langnet/encounter_briefing.py:1069-1128 | The digest has as many of the displayed meanings as the limit allows, in order, and each row reads back its meaning's id, gloss, sources, confidence, translation sources, examples and de-duplicated references, with the translation status and the gloss language that those imply; if none is displayed, the same of the buckets and their witnesses. |
| `DigestFacts.DigestShowsAnalyses` | src/langnet/encounter_briefing.py:1027-1067 | The forms are the cleaned header forms, each once, or else the cleaned anchors; the analyses on them are the morphology and the others the decomposition, in order and field by field; without forms all are morphology. |
| `DigestFacts.DigestShowsUsages` | src/langnet/encounter_briefing.py:1213-1232 | The first hits of the reader search up to the limit, with author, title and citation joined to a label. |
| `DigestFacts.DigestShowsPhrases` | src/langnet/encounter_briefing.py:1241-1300 | The phrase pairs are exactly the examples of the kept meanings, split at their arrow, but for bare citations and empty phrases, each pair once, with the first source and reference of the meaning. |
| `DigestFacts.DigestShowsRefs` | src/langnet/encounter_briefing.py:1235-1239 | The references of all meanings, kept or not, each once in the order of first occurrence, up to the limit. |
| `DigestFacts.DigestShowsFields` | src/langnet/encounter_briefing.py:309-327 | Query, language, tool filter, schema version, anchors and warnings are the payload's, and the hash is that of the payload. |
| `DigestFacts.DraftShowsMeanings` | src/langnet/encounter_briefing.py:534-546 | The draft has one meaning for each of the digest, with its gloss as only source gloss and its languages, sources and references. |
| `DigestFacts.DraftShowsGrammar` | src/langnet/encounter_briefing.py:480-490 | One grammar row for each morphology row, with its fields, summed up by the Foster display or else by the analysis. |
| `DigestFacts.DraftShowsDecompositions` | src/langnet/encounter_briefing.py:491-500 | One decomposition row for each of the digest, with its four fields. |
| `DigestFacts.DraftShowsUsages` | src/langnet/encounter_briefing.py:446-453 | One usage for each of the digest, with its label and snippet. |
| `DigestFacts.DraftShowsPhrases` | src/langnet/encounter_briefing.py:502-511 | One phrase pair for each of the digest, with its four fields. |
| `DigestFacts.DraftCaveatsShown` | src/langnet/encounter_briefing.py:467-474 | The caveats point out single witnesses and pass on the first two warnings. |
| `DigestFacts.DisplayedGlossesDrafted` | src/langnet/encounter_briefing.py:442-514 | End to end: every displayed gloss within the limit is the source gloss of the drafted meaning at the same place. |
| `DigestProvenance.MeaningsCite` | src/langnet/encounter_briefing.py:1069-1128 | Gloss, sources and references of each digest meaning are those of a displayed meaning or of a bucket and its witnesses. |
| `DigestProvenance.GroundedIsFromPayload` | src/langnet/encounter_briefing.py:296-332 | What is grounded in a built digest has its forms, glosses, sources, references, analyses, decompositions and usages from the payload itself; each phrase pair is an example of a displayed meaning and cites that very meaning. |
| `DigestProvenance.FinalOutputFromPayload` | src/langnet/encounter_briefing.py:213-245 | End to end: whatever the model answered, the same holds of the final output; it is about the fields that the validator compares. |
| `ExactCopies.AnyTranslationSources` | src/langnet/encounter_briefing.py:892-931 | The validator does not compare the translation sources of a meaning: an accepted summary stays accepted with any others. |
| `ExactCopies.AnyLemmaAndFoster` | src/langnet/encounter_briefing.py:934-957 | Nor does it compare the lemma and the Foster display of a grammar row. |
| `ExactCopies.DraftCopiesExactly` | src/langnet/encounter_briefing.py:442-546 | The draft copies these three fields exactly, for any digest at all. |
| `ExactCopies.FinalOutputCopiesExactly` | src/langnet/encounter_briefing.py:400-417 | Only the model sees to them: the final output copies them exactly, as the output contract demands, if and only if the answer is no JSON object, is refused, or does so itself. |
| `ExactCopies.SomeAnswerIsNotCopied` | src/langnet/encounter_briefing.py:400-417 | For every payload, model and limits there is an answer that is accepted, becomes the final output and does not copy exactly. |
| `BriefingFlow.BriefingCache.Store` | src/langnet/encounter_briefing.py:284-288 | Writes one file under the flow's key, and keeps every file an answered flow under its own key. |
| `BriefingFlow.BriefingCache.Load` | src/langnet/encounter_briefing.py:263-281 | A hit returns the stored flow but for its generation record; from such a cache, without collisions, its output is grounded in the requested digest. |
| `BriefingFlow.SameKeySameDigest` | src/langnet/encounter_briefing.py:248-260 | With injective hashes, equal cache keys mean equal digests. |
| `BriefingFlow.KeysTellFlows` | src/langnet/encounter_briefing.py:248-260 | With injective hashes, two built flows share a cache key if and only if payload, model and digest are the same; so another model, or another limit that changes the digest, misses. |
| `BriefingFlow.CachedBriefing` | src/langnet/encounter_briefing.py:263-281 | A cache hit for a payload returns an output grounded in that payload's digest. |
| `EditDistance.DistanceIsLeast` | src/langnet/diogenes/client.py:87-101 | The recurrence is the least cost over all scripts of keeps, substitutions, insertions and deletions. |
| `EditDistance.ZeroIffEqual` | src/langnet/diogenes/client.py:87-89 | Zero exactly for equal texts. |
| `EditDistance.Symmetric` | src/langnet/diogenes/client.py:87-101 | The distance is symmetric. |
| `EditDistance.Triangle` | src/langnet/diogenes/client.py:87-101 | The triangle inequality. |
| `EditDistance.Bounds` | src/langnet/diogenes/client.py:90-93 | At least the difference of the lengths, at most the longer length. |
| `EditDistance.NextRow` | src/langnet/diogenes/client.py:95-100 | From the distances of one prefix to those of the next, for every prefix of the other text. |
| `EditDistance.Levenshtein` | src/langnet/diogenes/client.py:87-101 | The two-row loop, with its early returns, computes the least script cost. |
| `WordList.MergeWordList` | src/langnet/diogenes/client.py:307-318 | Each lemma once, with the greatest count and the greatest order weight of its entries. |
| `WordList.MergeUnique` | src/langnet/diogenes/client.py:307-318 | Lists with the same entries, in whatever order, merge to the same dictionary. |
| `WordList.BeforeTotal` | src/langnet/diogenes/client.py:44-52 | The ranking key is a total order in which only equal keys tie. |
| `WordList.SortRanked` | src/langnet/diogenes/client.py:348 | A sorted permutation. |
| `WordList.TotalTakes` | src/langnet/diogenes/client.py:329 | The sum of the counts does not depend on the order of the dictionary. |
| `WordList.RankingUnique` | src/langnet/diogenes/client.py:320-349 | There is only one list of the merged lemmas, each once, in ascending key order. |
| `WordList.RankWordList` | src/langnet/diogenes/client.py:320-349 | The result is that list, with each lemma's count, whatever the order of the dictionary. |
| `WordList.ParseWordList` | src/langnet/diogenes/client.py:201-217 | Merging, ranking, cutting and pruning in turn: the names are the first up to the limit of the merged entries' ranking, each with its merged count. |
| `WordOrder.WordsInOrder` | src/langnet/diogenes/client.py:320-349 | For counts that are not negative: whole lemmas come before fragments with a dot at an end, then the nearer to the query by edit distance, then the more frequent, the shorter and the lesser in code point order; the names returned are distinct, have their greatest counts, are no more than the limit and come before all that were cut off. |
| `TextOrder.AtMostMeans` | src/langnet/diogenes/client.py:44-52 | The order of texts is code point order: one starts the other, or is less where they first differ. |
| `WordList.WordListOrderIndependent` | src/langnet/diogenes/client.py:201-217 | Permuting the entries changes neither the ranked list up to any limit nor the counts. |
| `Velthuis.ConvertDevaToVelthuis` | src/langnet/heritage/velthuis_converter.py:189-207 | The loop with its two flags writes what the step-by-step conversion from the empty state writes. |
| `Velthuis.ConvertRomaToVelthuis` | src/langnet/heritage/velthuis_converter.py:114-129 | The loop writes the table entries of the characters in order. |
| `Velthuis.ToHeritageVelthuis` | src/langnet/heritage/velthuis_converter.py:215-223 | The converter is chosen by the presence of a Devanagari character. |
| `Velthuis.BlockDecides` | src/langnet/heritage/velthuis_converter.py:210-223 | Devanagari is the block from U+0900 to U+097F. |
| `Velthuis.UntabledIsHex` | src/langnet/heritage/velthuis_converter.py:160-186 | A character of the block that no table has is written as the two hex digits of its place, with a pending "a" before them. |
| `Velthuis.DandasAndVirama` | src/langnet/heritage/velthuis_converter.py:137-176 | Dandas are written as bars, and the virama writes nothing and takes the "a" away. |
| `VelthuisWords.RomaSpells` | src/langnet/heritage/velthuis_converter.py:114-129 | For every word over the phonemes of the tables, converting its IAST spelling gives the concatenated Velthuis spellings of its phonemes. |
| `VelthuisWords.ConvertsRest` | src/langnet/heritage/velthuis_converter.py:137-186 | From each state the converter can be in inside a word, exactly what it writes for the rest of the Devanagari spelling. |
| `VelthuisWords.DevanagariSpells` | src/langnet/heritage/velthuis_converter.py:189-207 | Converting the Devanagari spelling gives the Velthuis spelling if and only if no plain character occurs and no consonant stands directly before a sign; in all other words one "a" is added after each of those and nothing else differs. |
| `VelthuisWords.ScriptsAgree` | src/langnet/heritage/velthuis_converter.py:215-223 | Through the entry point, the Devanagari and the IAST spelling of a word give the same text if and only if the word meets that condition or has no Devanagari letter at all. |
| `VelthuisWords.BareConsonantBeforeSign` | src/langnet/heritage/velthuis_converter.py:157-160 | A bare consonant before anusvara gives the text of the consonant with its vowel, so two words collide. |
| `VelthuisWords.StrayAfterSpace` | src/langnet/heritage/velthuis_converter.py:185-186 | A space makes the next consonant, or the end, write an "a" that no phoneme spells. |
| `EntryIndex.UpsertedFinds` | src/langnet/databuild/diogenes.py:289-327 | What inserting or replacing a batch does: entries at distinct offsets are all found again in the table, and no other row is touched. |
| `EntryIndex.UpsertedCount` | src/langnet/databuild/diogenes.py:289-327 | Into an empty table, entries at distinct offsets give one row each, at just their offsets. |
| `Crawl.StepProgresses` | src/langnet/databuild/diogenes.py:268-287 | Each step lowers the number of entries that can still be inserted, or keeps it and shortens the queue; so every crawl ends. |
| `Crawl.CrawlIsSafe` | src/langnet/databuild/diogenes.py:257-287 | Over arbitrary pages: no offset is inserted twice, the count equals the offsets seen and stays within the limit, each entry but the seed is what the link of an earlier entry leads to, in a chain of such links of one kind from the seed, and a crawl not stopped by its limit has followed every edge. |
| `Crawl.CrawlEntries` | src/langnet/databuild/diogenes.py:243-287 | The loop over queue, seen offsets and requested edges terminates and fills the table as that crawl does, one entry a batch; without connection or usable seed it raises and writes nothing. |
| `Crawl.StepEdgesOnce` | src/langnet/databuild/diogenes.py:272-286 | Whatever a page holds, a step keeps this: each waiting edge waits once and has been asked for, and every edge asked for leaves an entry already seen. |
| `Crawl.CrawlFillsTable` | src/langnet/databuild/diogenes.py:257-287 | Into an empty table, the returned count is the number of rows, one for each offset seen. |
| `CrawlWindow.CrawlCollectsWindow` | src/langnet/databuild/diogenes.py:264-287 | Over a consistent doubly linked list: without a limit every entry is inserted exactly once; with a limit k the inserted entries are a contiguous window of exactly min(k, n) around the seed, at an exactly given place; its two sides differ by at most one until one of them has reached its end. |
| `PageCrawl.CrawlLinkedPages` | src/langnet/databuild/diogenes.py:243-287 | The same on pages: where pages of a status below 400 link the entries of a list, a crawl into an empty table returns min(k, n) and the table holds exactly the window around the seed, with even sides as far as both last. |
| `PageCrawl.ErrorPagesAreLeftOut` | src/langnet/databuild/diogenes.py:268-282 | Every entry but the seed comes from a page of a status below 400. |
| `LinkedImport.LineEnd` | src/langnet/databuild/diogenes.py:216-219 | A line ends behind its first newline, or at the end of the file, and is never empty. |
| `LinkedImport.AppendPending` | src/langnet/databuild/diogenes.py:228-233 | The batch being filled grows by one and is written when full; written and pending together hold the entries in order. |
| `LinkedImport.ImportSourceFile` | src/langnet/databuild/diogenes.py:208-241 | The one-entry delay emits exactly the first entries, up to the limit, of the linked list of the whole file, for any batch size; all batches but the last are full. |
| `LinkedImport.ImportedIsLinked` | src/langnet/databuild/diogenes.py:228-236 | The emitted entries ascend in offset and name each other as neighbours; only an entry cut off by the limit links on, to the first one left out. |
| `LinkedImport.ImportFillsTable` | src/langnet/databuild/diogenes.py:289-327 | Into an empty table, one row for each entry emitted. |
| `Loaders.ParseColEntries` | src/langnet/databuild/dico.py:496-531 | The loop over the sets of seen bodies yields that numbering. |
| `Loaders.NumberingIsExact` | src/langnet/databuild/dico.py:507-511 | The entries are exactly the distinct pairs of id and body, each once; the occurrences of an id ascend. |
| `Loaders.NumberingHasNoGaps` | src/langnet/databuild/dico.py:507-511 | With each occurrence of an id all smaller ones are given too, so they count up from zero. |
| `Loaders.LoadDico` | src/langnet/databuild/dico.py:263-306 | For every limit, also zero and negative ones, and every batch size, the rows written are the first rows up to the limit, in full batches but the last. |
| `Loaders.RowsAreFirst` | src/langnet/databuild/gaffiot.py:308-334 | The rows are exactly the entries whose hash no earlier entry has, with their place in the source. |
| `Loaders.LoadGaffiot` | src/langnet/databuild/gaffiot.py:300-372 | The rows written are the first rows up to the limit, but one row for a limit below one, in full batches but the last. |
| `Loaders.LimitKept` | src/langnet/databuild/gaffiot.py:336-347 | The limit is kept if and only if it is at least one or there is nothing to load. |
| `Encounters.SectionsAreIntervals` | src/langnet/foster_ossa/structure.py:50-66 | The first-match table gives each section one interval of page numbers. |
| `Encounters.CollectStarts` | src/langnet/foster_ossa/structure.py:82-93 | The nested loop with its seen set keeps the first start of each experience and encounter. |
| `Encounters.SectionSpanEnd` | src/langnet/foster_ossa/structure.py:204-219 | The loop ends at the last page of the unbroken run of pages of the start's section. |
| `Encounters.DetectEncounters` | src/langnet/foster_ossa/structure.py:81-113 | Both loops together yield the encounters that the following rows are about. |
| `Encounters.IdInjective` | src/langnet/foster_ossa/structure.py:104 | The printed id determines experience and encounter. |
| `Encounters.SpansAreUnbroken` | src/langnet/foster_ossa/structure.py:94-112 | Whatever the order of the pages: start is at most end, every page of a span exists and is in the start's section, and ids are unique. |
| `Encounters.SpansMeetOnlyWhereBothStart` | src/langnet/foster_ossa/structure.py:97-101 | With pages in order, a span ends before a later one starts, unless both start on that very page. |
| `Encounters.SpansAreMaximal` | src/langnet/foster_ossa/structure.py:97-101 | A span goes on as long as its run of pages is unbroken and no other encounter has started. |
| `Encounters.LookupIsExact` | src/langnet/foster_ossa/structure.py:194-201 | A page has an encounter if and only if an unbroken run leads to it from some start; it is then the first that starts on the page if any does, and otherwise the only one covering it. |
| `EncounterFacts.EncounterIsHeaded` | src/langnet/foster_ossa/structure.py:81-113 | Every encounter has the heading of the page on which it starts, a title line or a running head, with the experience of the page range or of the Roman number, and its id is both numbers in decimal with a dot between. |
| `EncounterFacts.HeadingHasEncounter` | src/langnet/foster_ossa/structure.py:81-93 | Every heading on a page of an experience has an encounter with its numbers. |
| `Sampling.SampleBalancedCards` | src/langnet/motd_pool.py:528-552 | The nested popping loops take the first cards of the row-by-row deal, for every count. |
| `Sampling.DealtAllCards` | src/langnet/motd_pool.py:534-541 | The full deal has each card of a supported language as often as the pool, and no other. |
| `Sampling.SampleIsBalanced` | src/langnet/motd_pool.py:542-552 | Each language contributes the first cards of its ranking, and is less than one card behind any other unless all its cards are taken. |
| `Sampling.SampleTakesTurns` | src/langnet/motd_pool.py:528-552 | The turns are taken in the order Sanskrit, Greek, Latin: no later language is ahead of an earlier one that has cards left, and an earlier one is at most a card ahead. |
| `Sampling.AllThreeLanguages` | src/langnet/motd_pool.py:534-541 | The full deal has each card of these three languages as often as the pool, and no other. |
| `Sampling.SampleExtends` | src/langnet/motd_pool.py:542-552 | The sample has min(count, available) cards and is a prefix of the sample for one card more. |
| `WordOfDay.GenerateLanguageItems` | src/langnet/word_of_day.py:788-917 | The loop stops at the item that fills the count, else when time is up, else at the end; the items and the diagnostics are those of the candidates probed until then. |
| `WordOfDay.TallyConserves` | src/langnet/word_of_day.py:827-887 | Every candidate probed is accepted, deferred, a repeat or rejected, and counted once. |
| `WordOfDay.AtMostCount` | src/langnet/word_of_day.py:885-894 | At most the items asked for are returned, and at most one when fewer than one are asked for; the counts add up to the probes. |
| `WordOfDay.CountKept` | src/langnet/word_of_day.py:885-894 | The count is kept if and only if it is at least one or no candidate was accepted; below one, just the accepted item is returned. |
| `WordOfDay.NoneAskedFor` | src/langnet/word_of_day.py:872-894 | With a count below one, some run returns an item if and only if the pool has an eligible candidate whose item is to be accepted. |
| `WordOfDay.RepeatsAreLastResort` | src/langnet/word_of_day.py:872-894 | A word to avoid is returned only if fresh words were asked for and every candidate that gives a fresh item is already among the items, even if the time ran out. |
| `WordOfDay.ItemsAreEligible` | src/langnet/word_of_day.py:808-816 | Every item comes from an eligible candidate of the pool, and an ambiguous one only if wanted, or clean ones are not insisted on, or it is a repeat. |
| `WordOfDay.ItemsAreMade` | src/langnet/word_of_day.py:808-881 | Every item is what the probe and the building give for its candidate, of a difficulty that the level admits; it says whether the word is known and why it is returned, and an ambiguous one needs leave. |
| `WordOfDay.FitCandidatesReturned` | src/langnet/word_of_day.py:808-887 | Unless the time runs out or the count is reached, every candidate whose item is fit to be returned at once gives one. |
| `WordOfDay.ItemsUseCandidatesOnce` | src/langnet/word_of_day.py:827-894 | No candidate gives more items than it has places among the eligible ones of the pool. |
| `WordOfDay.CleanExactly` | src/langnet/word_of_day.py:872-881 | Insisting on clean items gives only clean ones, in all runs, if and only if fresh words are not asked for, or there is none to avoid, or the count is below one. |
| `Anchors.FormReadsBack` | src/langnet/execution/anchors.py:66-84 | A form anchor reads back to its normalized surface. |
| `Anchors.LexReadsBack` | src/langnet/execution/anchors.py:87-109 | A lexeme anchor reads back, and gives its lemma back, if and only if the normalized lemma has no `#`. |
| `Anchors.SenseReadsBack` | src/langnet/execution/anchors.py:112-132 | A sense anchor reads back if and only if its key has no `#`. |
| `Anchors.SenseKeepsLemma` | src/langnet/execution/anchors.py:233-271 | Whatever its key, a sense anchor gives its lemma back if and only if the lemma has no `#`. |
| `Anchors.InterpReadsBack` | src/langnet/execution/anchors.py:135-164 | An interpretation anchor reads back if and only if its form has no arrow. |
| `Anchors.InterpKeepsLemma` | src/langnet/execution/anchors.py:233-271 | An interpretation anchor gives the lemma back if and only if the lemma has no `#` and either the form has no arrow, or what stands behind its first arrow starts with the lemma and a `#` itself. |
| `Anchors.SenseText` | src/langnet/execution/anchors.py:112-132 | A sense names its lexeme, given with or without its prefix, and its key behind a `#`. |
| `Anchors.InterpText` | src/langnet/execution/anchors.py:135-164 | An interpretation names its form and its lexeme, given with or without their prefixes, around an arrow. |
| `LemmaRanking.PreferredLemmaRank` | src/langnet/encounter_ranking.py:216-232 | The first-wins dictionary and the minimum over shared keys find the first preferred lemma that shares a key with the bucket, or report that none does. |
| `TextQuality.NoHeader` | src/langnet/encounter_ranking.py:407-414 | As bucket texts are casefolded, the finding of a dictionary header never occurs. |
| `TextQuality.LabelStandsAlone` | src/langnet/encounter_ranking.py:417-419 | A text that is a section label has no other finding that demotes it, but for the mark of an agent. |
| `LemmaRanking.QualityRange` | src/langnet/encounter_ranking.py:366-404 | Whatever a text says and whatever its sources, its learner quality is between -325 and 290. |
| `LemmaRanking.QualityIsLeast` | src/langnet/encounter_ranking.py:366-404 | The quality adds the marks of source and wording to the least of the general findings and the scores of the pedagogical terms found; a term only ever improves a text. |
| `LemmaRanking.RankWeighs` | src/langnet/encounter_ranking.py:235-243 | A place in rank weighs a hundred points of quality; without a preferred lemma the quality does not count. |
| `QualityTexts.LeadDecides` | src/langnet/encounter_ranking.py:235-243 | A lead in rank decides whatever the texts are like if and only if it is at least seven places; a shorter one is overturned by two plain texts, which casefolding and collapsing leave as they are. |

## Left out

- The order of `skipped_calls` in the artifacts: skips are a map from call ids.
- Writing extractions, derivations and claims to their indices; timing fields and log messages.
- Handlers and clients are functions of their inputs: one that changes its inputs, or answers the same request in two ways, is outside the model.
- The size of the thread pool: any completion order is covered, so any size is.
- What the raw index holds after a run that raised.
- The text of validation messages: an issue is its code, path and offending value.
- Regular expressions, Unicode normalization, JSON parsing and hashing of the briefing code are functions without assumptions, but for the cache, where hashes and JSON texts are taken not to collide.
- The constant fields of digest and flow (schema version, translation pipeline, limits, output contract), quality flags and model benchmarks.
- `load_cached_briefing_flow` on a file that is not a JSON object, which counts as a miss: the cache holds flows.
- Rounding in the frequency ratio of word lists: ratios are exact.
- The extraction of lemmas, counts and navigation links from HTML, of headwords from XML, and of headings from page texts: their results are parameters.
- HTTP, subprocess, DuckDB, Arrow and the deletion of old databases: pages are a function of the request, tables are maps or lists of batches, and a row is replaced by offset.
- The pause between the requests of a crawl.
- Surrogate code points, which Dafny strings do not have.
- Devanagari letters outside the converter's tables, which it writes as hex digits: they are in the converter, but not in the phoneme words.
- `_sample_cards`' hash and sort: any ranking that keeps the cards is covered.
- Shuffling and sorting of candidates: any arrangement that keeps them, and for a fresh request puts the words to avoid last, is covered. Building an item is a function of candidate and probe result, and the warnings of the loop are not modelled.
- Loading a whole pool or payload for several languages at once.
- The learner-quality patterns are predicates on texts, over any classes of word characters and digits in which a space and a dot are no word characters and no ASCII small letter, dot or opening bracket is a digit but 1 is. How a bucket's text is put together is not modelled, but that it has no capital ASCII letter is. The other parts of the bucket's sort key are left out.
- LemmaRanking.PreferredLemmaRank: asks for no more than a million million preferred lemmas, the value that stands for no rank.
- The web application, the command line and the static catalogs: no algorithm to prove.
