/** Consequences for whole plans: termination, order independence, skips and provenance. */
module PlanTheorems {
  import opened Outcomes
  import opened ToolPlans
  import opened Schedule
  import opened Ledger
  import opened Waits
  import opened Runs
  import opened Meaning

  // ----- Cycles: stuck sets exist exactly when no ranking of the calls does

  /** Every dependency is cached, or a plan call of smaller rank. */
  ghost predicate Ranked(job: Job, rank: map<CallId, nat>) {
    forall id, dep :: id in Ids(job.calls) && dep in DepsOf(job.deps, id) && dep !in job.seeds ==>
      && dep in Ids(job.calls)
      && dep in rank && id in rank
      && rank[dep] < rank[id]
  }

  lemma StuckOn(job: Job, calls: set<CallId>, id: CallId) returns (dep: CallId)
    requires Stuck(job, calls) && id in calls
    ensures id in Ids(job.calls)
    ensures dep in DepsOf(job.deps, id) && dep !in job.seeds && (dep in calls || dep !in Ids(job.calls))
  {
    dep :| dep in DepsOf(job.deps, id) && dep !in job.seeds && (dep in calls || dep !in Ids(job.calls));
  }

  lemma {:induction false} RankedIsNotStuck(job: Job, rank: map<CallId, nat>, calls: set<CallId>, id: CallId)
    requires Ranked(job, rank) && Stuck(job, calls) && id in calls
    ensures false
    decreases if id in rank then rank[id] else 0
  {
    hide Stuck;
    var dep := StuckOn(job, calls, id);
    RankedIsNotStuck(job, rank, calls, dep);
  }

  lemma Rankable(job: Job, rest: set<CallId>) returns (id: CallId)
    requires rest != {} && rest <= Ids(job.calls) && !Stuck(job, rest)
    ensures id in rest
    ensures forall dep :: dep in DepsOf(job.deps, id) && dep !in job.seeds ==>
              dep !in rest && dep in Ids(job.calls)
  {
    id :| id in rest && !exists dep ::
      dep in DepsOf(job.deps, id) && dep !in job.seeds && (dep in rest || dep !in Ids(job.calls));
  }

  ghost predicate PartlyRanked(job: Job, rank: map<CallId, nat>) {
    && rank.Keys <= Ids(job.calls)
    && (forall id :: id in rank ==> rank[id] < |rank|)
    && (forall id, dep :: id in rank && dep in DepsOf(job.deps, id) && dep !in job.seeds ==>
          dep in rank && rank[dep] < rank[id])
  }

  lemma RankMore(job: Job, rank: map<CallId, nat>, id: CallId) returns (more: map<CallId, nat>)
    requires PartlyRanked(job, rank)
    requires id in Ids(job.calls) && id !in rank
    requires forall dep :: dep in DepsOf(job.deps, id) && dep !in job.seeds ==> dep in rank
    ensures PartlyRanked(job, more) && more.Keys == rank.Keys + {id}
  {
    hide Ids, DepsOf;
    more := rank[id := |rank|];
    assert more.Keys == rank.Keys + {id};
    assert |more| == |rank| + 1;
  }

  lemma FullyRanked(job: Job, rank: map<CallId, nat>)
    requires PartlyRanked(job, rank) && Ids(job.calls) <= rank.Keys
    ensures Ranked(job, rank)
  {
    hide Ids, DepsOf;
  }

  /** Ranks the calls one at a time, always taking one whose dependencies are ranked already. */
  lemma {:induction false} RankRest(job: Job, rank: map<CallId, nat>) returns (full: map<CallId, nat>)
    requires forall calls :: !Stuck(job, calls)
    requires PartlyRanked(job, rank) && rank.Keys <= Ids(job.calls)
    ensures Ranked(job, full)
    decreases Ids(job.calls) - rank.Keys
  {
    hide Stuck, PartlyRanked, Ranked, Ids, DepsOf;
    var rest := Ids(job.calls) - rank.Keys;
    if rest == {} {
      assert forall id :: id in Ids(job.calls) && id !in rank.Keys ==> id in rest;
      FullyRanked(job, rank);
      full := rank;
    } else {
      var id := Rankable(job, rest);
      var more := RankMore(job, rank, id);
      full := RankRest(job, more);
    }
  }

  lemma RankedMeansNotStuck(job: Job, rank: map<CallId, nat>, calls: set<CallId>)
    requires Ranked(job, rank)
    ensures !Stuck(job, calls)
  {
    if Stuck(job, calls) {
      var id :| id in calls;
      RankedIsNotStuck(job, rank, calls, id);
    }
  }

  /** Nothing can be stuck exactly when the dependencies are closed and acyclic. */
  lemma StuckUnlessRanked(job: Job)
    ensures (exists rank :: Ranked(job, rank)) <==> !exists calls :: Stuck(job, calls)
  {
    hide Stuck, Ranked;
    forall rank, calls | Ranked(job, rank) ensures !Stuck(job, calls) {
      RankedMeansNotStuck(job, rank, calls);
    }
    if !exists calls :: Stuck(job, calls) {
      var full := RankRest(job, map[]);
    }
  }

  /** For any plan at all: the cycle error means a stuck set, so acyclic closed plans never raise it. */
  lemma AcyclicPlansNeverCycle(job: Job, st: State, rank: map<CallId, nat>)
    requires Starts(job, st) && Ranked(job, rank)
    ensures Run(job.tools, job.deps, st) != Raised(DependencyCycle)
  {
    hide Run, PerformAll, Settled, Traced, Metered, Topological;
    StartKeeps(job, st);
    var done := RunSchedule(job, st);
    if Run(job.tools, job.deps, st) == Raised(DependencyCycle) {
      var stuck := PerformAll(job.tools, done, st).value;
      PerformAllKeeps(job, done, st);
      DeadlockIsStuck(job, stuck);
      StuckUnlessRanked(job);
    }
  }

  // ----- Every finished run, of any plan

  lemma DistinctCount(log: seq<CallId>, id: CallId)
    requires DistinctLog(log)
    ensures multiset(log)[id] == if id in log then 1 else 0
  {
    if log != [] {
      var init := log[..|log| - 1];
      assert log == init + [log[|log| - 1]];
      DistinctCount(init, id);
    }
  }

  /**
   A finished run, of any plan, performed every call exactly once, in a topological order; each
   was executed or skipped and not both; only optional calls were skipped.
   */
  lemma FinishedRun(job: Job, st: State)
    requires Starts(job, st) && Run(job.tools, job.deps, st).Done?
    ensures var final := Run(job.tools, job.deps, st).value;
            && final.pending == []
            && Kept(job, final)
            && (forall id :: multiset(final.log)[id] == if id in Ids(job.calls) then 1 else 0)
            && (forall c :: c in job.calls ==>
                  && (Executed(c, final) <==> c.callId !in final.skipped)
                  && (c.callId in final.skipped ==> c.optional))
            && final.skipped.Keys <= Ids(job.calls)
  {
    hide Run, PerformAll, Traced, Metered, Topological;
    StartKeeps(job, st);
    var done := RunSchedule(job, st);
    PerformAllKeeps(job, done, st);
    var final := Run(job.tools, job.deps, st).value;
    forall c | c in job.calls ensures c.callId in final.log {
      assert c !in final.pending;
    }
    forall id ensures id in final.log <==> id in Ids(job.calls) {
      if id in final.log { assert FindCall(job.calls, id).value in job.calls; }
    }
    forall id ensures multiset(final.log)[id] == if id in Ids(job.calls) then 1 else 0 {
      DistinctCount(final.log, id);
    }
  }

  lemma ExecutedHasSource(job: Job, final: State, call: ToolCall)
    requires Kept(job, final) && call in job.calls && !call.stage.Fetch? && Executed(call, final)
    ensures match call.stage
            case Extract => SourceOf(call) in final.raw
            case Derive => SourceOf(call) in final.extractions
            case _ => SourceOf(call) in final.derivations
  {
    FindsItsCall(job.calls, call);
    match call.stage
    case Extract => assert ExtractionTraced(job, final, call.callId);
    case Derive => assert DerivationTraced(job, final, call.callId);
    case Claim =>
      var k :| 0 <= k < |final.claimants| && final.claimants[k] == call.callId;
      assert ClaimTraced(job, final, k);
  }

  lemma SkippedHasNoRecord(job: Job, final: State, id: CallId)
    requires Kept(job, final) && SeedsAreFetches(job) && id in final.skipped
    ensures id !in final.raw && id !in final.extractions && id !in final.derivations
  {
    var call := FindCall(job.calls, id).value;
    assert call in job.calls && call.callId in final.log && !Executed(call, final);
    assert id in final.extractions ==> ExtractionTraced(job, final, id);
    assert id in final.derivations ==> DerivationTraced(job, final, id);
  }

  /** A later-stage call whose source was skipped was skipped too. */
  lemma SkipsPropagate(job: Job, st: State, call: ToolCall)
    requires Starts(job, st) && SeedsAreFetches(job) && Run(job.tools, job.deps, st).Done?
    requires call in job.calls && !call.stage.Fetch?
    requires SourceOf(call) in Run(job.tools, job.deps, st).value.skipped
    ensures call.callId in Run(job.tools, job.deps, st).value.skipped
  {
    hide Run, Kept;
    FinishedRun(job, st);
    var final := Run(job.tools, job.deps, st).value;
    if Executed(call, final) {
      ExecutedHasSource(job, final, call);
      SkippedHasNoRecord(job, final, SourceOf(call));
    }
  }

  /** Each claim goes back through one derivation and one extraction to one raw response. */
  ghost predicate Chain(job: Job, final: State, k: nat, claim: ToolCall, derive: ToolCall, extract: ToolCall)
    requires k < |final.claims| == |final.claimants|
  {
    && claim in job.calls && derive in job.calls && extract in job.calls
    && claim.stage.Claim? && derive.stage.Derive? && extract.stage.Extract?
    && claim.callId == final.claimants[k]
    && derive.callId == SourceOf(claim)
    && extract.callId == SourceOf(derive)
    && SourceOf(extract) in final.raw
    && extract.callId in final.extractions
    && derive.callId in final.derivations
    && ExtractVerdict(job.tools, extract, Some(final.raw[SourceOf(extract)])) ==
       Extracted(final.extractions[extract.callId])
    && DeriveVerdict(job.tools, derive, Some(final.extractions[extract.callId])) ==
       Derived(final.derivations[derive.callId])
    && ClaimVerdict(job.tools, claim, Some(final.derivations[derive.callId])) == Claimed(final.claims[k])
  }

  lemma ClaimsTraceBack(job: Job, st: State, k: nat)
    requires Starts(job, st) && Run(job.tools, job.deps, st).Done?
    requires k < |Run(job.tools, job.deps, st).value.claims|
    ensures var final := Run(job.tools, job.deps, st).value;
            && |final.claims| == |final.claimants|
            && exists claim, derive, extract :: Chain(job, final, k, claim, derive, extract)
  {
    hide Run, ExtractVerdict, DeriveVerdict, ClaimVerdict;
    FinishedRun(job, st);
    var final := Run(job.tools, job.deps, st).value;
    assert ClaimTraced(job, final, k);
    var claim := FindCall(job.calls, final.claimants[k]).value;
    assert DerivationTraced(job, final, SourceOf(claim));
    var derive := FindCall(job.calls, SourceOf(claim)).value;
    assert ExtractionTraced(job, final, SourceOf(derive));
    var extract := FindCall(job.calls, SourceOf(derive)).value;
    assert Chain(job, final, k, claim, derive, extract);
  }

  // ----- The order of a plan's calls does not matter

  lemma {:induction false} OnceEach(calls: seq<ToolCall>, call: ToolCall)
    requires DistinctIds(calls)
    ensures multiset(calls)[call] <= 1
  {
    if calls != [] {
      assert calls == [calls[0]] + calls[1..];
      OnceEach(calls[1..], call);
      assert forall c :: c in calls[1..] ==> c.callId != calls[0].callId;
    }
  }

  lemma RepeatCounts(calls: seq<ToolCall>, i: nat, j: nat)
    requires i < j < |calls| && calls[i] == calls[j]
    ensures multiset(calls)[calls[i]] >= 2
  {
    assert calls == calls[..j] + calls[j..];
    assert calls[i] in calls[..j] by { assert calls[..j][i] == calls[i]; }
    assert calls[j] in calls[j..] by { assert calls[j..][0] == calls[j]; }
  }

  lemma PermutedIds(first: seq<ToolCall>, second: seq<ToolCall>)
    requires DistinctIds(first) && multiset(first) == multiset(second)
    ensures DistinctIds(second)
    ensures forall c :: c in first <==> c in second
    ensures Ids(first) == Ids(second)
  {
    forall c ensures c in first <==> c in second {
      assert c in multiset(first) <==> c in multiset(second);
    }
    forall i, j | 0 <= i < j < |second| ensures second[i].callId != second[j].callId {
      if second[i].callId == second[j].callId {
        FindsItsCall(first, second[i]);
        FindsItsCall(first, second[j]);
        RepeatCounts(second, i, j);
        OnceEach(first, second[i]);
      }
    }
  }

  lemma PermutedFind(first: seq<ToolCall>, second: seq<ToolCall>, id: CallId)
    requires DistinctIds(first) && multiset(first) == multiset(second)
    ensures FindCall(first, id) == FindCall(second, id)
  {
    PermutedIds(first, second);
    var found := FindCall(first, id);
    if found.Some? { FindsItsCall(second, found.value); }
  }

  lemma PermutedMeaning(job: Job, other: Job)
    requires DistinctIds(job.calls) && multiset(job.calls) == multiset(other.calls)
    requires other == job.(calls := other.calls)
    ensures forall id :: RawOf(job, id) == RawOf(other, id)
    ensures forall id :: ExtractionOf(job, id) == ExtractionOf(other, id)
    ensures forall id :: DerivationOf(job, id) == DerivationOf(other, id)
    ensures forall c :: MeaningOf(job, c) == MeaningOf(other, c)
    ensures forall id :: SkipOf(job, id) == SkipOf(other, id)
    ensures forall id :: ClaimOf(job, id) == ClaimOf(other, id)
  {
    hide FetchVerdict, ExtractVerdict, DeriveVerdict, ClaimVerdict;
    forall id ensures FindCall(job.calls, id) == FindCall(other.calls, id) {
      PermutedFind(job.calls, other.calls, id);
    }
  }

  lemma PermutedPlan(job: Job, other: Job)
    requires WellFormed(job) && multiset(job.calls) == multiset(other.calls)
    requires other == job.(calls := other.calls)
    ensures WellFormed(other)
    ensures Executable(job) <==> Executable(other)
  {
    hide MeaningOf;
    PermutedIds(job.calls, other.calls);
    PermutedMeaning(job, other);
    forall id ensures FindCall(job.calls, id) == FindCall(other.calls, id) {
      PermutedFind(job.calls, other.calls, id);
    }
    assert forall calls :: Stuck(job, calls) <==> Stuck(other, calls);
  }

  lemma {:induction false} ClaimsConcat(job: Job, first: seq<CallId>, second: seq<CallId>)
    ensures ClaimsOf(job, first + second) == ClaimsOf(job, first) + ClaimsOf(job, second)
  {
    if second == [] {
      assert first + second == first;
    } else {
      var n := |second| - 1;
      assert (first + second)[..|first + second| - 1] == first + second[..n];
      ClaimsConcat(job, first, second[..n]);
    }
  }

  lemma ClaimsSplit(job: Job, log: seq<CallId>, k: nat)
    requires k < |log|
    ensures multiset(ClaimsOf(job, log)) ==
            multiset(ClaimsOf(job, log[..k] + log[k + 1..])) + multiset(ClaimsOf(job, [log[k]]))
  {
    hide ClaimsOf;
    assert log == log[..k] + ([log[k]] + log[k + 1..]);
    ClaimsConcat(job, log[..k], [log[k]] + log[k + 1..]);
    ClaimsConcat(job, [log[k]], log[k + 1..]);
    ClaimsConcat(job, log[..k], log[k + 1..]);
  }

  lemma MultisetSplit(log: seq<CallId>, k: nat)
    requires k < |log|
    ensures multiset(log[..k] + log[k + 1..]) == multiset(log) - multiset{log[k]}
  {
    var rest := log[..k] + log[k + 1..];
    assert log == log[..k] + [log[k]] + log[k + 1..];
    assert multiset(log) == multiset(rest) + multiset{log[k]};
  }

  lemma SameSingleClaim(job: Job, other: Job, id: CallId)
    requires ClaimOf(job, id) == ClaimOf(other, id)
    ensures ClaimsOf(job, [id]) == ClaimsOf(other, [id])
  {
    assert [id][..0] == [];
  }

  /** Two logs of the same calls, with a shared call taken out of each. */
  lemma TakeShared(log: seq<CallId>, otherLog: seq<CallId>) returns (k: nat)
    requires log != [] && multiset(log) == multiset(otherLog)
    ensures k < |otherLog| && otherLog[k] == log[0]
    ensures multiset(log[..0] + log[1..]) == multiset(otherLog[..k] + otherLog[k + 1..])
  {
    assert log[0] in multiset(otherLog);
    k :| k < |otherLog| && otherLog[k] == log[0];
    MultisetSplit(log, 0);
    MultisetSplit(otherLog, k);
  }

  /** The same calls in another order make the same claims. */
  lemma {:induction false} ClaimsPermute(job: Job, other: Job, log: seq<CallId>, otherLog: seq<CallId>)
    requires forall id :: ClaimOf(job, id) == ClaimOf(other, id)
    requires multiset(log) == multiset(otherLog)
    ensures multiset(ClaimsOf(job, log)) == multiset(ClaimsOf(other, otherLog))
    decreases |log|
  {
    if log == [] {
      assert |otherLog| == |multiset(otherLog)| == 0;
    } else {
      hide ClaimsOf, ClaimOf;
      var k := TakeShared(log, otherLog);
      ClaimsSplit(job, log, 0);
      ClaimsSplit(other, otherLog, k);
      SameSingleClaim(job, other, log[0]);
      ClaimsPermute(job, other, log[..0] + log[1..], otherLog[..k] + otherLog[k + 1..]);
    }
  }

  lemma SameLogs(log: seq<CallId>, otherLog: seq<CallId>)
    requires DistinctLog(log) && DistinctLog(otherLog)
    requires forall id :: id in log <==> id in otherLog
    ensures multiset(log) == multiset(otherLog)
  {
    forall id ensures multiset(log)[id] == multiset(otherLog)[id] {
      DistinctCount(log, id);
      DistinctCount(otherLog, id);
    }
  }

  /** Two jobs whose calls, and the cached calls outside them, mean the same. */
  ghost predicate SameMeaning(job: Job, other: Job) {
    && Ids(job.calls) == Ids(other.calls)
    && (forall id :: RawOf(job, id) == RawOf(other, id))
    && (forall id :: ExtractionOf(job, id) == ExtractionOf(other, id))
    && (forall id :: DerivationOf(job, id) == DerivationOf(other, id))
    && (forall id :: SkipOf(job, id) == SkipOf(other, id))
    && (forall id :: ClaimOf(job, id) == ClaimOf(other, id))
  }

  ghost predicate SameEffects(final: State, other: State) {
    && final.raw == other.raw
    && final.extractions == other.extractions
    && final.derivations == other.derivations
    && final.skipped == other.skipped
    && multiset(final.claims) == multiset(other.claims)
  }

  lemma SameRaw(job: Job, other: Job, final: State, otherFinal: State)
    requires RawAgrees(job, final) && RawAgrees(other, otherFinal)
    requires forall id :: RawOf(job, id) == RawOf(other, id)
    requires Ids(job.calls) == Ids(other.calls)
    requires forall id :: id in final.log <==> id in otherFinal.log
    requires forall id :: id in final.log <==> id in Ids(job.calls)
    ensures final.raw == otherFinal.raw
  {
    forall id ensures id in final.raw <==> id in otherFinal.raw {
      SeedOrCall(job, id);
      SeedOrCall(other, id);
    }
  }

  lemma SeedOrCall(job: Job, id: CallId)
    ensures RawOf(job, id).Some? ==> id in job.seeds || id in Ids(job.calls)
  {
  }

  lemma SameTable<V>(table: map<CallId, V>, otherTable: map<CallId, V>, log: seq<CallId>, meaning: CallId -> Option<V>)
    requires forall id :: id in table <==> id in log && meaning(id).Some?
    requires forall id :: id in table ==> meaning(id) == Some(table[id])
    requires forall id :: id in otherTable <==> id in log && meaning(id).Some?
    requires forall id :: id in otherTable ==> meaning(id) == Some(otherTable[id])
    ensures table == otherTable
  {
    assert forall id :: id in table <==> id in otherTable;
  }

  /** Finished states that agree with jobs of equal meaning hold the same effects. */
  lemma MeaningFixesEffects(job: Job, other: Job, final: State, otherFinal: State)
    requires Booked(job, final) && Agrees(job, final) && final.pending == []
    requires Booked(other, otherFinal) && Agrees(other, otherFinal) && otherFinal.pending == []
    requires SameMeaning(job, other)
    ensures SameEffects(final, otherFinal)
  {
    hide RawOf, ExtractionOf, DerivationOf, SkipOf, ClaimOf, MeaningOf, Booked, RawAgrees;
    LoggedIsPlanned(job, final);
    LoggedIsPlanned(other, otherFinal);
    SameRaw(job, other, final, otherFinal);
    SameTable(final.extractions, otherFinal.extractions, final.log, id => ExtractionOf(job, id));
    SameTable(final.derivations, otherFinal.derivations, final.log, id => DerivationOf(job, id));
    SameTable(final.skipped, otherFinal.skipped, final.log, id => SkipOf(job, id));
    SameClaims(job, other, final, otherFinal);
  }

  lemma SameClaims(job: Job, other: Job, final: State, otherFinal: State)
    requires Booked(job, final) && final.claims == ClaimsOf(job, final.log)
    requires Booked(other, otherFinal) && otherFinal.claims == ClaimsOf(other, otherFinal.log)
    requires forall id :: id in final.log <==> id in otherFinal.log
    requires forall id :: ClaimOf(job, id) == ClaimOf(other, id)
    ensures multiset(final.claims) == multiset(otherFinal.claims)
  {
    SameLogs(final.log, otherFinal.log);
    ClaimsPermute(job, other, final.log, otherFinal.log);
  }

  lemma LoggedIsPlanned(job: Job, final: State)
    requires Booked(job, final) && final.pending == []
    ensures forall id :: id in final.log <==> id in Ids(job.calls)
  {
    forall c | c in job.calls ensures c.callId in final.log {
      assert c !in final.pending;
    }
    forall id | id in final.log ensures id in Ids(job.calls) {
      assert FindCall(job.calls, id).value in job.calls;
    }
  }

  /**
   Order independence: permuting a well-formed plan's calls changes neither whether its run
   finishes nor any raw response, extraction, derivation, skip record or (as a bag) claim.
   */
  lemma OrderIndependent(job: Job, other: Job, st: State, otherSt: State)
    requires WellFormed(job) && multiset(job.calls) == multiset(other.calls)
    requires other == job.(calls := other.calls)
    requires Starts(job, st) && Starts(other, otherSt)
    ensures Run(job.tools, job.deps, st).Done? <==> Run(other.tools, other.deps, otherSt).Done?
    ensures Run(job.tools, job.deps, st).Done? ==>
              SameEffects(Run(job.tools, job.deps, st).value, Run(other.tools, other.deps, otherSt).value)
  {
    hide Run, Executable, MeaningOf, Agrees, Booked, Settled, Traced, Topological, Metered;
    PermutedPlan(job, other);
    PermutedIds(job.calls, other.calls);
    PermutedMeaning(job, other);
    RunComputesMeaning(job, st);
    RunComputesMeaning(other, otherSt);
    if Run(job.tools, job.deps, st).Done? {
      MeaningFixesEffects(job, other, Run(job.tools, job.deps, st).value, Run(other.tools, other.deps, otherSt).value);
    }
  }

  /** In particular where each source in the plan is listed as a dependency, whatever is cached. */
  lemma ListedSourcesSuffice(job: Job, other: Job, st: State, otherSt: State)
    requires DistinctIds(job.calls) && SeedsAreFetches(job) && SourcesAreDependencies(job)
    requires multiset(job.calls) == multiset(other.calls) && other == job.(calls := other.calls)
    requires Starts(job, st) && Starts(other, otherSt)
    ensures Run(job.tools, job.deps, st).Done? <==> Run(other.tools, other.deps, otherSt).Done?
    ensures Run(job.tools, job.deps, st).Done? ==>
              SameEffects(Run(job.tools, job.deps, st).value, Run(other.tools, other.deps, otherSt).value)
  {
    hide Run, SameEffects, Starts, SourcesAreDependencies, SeedsAreFetches, SourcesSettled;
    DependenciesAreSettled(job, job.seeds.Keys);
    OrderIndependent(job, other, st, otherSt);
  }

  // ----- Where the order does matter

  lemma SweepsTwo(tools: Tools, deps: Deps, first: ToolCall, second: ToolCall, st: State)
    requires st.pending == [first, second] && first.callId != second.callId
    requires Ready(deps, first, st) && Ready(deps, second, st)
    requires !first.stage.Fetch? && !second.stage.Fetch?
    requires Perform(tools, first, st).Done? && Perform(tools, second, Perform(tools, first, st).value).Done?
    ensures Run(tools, deps, st) == Perform(tools, second, Perform(tools, first, st).value)
  {
    hide Handle;
    var middle := Perform(tools, first, st).value;
    var last := Perform(tools, second, middle).value;
    HandleKeepsPending(tools, first, st);
    HandleKeepsPending(tools, second, middle);
    assert st.pending[1..] == [second] && [second][1..] == [];
    assert middle.pending == [second] && last.pending == [];
    hide Perform, ReadyFetches;
    var ready := ReadyFetches(deps, st.pending, st);
    assert forall c :: c in ready ==> c.stage.Fetch? && (c == first || c == second);
    NoMembers(ready);
    assert Sweep(tools, deps, [second], middle) == Done(last);
    assert Sweep(tools, deps, st.pending, st) == Done(last);
  }

  lemma NoMembers(calls: seq<ToolCall>)
    requires forall c :: c !in calls
    ensures calls == []
  {
    forall c ensures multiset(calls)[c] == 0 {
      assert c !in calls;
    }
    assert multiset(calls) == multiset{};
    assert |multiset(calls)| == |calls|;
  }

  lemma HandleKeepsPending(tools: Tools, call: ToolCall, st: State)
    ensures Handle(tools, call, st).Done? ==>
      Handle(tools, call, st).value.pending == st.pending && Handle(tools, call, st).value.completed == st.completed
  {
    hide Judge;
  }

  lemma PerformsExtract(tools: Tools, call: ToolCall, st: State)
    requires call.stage.Extract? && SourceOf(call) in st.raw && SourceOf(call) !in st.skipped
    requires ExtractVerdict(tools, call, Some(st.raw[SourceOf(call)])).Extracted?
    ensures var next := Perform(tools, call, st);
      next.Done? && next.value.skipped == st.skipped && next.value.derivations == st.derivations
      && next.value.extractions
         == st.extractions[call.callId := ExtractVerdict(tools, call, Some(st.raw[SourceOf(call)])).extraction]
  {
    hide ExtractVerdict;
  }

  lemma PerformsDerive(tools: Tools, call: ToolCall, st: State)
    requires call.stage.Derive? && SourceOf(call) in st.extractions && SourceOf(call) !in st.skipped
    requires DeriveVerdict(tools, call, Some(st.extractions[SourceOf(call)])).Derived?
    ensures var next := Perform(tools, call, st);
      next.Done? && next.value.skipped == st.skipped && call.callId in next.value.derivations
  {
    hide DeriveVerdict;
  }

  lemma SkipsDerive(tools: Tools, call: ToolCall, st: State)
    requires call.stage.Derive? && call.optional && SourceOf(call) !in st.extractions
    requires tools.derive.Get(call.tool).Some?
    ensures var next := Perform(tools, call, st);
      next.Done? && next.value.skipped.Keys == st.skipped.Keys + {call.callId}
      && next.value.raw == st.raw && next.value.extractions == st.extractions
  {
  }

  /**
   Where a call does not wait for its source the order does matter: when an optional derivation and its
   extraction are both ready and alone, listed in this order the derivation is made, and in the other skipped.
   */
  lemma OrderMattersWithoutDependency(tools: Tools, deps: Deps, extract: ToolCall, derive: ToolCall, st: State)
    requires extract.stage.Extract? && derive.stage.Derive? && derive.optional
    requires Ready(deps, extract, st) && Ready(deps, derive, st)
    requires extract.callId != derive.callId && SourceOf(derive) == extract.callId && SourceOf(extract) != derive.callId
    requires st.skipped == map[] && st.extractions == map[] && SourceOf(extract) in st.raw
    requires ExtractVerdict(tools, extract, Some(st.raw[SourceOf(extract)])).Extracted?
    requires var made := ExtractVerdict(tools, extract, Some(st.raw[SourceOf(extract)])).extraction;
      DeriveVerdict(tools, derive, Some(made)).Derived?
    ensures var final := Run(tools, deps, st.(pending := [extract, derive]));
      final.Done? && derive.callId in final.value.derivations && derive.callId !in final.value.skipped
    ensures var final := Run(tools, deps, st.(pending := [derive, extract]));
      final.Done? && derive.callId in final.value.skipped && extract.callId in final.value.extractions
  {
    hide Run, ExtractVerdict, DeriveVerdict, Perform, DepsOf, SourceOf;
    HandledFirst(tools, derive, ExtractVerdict(tools, extract, Some(st.raw[SourceOf(extract)])).extraction);
    var straight, crossed := st.(pending := [extract, derive]), st.(pending := [derive, extract]);
    PerformsExtract(tools, extract, straight);
    PerformsDerive(tools, derive, Perform(tools, extract, straight).value);
    SweepsTwo(tools, deps, extract, derive, straight);
    SkipsDerive(tools, derive, crossed);
    PerformsExtract(tools, extract, Perform(tools, derive, crossed).value);
    SweepsTwo(tools, deps, derive, extract, crossed);
  }

  lemma HandledFirst(tools: Tools, call: ToolCall, extraction: Extraction)
    requires DeriveVerdict(tools, call, Some(extraction)).Derived?
    ensures tools.derive.Get(call.tool).Some?
  {
  }
}
