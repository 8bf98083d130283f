/** The effect lists a run returns hold just what its tables hold. */
module EffectLists {
  import opened Outcomes
  import opened ToolPlans
  import opened Schedule
  import opened Ledger
  import opened Waits
  import opened Runs
  import opened Meaning
  import opened PlanTheorems
  import opened ResponseCache

  /** How many calls a table files the value under. */
  ghost function Times<V>(table: map<CallId, V>, value: V): nat {
    |set id | id in table && table[id] == value|
  }

  /** As a bag, the list holds the values of the table. */
  ghost predicate Lists<V(!new)>(effects: seq<V>, table: map<CallId, V>) {
    forall value :: multiset(effects)[value] == Times(table, value)
  }

  ghost predicate Listed(st: State) {
    && Lists(st.rawEffects, st.raw)
    && Lists(st.extractionEffects, st.extractions)
    && Lists(st.derivationEffects, st.derivations)
  }

  lemma TimesMore<V(!new)>(table: map<CallId, V>, id: CallId, value: V, v: V)
    requires id !in table
    ensures Times(table[id := value], v) == Times(table, v) + if v == value then 1 else 0
  {
    var more := table[id := value];
    var before := set i | i in table && table[i] == v;
    var after := set i | i in more && more[i] == v;
    if v == value {
      assert after == before + {id};
    } else {
      assert after == before;
    }
  }

  lemma ListsMore<V(!new)>(effects: seq<V>, table: map<CallId, V>, id: CallId, value: V)
    requires Lists(effects, table) && id !in table
    ensures Lists(effects + [value], table[id := value])
  {
    hide Times;
    assert multiset(effects + [value]) == multiset(effects) + multiset{value};
    forall v
      ensures multiset(effects + [value])[v] == Times(table[id := value], v)
    {
      TimesMore(table, id, value, v);
    }
  }

  lemma NeverListed<V(!new)>(table: map<CallId, V>, value: V)
    requires value !in table.Values
    ensures Times(table, value) == 0
  {
    var ids := set id | id in table && table[id] == value;
    forall id ensures id !in ids {
      assert id in table ==> table[id] in table.Values;
    }
    assert ids == {};
  }

  lemma ListsNothing<V(!new)>()
    ensures Lists<V>([], map[])
  {
    forall value: V ensures Times(map[], value) == 0 {
      NeverListed(map[], value);
    }
  }

  /** What a call adds to the lists. */
  ghost predicate Appends(verdict: Verdict, st: State, next: State) {
    && (next.rawEffects == if verdict.Fetched? then st.rawEffects + [verdict.raw] else st.rawEffects)
    && (next.extractionEffects ==
        if verdict.Extracted? then st.extractionEffects + [verdict.extraction] else st.extractionEffects)
    && (next.derivationEffects ==
        if verdict.Derived? then st.derivationEffects + [verdict.derivation] else st.derivationEffects)
  }

  lemma RecordAppends(call: ToolCall, verdict: Verdict, st: State)
    requires Record(call, verdict, st).Done?
    ensures Appends(verdict, st, Retire(call.callId, Record(call, verdict, st).value))
  {
  }

  lemma PerformLists(job: Job, call: ToolCall, st: State)
    requires Kept(job, st) && Listed(st)
    requires call in st.pending && Handle(job.tools, call, st).Done?
    ensures Listed(Perform(job.tools, call, st).value)
  {
    hide Judge, Lists, Settled, Topological, Metered, Booked;
    var verdict, next := Judge(job.tools, call, st), Perform(job.tools, call, st).value;
    RecordAppends(call, verdict, st);
    PerformRecords(job, call, st);
    JudgeSources(job, call, st);
    BookedPending(job, call, st);
    NotYetExecuted(job, call, st);
    VerdictLists(job, call, verdict, st, next);
  }

  lemma VerdictLists(job: Job, call: ToolCall, verdict: Verdict, st: State, next: State)
    requires Listed(st) && Appends(verdict, st, next) && Records(job, call, verdict, st, next)
    requires verdict.Fetched? ==> call.callId !in st.raw
    requires call.callId !in st.extractions && call.callId !in st.derivations
    ensures Listed(next)
  {
    hide Lists;
    if verdict.Fetched? { ListsMore(st.rawEffects, st.raw, call.callId, verdict.raw); }
    if verdict.Extracted? { ListsMore(st.extractionEffects, st.extractions, call.callId, verdict.extraction); }
    if verdict.Derived? { ListsMore(st.derivationEffects, st.derivations, call.callId, verdict.derivation); }
  }

  lemma {:induction false} PerformAllLists(job: Job, calls: seq<ToolCall>, st: State)
    requires Kept(job, st) && Listed(st) && Permitted(job, calls, st)
    requires PerformAll(job.tools, calls, st).Done?
    ensures Listed(PerformAll(job.tools, calls, st).value)
  {
    hide Kept, Listed, Judge;
    if calls != [] {
      PerformLists(job, calls[0], st);
      PerformKeeps(job, calls[0], st);
      PerformAllLists(job, calls[1..], Perform(job.tools, calls[0], st).value);
    }
  }

  /** After any finished run, the lists it returns are, as bags, the values of its tables. */
  lemma FinishedRunListed(job: Job, st: State)
    requires Starts(job, st) && Listed(st) && Run(job.tools, job.deps, st).Done?
    ensures Listed(Run(job.tools, job.deps, st).value)
  {
    hide Run, PerformAll, Kept, Listed;
    StartKeeps(job, st);
    var done := RunSchedule(job, st);
    PerformAllLists(job, done, st);
  }

  lemma {:induction false} SeedLists(seeding: Seeding, refs: seq<ResponseRef>, stored: map<string, RawResponse>)
    requires DistinctRefs(refs) && Lists(seeding.effects, seeding.seeds)
    requires forall ref :: ref in refs ==> ref.callId !in seeding.seeds
    ensures var all := Seed(seeding, refs, stored); Lists(all.effects, all.seeds)
    decreases |refs|
  {
    hide Lists;
    if refs != [] {
      var ref := refs[0];
      assert forall x :: x in refs[1..] ==> x in refs && x.callId != ref.callId;
      if ref.responseId in stored {
        var raw := stored[ref.responseId];
        ListsMore(seeding.effects, seeding.seeds, ref.callId, raw);
        SeedLists(Seeding(seeding.seeds[ref.callId := raw], seeding.effects + [raw]), refs[1..], stored);
      } else {
        SeedLists(seeding, refs[1..], stored);
      }
    }
  }

  /** A seeded start lists each cached response once. */
  lemma InitialStateListed(calls: seq<ToolCall>, cached: seq<ResponseRef>, stored: map<string, RawResponse>)
    ensures Listed(InitialState(calls, cached, stored))
  {
    hide Lists, Seed, ByCall;
    ListsNothing<RawResponse>();
    ListsNothing<Extraction>();
    ListsNothing<Derivation>();
    SeedLists(Seeding(map[], []), ByCall([], cached), stored);
  }

  /** Runs with the same effects return the same lists, but for their order. */
  lemma SameEffectsSameLists(final: State, other: State)
    requires SameEffects(final, other) && Listed(final) && Listed(other)
    ensures multiset(final.rawEffects) == multiset(other.rawEffects)
    ensures multiset(final.extractionEffects) == multiset(other.extractionEffects)
    ensures multiset(final.derivationEffects) == multiset(other.derivationEffects)
    ensures multiset(final.claims) == multiset(other.claims)
  {
    hide Times;
    assert forall v :: multiset(final.rawEffects)[v] == multiset(other.rawEffects)[v];
    assert forall v :: multiset(final.extractionEffects)[v] == multiset(other.extractionEffects)[v];
    assert forall v :: multiset(final.derivationEffects)[v] == multiset(other.derivationEffects)[v];
  }

  /** What the caller of a plan receives does not depend on the order of its calls, but for the order of the lists. */
  lemma ArtifactsOrderIndependent(job: Job, other: Job, st: State, otherSt: State)
    requires WellFormed(job) && multiset(job.calls) == multiset(other.calls) && other == job.(calls := other.calls)
    requires Starts(job, st) && Starts(other, otherSt) && Listed(st) && Listed(otherSt)
    requires Run(job.tools, job.deps, st).Done?
    ensures Run(other.tools, other.deps, otherSt).Done?
    ensures var final, otherFinal := Run(job.tools, job.deps, st).value, Run(other.tools, other.deps, otherSt).value;
      && multiset(final.rawEffects) == multiset(otherFinal.rawEffects)
      && multiset(final.extractionEffects) == multiset(otherFinal.extractionEffects)
      && multiset(final.derivationEffects) == multiset(otherFinal.derivationEffects)
      && multiset(final.claims) == multiset(otherFinal.claims)
  {
    hide Run, WellFormed, Listed, SameEffects;
    OrderIndependent(job, other, st, otherSt);
    FinishedRunListed(job, st);
    FinishedRunListed(other, otherSt);
    SameEffectsSameLists(Run(job.tools, job.deps, st).value, Run(other.tools, other.deps, otherSt).value);
  }

  /** The same for plans as they are started, with whatever references and stored responses there are. */
  lemma PlanOrderIndependent(tools: Tools, calls: seq<ToolCall>, others: seq<ToolCall>, deps: Deps,
                             cached: seq<ResponseRef>, stored: map<string, RawResponse>)
    requires WellFormed(JobOf(tools, calls, deps, cached, stored)) && multiset(calls) == multiset(others)
    requires Run(tools, deps, InitialState(calls, cached, stored)).Done?
    ensures Run(tools, deps, InitialState(others, cached, stored)).Done?
    ensures var final := Run(tools, deps, InitialState(calls, cached, stored)).value;
      var otherFinal := Run(tools, deps, InitialState(others, cached, stored)).value;
      && SameEffects(final, otherFinal)
      && multiset(final.rawEffects) == multiset(otherFinal.rawEffects)
      && multiset(final.extractionEffects) == multiset(otherFinal.extractionEffects)
      && multiset(final.derivationEffects) == multiset(otherFinal.derivationEffects)
  {
    hide Run, Listed, SameEffects, Seed, ByCall, SourcesSettled, Starts;
    var job, other := JobOf(tools, calls, deps, cached, stored), JobOf(tools, others, deps, cached, stored);
    PermutedPlan(job, other);
    InitialStarts(job, cached, stored);
    InitialStarts(other, cached, stored);
    InitialStateListed(calls, cached, stored);
    InitialStateListed(others, cached, stored);
    var st, otherSt := InitialState(calls, cached, stored), InitialState(others, cached, stored);
    OrderIndependent(job, other, st, otherSt);
    ArtifactsOrderIndependent(job, other, st, otherSt);
  }
}
