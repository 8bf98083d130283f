/** Exactly which plans do the same in whatever order their calls are listed. */
module OrderExact {
  import opened Outcomes
  import opened ToolPlans
  import opened Schedule
  import opened Ledger
  import opened Waits
  import opened Runs
  import opened Meaning
  import opened PlanTheorems

  // ----- Skips stay

  lemma PerformKeepsSkips(tools: Tools, call: ToolCall, st: State)
    requires Perform(tools, call, st).Done?
    ensures st.skipped.Keys <= Perform(tools, call, st).value.skipped.Keys
  {
    PerformRecords(Job(tools, [], map[], map[]), call, st);
  }

  lemma {:induction false} PerformAllKeepsSkips(tools: Tools, calls: seq<ToolCall>, st: State)
    requires PerformAll(tools, calls, st).Done?
    ensures st.skipped.Keys <= PerformAll(tools, calls, st).value.skipped.Keys
  {
    hide Perform;
    if calls != [] {
      PerformKeepsSkips(tools, calls[0], st);
      PerformAllKeepsSkips(tools, calls[1..], Perform(tools, calls[0], st).value);
    }
  }

  lemma {:induction false} SweepKeepsSkips(tools: Tools, deps: Deps, calls: seq<ToolCall>, st: State)
    requires Sweep(tools, deps, calls, st).Done?
    ensures st.skipped.Keys <= Sweep(tools, deps, calls, st).value.skipped.Keys
  {
    hide Perform;
    if calls != [] {
      if Ready(deps, calls[0], st) {
        PerformKeepsSkips(tools, calls[0], st);
        SweepKeepsSkips(tools, deps, calls[1..], Perform(tools, calls[0], st).value);
      } else {
        SweepKeepsSkips(tools, deps, calls[1..], st);
      }
    }
  }

  lemma RunKeepsSkips(job: Job, st: State)
    requires DistinctIds(st.pending) && Run(job.tools, job.deps, st).Done?
    ensures st.skipped.Keys <= Run(job.tools, job.deps, st).value.skipped.Keys
  {
    hide Run, PerformAll;
    var done := RunSchedule(job, st);
    PerformAllKeepsSkips(job.tools, done, st);
  }

  // ----- A call that has its turn before its source

  /** Each call finds its dependencies completed, or among the calls before it. */
  ghost predicate Chain(job: Job, calls: seq<ToolCall>, completed: set<CallId>) {
    calls == [] ||
    (DepsOf(job.deps, calls[0].callId) <= completed && Chain(job, calls[1..], completed + {calls[0].callId}))
  }

  lemma {:induction false} ChainWithout(job: Job, calls: seq<ToolCall>, completed: set<CallId>, id: CallId)
    requires Chain(job, calls, completed)
    ensures Chain(job, Without(calls, id), completed + {id})
  {
    if calls != [] {
      var tail := Without(calls[1..], id);
      ChainWithout(job, calls[1..], completed + {calls[0].callId}, id);
      assert completed + {calls[0].callId} + {id} == completed + {id} + {calls[0].callId};
      if calls[0].callId == id {
        assert completed + {id} + {id} == completed + {id};
      } else {
        assert ([calls[0]] + tail)[1..] == tail;
      }
    }
  }

  lemma {:induction false} ChainLonger(job: Job, calls: seq<ToolCall>, completed: set<CallId>, call: ToolCall)
    requires Chain(job, calls, completed) && DepsOf(job.deps, call.callId) <= completed + Ids(calls)
    ensures Chain(job, calls + [call], completed)
  {
    if calls == [] {
      assert [] + [call] == [call] && completed + Ids([]) == completed;
      assert [call][1..] == [];
    } else {
      assert calls == [calls[0]] + calls[1..];
      assert completed + Ids(calls) == completed + {calls[0].callId} + Ids(calls[1..]);
      ChainLonger(job, calls[1..], completed + {calls[0].callId}, call);
      assert (calls + [call])[0] == calls[0] && (calls + [call])[1..] == calls[1..] + [call];
    }
  }

  /** The call is among the first pending ones, which can be performed in turn, and its source is not. */
  ghost predicate Ahead(job: Job, call: ToolCall, first: seq<ToolCall>, rest: seq<ToolCall>, st: State) {
    && st.pending == first + rest
    && call in first && !call.stage.Fetch?
    && Chain(job, first, st.completed)
    && SourceOf(call) !in Ids(first)
    && SourceOf(call) !in st.log && SourceOf(call) !in job.seeds
  }

  /** A call whose source has not been logged is skipped or raises. */
  lemma UnloggedSource(job: Job, call: ToolCall, st: State)
    requires Kept(job, st) && !call.stage.Fetch?
    requires SourceOf(call) !in st.log && SourceOf(call) !in job.seeds
    ensures Perform(job.tools, call, st).Done? ==> call.callId in Perform(job.tools, call, st).value.skipped
  {
    hide Booked, Settled, Topological, Metered, Traced;
    SourceMissing(job, call, st);
    if Perform(job.tools, call, st).Done? {
      PerformRecords(job, call, st);
      JudgedMissing(job.tools, call, st);
    }
  }

  lemma SourceMissing(job: Job, call: ToolCall, st: State)
    requires Kept(job, st) && SourceOf(call) !in st.log && SourceOf(call) !in job.seeds
    ensures SourceOf(call) !in st.raw && SourceOf(call) !in st.extractions && SourceOf(call) !in st.derivations
  {
    hide Booked, Settled, Topological, Metered;
  }

  lemma JudgedMissing(tools: Tools, call: ToolCall, st: State)
    requires !call.stage.Fetch?
    requires SourceOf(call) !in st.raw && SourceOf(call) !in st.extractions && SourceOf(call) !in st.derivations
    ensures Judge(tools, call, st).Skip? || Judge(tools, call, st).Fail?
  {
  }

  lemma WithoutFirst(first: seq<ToolCall>, rest: seq<ToolCall>)
    requires first != [] && DistinctIds(first + rest)
    ensures Without(first + rest, first[0].callId) == first[1..] + rest
  {
    var calls := first + rest;
    assert calls[0] == first[0] && calls[1..] == first[1..] + rest;
    forall c | c in calls[1..] ensures c.callId != calls[0].callId {
      var i :| 0 <= i < |calls[1..]| && calls[1..][i] == c;
      assert calls[i + 1] == c;
    }
    NoneWithout(calls[1..], calls[0].callId);
  }

  lemma {:induction false} NoneWithout(calls: seq<ToolCall>, id: CallId)
    requires forall c :: c in calls ==> c.callId != id
    ensures Without(calls, id) == calls
  {
    if calls != [] {
      assert calls[0] in calls && forall c :: c in calls[1..] ==> c in calls;
      NoneWithout(calls[1..], id);
    }
  }

  /** A sweep reaches the call before its source. */
  lemma {:induction false} SweepLoses(job: Job, call: ToolCall, first: seq<ToolCall>, rest: seq<ToolCall>, st: State)
    requires Kept(job, st) && Ahead(job, call, first, rest, st)
    ensures var swept := Sweep(job.tools, job.deps, st.pending, st);
      swept.Done? ==> call.callId in swept.value.skipped
    decreases |first|
  {
    hide Perform, Kept;
    var head := first[0];
    assert st.pending[0] == head && st.pending[1..] == first[1..] + rest;
    var performed := Perform(job.tools, head, st);
    if performed.Done? {
      var next := performed.value;
      assert DistinctIds(st.pending) by { assert Kept(job, st); KeptDistinct(job, st); }
      PerformShape(job.tools, head, st);
      WithoutFirst(first, rest);
      PerformedKeeps(job, head, st);
      if head == call {
        UnloggedSource(job, call, st);
        if Sweep(job.tools, job.deps, st.pending[1..], next).Done? {
          SweepKeepsSkips(job.tools, job.deps, st.pending[1..], next);
        }
      } else {
        assert head.callId in Ids(first);
        assert Ids(first[1..]) <= Ids(first);
        SweepLoses(job, call, first[1..], rest, next);
      }
    }
  }

  lemma KeptDistinct(job: Job, st: State)
    requires Kept(job, st)
    ensures DistinctIds(st.pending)
  {
  }

  lemma PerformedKeeps(job: Job, call: ToolCall, st: State)
    requires Kept(job, st) && call in st.pending && Ready(job.deps, call, st)
    requires Perform(job.tools, call, st).Done?
    ensures Kept(job, Perform(job.tools, call, st).value)
  {
    hide Kept;
    PerformKeeps(job, call, st);
  }

  // ----- Fetch batches do not reach such a source

  ghost predicate OnlyFetchesLogged(job: Job, st: State) {
    forall c :: c in job.calls && c.callId in st.log ==> c.stage.Fetch?
  }

  /** A source that waits for a call of a later stage is not ready while only fetch calls are done. */
  lemma SourceNotReady(job: Job, call: ToolCall, source: ToolCall, st: State)
    requires Booked(job, st) && Topological(job, st) && SeedsAreFetches(job) && OnlyFetchesLogged(job, st)
    requires source in job.calls && source.callId == SourceOf(call) && !FetchedFirst(job, job.seeds.Keys, source)
    requires source.stage.Fetch?
    ensures !Ready(job.deps, source, st)
  {
    var c :| c in job.calls && Awaits(job.deps, job.seeds.Keys, source.callId, c.callId) && !c.stage.Fetch?;
    if Ready(job.deps, source, st) {
      AwaitedCompletes(job, st, source.callId, c.callId);
    }
  }

  lemma {:induction false} WithoutJoins(first: seq<ToolCall>, rest: seq<ToolCall>, id: CallId)
    ensures Without(first + rest, id) == Without(first, id) + Without(rest, id)
  {
    if first == [] {
      assert first + rest == rest;
    } else {
      assert (first + rest)[0] == first[0] && (first + rest)[1..] == first[1..] + rest;
      WithoutJoins(first[1..], rest, id);
    }
  }

  /** The source is a plan call, neither cached nor done before all calls of later stages. */
  ghost predicate Unsettled(job: Job, call: ToolCall, source: ToolCall) {
    && SeedsAreFetches(job) && DistinctIds(job.calls)
    && source in job.calls && source.callId == SourceOf(call)
    && source.callId !in job.seeds && !FetchedFirst(job, job.seeds.Keys, source)
  }

  lemma FetchIsNotSource(job: Job, call: ToolCall, source: ToolCall, fetch: ToolCall, st: State)
    requires Booked(job, st) && Topological(job, st) && OnlyFetchesLogged(job, st) && Unsettled(job, call, source)
    requires fetch in st.pending && fetch.stage.Fetch? && Ready(job.deps, fetch, st)
    ensures fetch.callId != source.callId
  {
    OneCallPerId(job, source);
    if source.stage.Fetch? {
      SourceNotReady(job, call, source, st);
    }
  }

  lemma FetchKeepsAhead(job: Job, call: ToolCall, source: ToolCall, fetch: ToolCall, first: seq<ToolCall>,
                        rest: seq<ToolCall>, st: State)
    requires Kept(job, st) && OnlyFetchesLogged(job, st) && Unsettled(job, call, source) && call in job.calls
    requires Ahead(job, call, first, rest, st)
    requires fetch in st.pending && fetch.stage.Fetch? && Ready(job.deps, fetch, st)
    requires Perform(job.tools, fetch, st).Done?
    ensures var next := Perform(job.tools, fetch, st).value;
      && Kept(job, next) && OnlyFetchesLogged(job, next)
      && Ahead(job, call, Without(first, fetch.callId), Without(rest, fetch.callId), next)
  {
    hide Perform, Settled, Traced, Topological, Metered, FetchedFirst;
    PerformShape(job.tools, fetch, st);
    PerformedKeeps(job, fetch, st);
    FetchIsNotSource(job, call, source, fetch, st);
    WithoutJoins(first, rest, fetch.callId);
    ChainWithout(job, first, st.completed, fetch.callId);
    OneCallPerId(job, fetch);
  }

  /** A batch of fetch calls leaves the call ahead of its source. */
  lemma {:induction false} FetchesKeepAhead(job: Job, call: ToolCall, source: ToolCall, fetches: seq<ToolCall>,
                                            first: seq<ToolCall>, rest: seq<ToolCall>, st: State)
    returns (left: seq<ToolCall>, others: seq<ToolCall>)
    requires Kept(job, st) && OnlyFetchesLogged(job, st) && Unsettled(job, call, source) && call in job.calls
    requires Ahead(job, call, first, rest, st)
    requires Permitted(job, fetches, st) && forall c :: c in fetches ==> c.stage.Fetch?
    requires PerformAll(job.tools, fetches, st).Done?
    ensures var next := PerformAll(job.tools, fetches, st).value;
      Kept(job, next) && OnlyFetchesLogged(job, next) && Ahead(job, call, left, others, next)
  {
    hide Perform, Kept, OnlyFetchesLogged, Unsettled, Ahead, Ready;
    if fetches == [] {
      left, others := first, rest;
    } else {
      var id := fetches[0].callId;
      FetchKeepsAhead(job, call, source, fetches[0], first, rest, st);
      left, others := FetchesKeepAhead(job, call, source, fetches[1..], Without(first, id), Without(rest, id),
                                       Perform(job.tools, fetches[0], st).value);
    }
  }

  /** A run from there raises, or skips the call. */
  lemma {:induction false} RunLoses(job: Job, call: ToolCall, source: ToolCall, first: seq<ToolCall>,
                                    rest: seq<ToolCall>, st: State)
    requires Kept(job, st) && OnlyFetchesLogged(job, st) && Unsettled(job, call, source) && call in job.calls
    requires Ahead(job, call, first, rest, st)
    ensures var final := Run(job.tools, job.deps, st); final.Done? ==> call.callId in final.value.skipped
    decreases |st.pending|
  {
    hide Kept, OnlyFetchesLogged, Unsettled, PerformAll, Sweep, FetchRound, Chain;
    KeptDistinct(job, st);
    var ready := ReadyFetches(job.deps, st.pending, st);
    var round := Round(job.tools, job.deps, st);
    if ready == [] {
      SweepLoses(job, call, first, rest, st);
      if round.Done? && Run(job.tools, job.deps, round.value).Done? && |round.value.pending| < |st.pending| {
        var swept := SweepSchedule(job, st.pending, st);
        PerformAllAdvances(job, swept, st);
        RunKeepsSkips(job, round.value);
      }
    } else if round.Done? && |round.value.pending| < |st.pending| {
      BatchIsSequential(job.tools, ready, st);
      var done := ReadyCallsPermitted(job, ready, st);
      var left, others := FetchesKeepAhead(job, call, source, done, first, rest, st);
      RunLoses(job, call, source, left, others, round.value);
    }
  }

  // ----- An order with the call ahead of its source

  /** The call itself, and what it waits for. */
  ghost predicate Needed(job: Job, call: ToolCall, id: CallId) {
    id == call.callId || (id !in job.seeds && Awaits(job.deps, job.seeds.Keys, call.callId, id))
  }

  /** The logged calls that are needed, or those that are not, in the order of the log. */
  ghost function Pick(job: Job, call: ToolCall, needed: bool, log: seq<CallId>): seq<ToolCall> {
    if log == [] then []
    else
      var last := log[|log| - 1];
      var found := FindCall(job.calls, last);
      Pick(job, call, needed, log[..|log| - 1]) +
      if found.Some? && (Needed(job, call, last) <==> needed) then [found.value] else []
  }

  lemma {:induction false} PickHas(job: Job, call: ToolCall, needed: bool, log: seq<CallId>, c: ToolCall)
    requires DistinctIds(job.calls)
    ensures c in Pick(job, call, needed, log) <==>
      c in job.calls && c.callId in log && (Needed(job, call, c.callId) <==> needed)
  {
    hide Needed;
    if log != [] {
      var last := log[|log| - 1];
      PickHas(job, call, needed, log[..|log| - 1], c);
      assert c.callId in log <==> c.callId == last || c.callId in log[..|log| - 1];
      if c in job.calls { FindsItsCall(job.calls, c); }
    }
  }

  lemma {:induction false} PickDistinct(job: Job, call: ToolCall, needed: bool, log: seq<CallId>)
    requires DistinctIds(job.calls) && DistinctLog(log)
    ensures DistinctIds(Pick(job, call, needed, log))
  {
    hide Needed;
    if log != [] {
      var before := Pick(job, call, needed, log[..|log| - 1]);
      PickDistinct(job, call, needed, log[..|log| - 1]);
      forall i | 0 <= i < |before| ensures before[i].callId != log[|log| - 1] {
        PickHas(job, call, needed, log[..|log| - 1], before[i]);
      }
    }
  }

  lemma {:induction false} CountsOnce(calls: seq<ToolCall>, c: ToolCall)
    requires DistinctIds(calls)
    ensures multiset(calls)[c] == if c in calls then 1 else 0
  {
    if calls != [] {
      assert calls == [calls[0]] + calls[1..];
      CountsOnce(calls[1..], c);
    }
  }

  lemma SameBag(calls: seq<ToolCall>, others: seq<ToolCall>)
    requires DistinctIds(calls) && DistinctIds(others)
    requires forall c :: c in calls <==> c in others
    ensures multiset(calls) == multiset(others)
  {
    forall c ensures multiset(calls)[c] == multiset(others)[c] {
      CountsOnce(calls, c);
      CountsOnce(others, c);
    }
  }

  ghost function Reordering(job: Job, call: ToolCall, log: seq<CallId>): Job {
    job.(calls := Pick(job, call, true, log) + Pick(job, call, false, log))
  }

  lemma ReorderingPermutes(job: Job, call: ToolCall, final: State)
    requires Booked(job, final) && final.pending == []
    ensures var other := Reordering(job, call, final.log);
      DistinctIds(other.calls) && multiset(job.calls) == multiset(other.calls)
  {
    hide Needed;
    var first, rest := Pick(job, call, true, final.log), Pick(job, call, false, final.log);
    PickDistinct(job, call, true, final.log);
    PickDistinct(job, call, false, final.log);
    LoggedIsPlanned(job, final);
    forall c ensures c in first <==> c in job.calls && Needed(job, call, c.callId)
             ensures c in rest <==> c in job.calls && !Needed(job, call, c.callId) {
      PickHas(job, call, true, final.log, c);
      PickHas(job, call, false, final.log, c);
    }
    assert forall i, j :: 0 <= i < |first| && 0 <= j < |rest| ==> first[i].callId != rest[j].callId by {
      forall i, j | 0 <= i < |first| && 0 <= j < |rest| ensures first[i].callId != rest[j].callId {
        assert first[i] in first && rest[j] in rest;
      }
    }
    SameBag(job.calls, first + rest);
  }

  lemma PickStep(job: Job, call: ToolCall, needed: bool, log: seq<CallId>, n: nat)
    requires n < |log| && FindCall(job.calls, log[n]).Some?
    ensures Pick(job, call, needed, log[..n + 1]) == Pick(job, call, needed, log[..n]) +
      if Needed(job, call, log[n]) <==> needed then [FindCall(job.calls, log[n]).value] else []
  {
    hide Needed;
    assert log[..n + 1][..n] == log[..n];
  }

  /** What a needed call in the log depends on was picked before it. */
  lemma PicksDeps(job: Job, call: ToolCall, final: State, n: nat)
    requires Booked(job, final) && Topological(job, final) && n < |final.log| && Needed(job, call, final.log[n])
    ensures DepsOf(job.deps, final.log[n]) <= job.seeds.Keys + Ids(Pick(job, call, true, final.log[..n]))
  {
    hide Pick, Needed;
    forall dep | dep in DepsOf(job.deps, final.log[n]) && dep !in job.seeds
      ensures dep in Ids(Pick(job, call, true, final.log[..n]))
    {
      assert dep in final.log[..n] && dep in final.log;
      NeedsOn(job, call, final.log[n], dep);
      PickHas(job, call, true, final.log[..n], FindCall(job.calls, dep).value);
    }
  }

  lemma PickChainsOn(job: Job, call: ToolCall, final: State, n: nat)
    requires Booked(job, final) && Topological(job, final) && n < |final.log|
    requires Chain(job, Pick(job, call, true, final.log[..n]), job.seeds.Keys)
    ensures Chain(job, Pick(job, call, true, final.log[..n + 1]), job.seeds.Keys)
  {
    hide Chain, Needed, Pick, Topological, Booked;
    var id, picked := final.log[n], Pick(job, call, true, final.log[..n]);
    LoggedFound(job, final, n);
    PickStep(job, call, true, final.log, n);
    if Needed(job, call, id) {
      PicksDeps(job, call, final, n);
      ChainLonger(job, picked, job.seeds.Keys, FindCall(job.calls, id).value);
    } else {
      assert picked + [] == picked;
    }
  }

  lemma LoggedFound(job: Job, final: State, n: nat)
    requires Booked(job, final) && n < |final.log|
    ensures FindCall(job.calls, final.log[n]).Some?
  {
    assert final.log[n] in final.log;
  }

  /** In the order of a topological log, the needed calls can be performed in turn. */
  lemma {:induction false} PickChains(job: Job, call: ToolCall, final: State, n: nat)
    requires Booked(job, final) && Topological(job, final) && n <= |final.log|
    ensures Chain(job, Pick(job, call, true, final.log[..n]), job.seeds.Keys)
  {
    if n == 0 {
      EmptyChain(job, job.seeds.Keys);
    } else {
      hide *;
      PickChains(job, call, final, n - 1);
      PickChainsOn(job, call, final, n - 1);
    }
  }

  lemma EmptyChain(job: Job, completed: set<CallId>)
    ensures Chain(job, [], completed)
  {
  }

  lemma NeedsOn(job: Job, call: ToolCall, id: CallId, dep: CallId)
    requires Needed(job, call, id) && dep in DepsOf(job.deps, id) && dep !in job.seeds
    ensures Needed(job, call, dep)
  {
    if id == call.callId {
      AwaitsDependency(job.deps, job.seeds.Keys, id, dep);
    } else {
      AwaitsFurther(job.deps, job.seeds.Keys, call.callId, id, dep);
    }
  }

  /** An executed call is not its own source. */
  lemma NotOwnSource(job: Job, call: ToolCall, final: State)
    requires Kept(job, final) && call in job.calls && call.callId in final.log && final.skipped == map[]
    requires !call.stage.Fetch? && SourceOf(call) !in job.seeds
    ensures SourceOf(call) != call.callId
  {
    hide Booked, Topological, Metered, RunClient, ExtractVerdict, DeriveVerdict, ClaimVerdict;
    assert Executed(call, final);
    FindsItsCall(job.calls, call) by { assert Booked(job, final); KeptPlan(job, final); }
    if call.stage.Claim? {
      var k :| 0 <= k < |final.claimants| && final.claimants[k] == call.callId;
      assert ClaimTraced(job, final, k);
    }
  }

  lemma KeptPlan(job: Job, st: State)
    requires Booked(job, st)
    ensures DistinctIds(job.calls)
  {
  }

  lemma OtherStarts(job: Job, other: Job, st: State)
    requires Starts(job, st) && other == job.(calls := other.calls) && DistinctIds(other.calls)
    ensures Starts(other, st.(pending := other.calls))
  {
  }

  /** The calls picked can be performed in turn; the call is among them, and its source is not. */
  lemma PickedFirst(job: Job, call: ToolCall, source: ToolCall, final: State)
    requires Kept(job, final) && final.pending == [] && final.skipped == map[]
    requires call in job.calls && !call.stage.Fetch? && Unsettled(job, call, source)
    requires !Awaits(job.deps, job.seeds.Keys, call.callId, source.callId)
    ensures var first := Pick(job, call, true, final.log);
      call in first && source.callId !in Ids(first) && Chain(job, first, job.seeds.Keys)
  {
    hide Settled, Traced, Metered, Chain, Pick, Topological;
    LoggedIsPlanned(job, final);
    NotOwnSource(job, call, final);
    PickHas(job, call, true, final.log, call);
    forall c | c in Pick(job, call, true, final.log) ensures c.callId != source.callId {
      PickHas(job, call, true, final.log, c);
    }
    PickChains(job, call, final, |final.log|);
    assert final.log[..|final.log|] == final.log;
  }

  /** Where a source is not settled, the reordering loses the call. */
  lemma ReorderingLoses(job: Job, call: ToolCall, source: ToolCall, st: State, final: State)
    requires Starts(job, st) && Kept(job, final) && final.pending == [] && final.skipped == map[]
    requires call in job.calls && !call.stage.Fetch? && Unsettled(job, call, source)
    requires !Awaits(job.deps, job.seeds.Keys, call.callId, source.callId)
    ensures var other := Reordering(job, call, final.log);
      && multiset(job.calls) == multiset(other.calls)
      && Starts(other, st.(pending := other.calls))
      && var run := Run(other.tools, other.deps, st.(pending := other.calls));
         run.Done? ==> call.callId in run.value.skipped
  {
    hide Settled, Traced, Metered, Run, Chain, Pick, Starts, Ahead, OnlyFetchesLogged, Topological, Awaits,
         DistinctIds;
    var other := Reordering(job, call, final.log);
    var first, rest := Pick(job, call, true, final.log), Pick(job, call, false, final.log);
    var start := st.(pending := other.calls);
    ReorderingPermutes(job, call, final);
    OtherStarts(job, other, st);
    StartKeeps(other, start);
    PickedFirst(job, call, source, final);
    SameChain(job, other, first, job.seeds.Keys);
    SameMembers(job, other);
    StartAhead(job, other, call, first, rest, st);
    RunLoses(other, call, source, first, rest, start);
  }

  lemma {:induction false} SameChain(job: Job, other: Job, calls: seq<ToolCall>, completed: set<CallId>)
    requires Chain(job, calls, completed) && other.deps == job.deps
    ensures Chain(other, calls, completed)
  {
    if calls != [] {
      SameChain(job, other, calls[1..], completed + {calls[0].callId});
    }
  }

  lemma SameMembers(job: Job, other: Job)
    requires multiset(job.calls) == multiset(other.calls)
    ensures forall c :: c in job.calls <==> c in other.calls
  {
    assert forall c :: c in job.calls <==> c in multiset(job.calls);
    assert forall c :: c in other.calls <==> c in multiset(other.calls);
  }

  lemma StartAhead(job: Job, other: Job, call: ToolCall, first: seq<ToolCall>, rest: seq<ToolCall>, st: State)
    requires Starts(job, st) && other == job.(calls := first + rest)
    requires call in first && !call.stage.Fetch? && Chain(other, first, job.seeds.Keys)
    requires SourceOf(call) !in Ids(first) && SourceOf(call) !in job.seeds
    ensures Ahead(other, call, first, rest, st.(pending := other.calls))
    ensures OnlyFetchesLogged(other, st.(pending := other.calls))
  {
    hide Chain;
  }

  // ----- The condition

  ghost predicate Reordered(job: Job, other: Job) {
    other == job.(calls := other.calls) && multiset(job.calls) == multiset(other.calls)
  }

  /** In whatever order its calls are listed, the plan finishes with these effects. */
  ghost predicate OrderFree(job: Job, final: State) {
    forall other, st :: Reordered(job, other) && Starts(other, st) ==>
      Run(other.tools, other.deps, st).Done? && SameEffects(final, Run(other.tools, other.deps, st).value)
  }

  /**
   A plan of which a run executes every call does the same in every order exactly if each source in the plan
   is cached, or awaited by its call, or fetched before any call of a later stage.
   */
  lemma OrderFreeExactly(job: Job, st: State)
    requires Starts(job, st) && SeedsAreFetches(job)
    requires Run(job.tools, job.deps, st).Done? && Run(job.tools, job.deps, st).value.skipped == map[]
    ensures OrderFree(job, Run(job.tools, job.deps, st).value) <==> SourcesSettled(job, job.seeds.Keys)
  {
    hide Run, SameEffects, SourceSettled, Kept, Starts;
    var final := Run(job.tools, job.deps, st).value;
    KeptPlan(job, st) by { StartKeeps(job, st); }
    if SourcesSettled(job, job.seeds.Keys) {
      forall other, otherSt | Reordered(job, other) && Starts(other, otherSt)
        ensures Run(other.tools, other.deps, otherSt).Done?
        ensures SameEffects(final, Run(other.tools, other.deps, otherSt).value)
      {
        OrderIndependent(job, other, st, otherSt);
      }
    } else {
      var call :| call in job.calls && !call.stage.Fetch? && FindCall(job.calls, SourceOf(call)).Some?
                  && !SourceSettled(job, job.seeds.Keys, call);
      UnsettledLoses(job, call, st);
    }
  }

  lemma UnsettledLoses(job: Job, call: ToolCall, st: State)
    requires Starts(job, st) && SeedsAreFetches(job)
    requires Run(job.tools, job.deps, st).Done? && Run(job.tools, job.deps, st).value.skipped == map[]
    requires call in job.calls && !call.stage.Fetch? && FindCall(job.calls, SourceOf(call)).Some?
    requires !SourceSettled(job, job.seeds.Keys, call)
    ensures !OrderFree(job, Run(job.tools, job.deps, st).value)
  {
    hide Run, Starts, PerformAll, Permitted, FetchesFirst, FetchedFirst, Awaits;
    var final := Run(job.tools, job.deps, st).value;
    StartKeeps(job, st);
    KeptPlan(job, st);
    KeptDistinct(job, st);
    var done := RunSchedule(job, st);
    PerformAllKeeps(job, done, st);
    var source := FindCall(job.calls, SourceOf(call)).value;
    ReorderingLoses(job, call, source, st, final);
    var other := Reordering(job, call, final.log);
    assert Reordered(job, other);
  }
}
