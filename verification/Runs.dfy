/** Whole runs: how far they get, what order they follow, and what they leave. */
module Runs {
  import opened Outcomes
  import opened ToolPlans
  import opened Schedule
  import opened Ledger
  import opened Waits

  /** Each call is pending and ready when its turn comes. */
  ghost predicate Permitted(job: Job, calls: seq<ToolCall>, st: State) {
    calls == [] ||
    (&& calls[0] in st.pending
     && Ready(job.deps, calls[0], st)
     && match Perform(job.tools, calls[0], st)
        case Raised(_) => calls[1..] == []
        case Done(next) => Permitted(job, calls[1..], next))
  }

  /** A call of a later stage has its turn only when the fetch calls that nothing else holds up are done. */
  ghost predicate FetchesFirst(job: Job, calls: seq<ToolCall>, st: State) {
    calls == [] ||
    (&& (calls[0].stage.Fetch? || FirstFetched(job, st))
     && match Perform(job.tools, calls[0], st)
        case Raised(_) => true
        case Done(next) => FetchesFirst(job, calls[1..], next))
  }

  lemma PerformShape(tools: Tools, call: ToolCall, st: State)
    requires Perform(tools, call, st).Done?
    ensures Advances(call, st, Perform(tools, call, st).value)
  {
    var job := Job(tools, [], map[], map[]);
    PerformRecords(job, call, st);
  }

  lemma {:induction false} PerformAllAppends(job: Job, first: seq<ToolCall>, second: seq<ToolCall>, st: State)
    requires Permitted(job, first, st)
    requires PerformAll(job.tools, first, st).Done?
    requires Permitted(job, second, PerformAll(job.tools, first, st).value)
    ensures Permitted(job, first + second, st)
    ensures PerformAll(job.tools, first + second, st) ==
            PerformAll(job.tools, second, PerformAll(job.tools, first, st).value)
  {
    hide Perform;
    if first == [] {
      assert first + second == second;
    } else {
      assert (first + second)[0] == first[0] && (first + second)[1..] == first[1..] + second;
      PerformAllAppends(job, first[1..], second, Perform(job.tools, first[0], st).value);
    }
  }

  /** Distinct pending calls that are all ready can be performed in any one order. */
  lemma {:induction false} ReadyCallsPermitted(job: Job, calls: seq<ToolCall>, st: State) returns (done: seq<ToolCall>)
    requires DistinctIds(calls)
    requires forall c :: c in calls ==> c in st.pending && Ready(job.deps, c, st)
    ensures Permitted(job, done, st)
    ensures PerformAll(job.tools, done, st) == PerformAll(job.tools, calls, st)
    ensures calls != [] ==> done != []
    ensures forall c :: c in done ==> c in calls
  {
    hide Perform;
    if calls == [] {
      done := [];
    } else {
      var performed := Perform(job.tools, calls[0], st);
      match performed
      case Raised(_) => done := [calls[0]];
      case Done(next) =>
        PerformShape(job.tools, calls[0], st);
        forall c | c in calls[1..] ensures c in next.pending && Ready(job.deps, c, next) {
          assert c in calls && c.callId != calls[0].callId;
        }
        var rest := ReadyCallsPermitted(job, calls[1..], next);
        done := [calls[0]] + rest;
        assert done[1..] == rest;
    }
  }

  lemma {:induction false} SweepSchedule(job: Job, calls: seq<ToolCall>, st: State) returns (done: seq<ToolCall>)
    requires DistinctIds(calls)
    requires forall c :: c in calls ==> c in st.pending
    ensures Permitted(job, done, st)
    ensures PerformAll(job.tools, done, st) == Sweep(job.tools, job.deps, calls, st)
    ensures done == [] ==> forall c :: c in calls ==> !Ready(job.deps, c, st)
  {
    hide Perform;
    if calls == [] {
      done := [];
    } else if Ready(job.deps, calls[0], st) {
      var performed := Perform(job.tools, calls[0], st);
      match performed
      case Raised(_) => done := [calls[0]];
      case Done(next) =>
        PerformShape(job.tools, calls[0], st);
        forall c | c in calls[1..] ensures c in next.pending {
          assert c in calls && c.callId != calls[0].callId;
        }
        var rest := SweepSchedule(job, calls[1..], next);
        done := [calls[0]] + rest;
        assert done[1..] == rest;
    } else {
      done := SweepSchedule(job, calls[1..], st);
      assert forall c :: c in calls ==> c == calls[0] || c in calls[1..];
    }
  }

  /** A round performs ready pending calls one after the other, and some if any is ready. */
  lemma RoundSchedule(job: Job, st: State) returns (done: seq<ToolCall>)
    requires DistinctIds(st.pending)
    ensures Permitted(job, done, st)
    ensures match Round(job.tools, job.deps, st)
            case Raised(_) => PerformAll(job.tools, done, st).Raised?
            case Done(next) => PerformAll(job.tools, done, st) == Done(next)
    ensures done == [] ==> forall c :: c in st.pending ==> !Ready(job.deps, c, st)
    ensures (forall c :: c in done ==> c.stage.Fetch?) || ReadyFetches(job.deps, st.pending, st) == []
  {
    hide FetchRound, Sweep, PerformAll;
    var ready := ReadyFetches(job.deps, st.pending, st);
    if ready != [] {
      BatchIsSequential(job.tools, ready, st);
      done := ReadyCallsPermitted(job, ready, st);
    } else {
      done := SweepSchedule(job, st.pending, st);
    }
  }

  lemma {:induction false} PerformAllAdvances(job: Job, calls: seq<ToolCall>, st: State)
    requires DistinctIds(st.pending)
    requires Permitted(job, calls, st) && PerformAll(job.tools, calls, st).Done?
    ensures var next := PerformAll(job.tools, calls, st).value;
            && DistinctIds(next.pending)
            && |next.pending| + |calls| <= |st.pending|
            && next.log == st.log + seq(|calls|, i requires 0 <= i < |calls| => calls[i].callId)
  {
    hide Perform;
    if calls == [] {
      assert st.log + seq(|calls|, i requires 0 <= i < |calls| => calls[i].callId) == st.log;
    } else {
      var next := Perform(job.tools, calls[0], st).value;
      PerformShape(job.tools, calls[0], st);
      PerformAllAdvances(job, calls[1..], next);
      var ids := seq(|calls|, i requires 0 <= i < |calls| => calls[i].callId);
      var tail := seq(|calls[1..]|, i requires 0 <= i < |calls[1..]| => calls[1..][i].callId);
      assert ids == [calls[0].callId] + tail;
      assert st.log + ids == st.log + [calls[0].callId] + tail;
    }
  }

  lemma {:induction false} TriageNeverCycles(tools: Tools, calls: seq<ToolCall>, executable: seq<ToolCall>, st: State)
    ensures Triage(tools, calls, executable, st) != Raised(DependencyCycle)
  {
    if calls != [] {
      var call := calls[0];
      TriageNeverCycles(tools, calls[1..], executable, st);
      TriageNeverCycles(tools, calls[1..], executable + [call], st);
      match Decline(call, "missing_client", None, MissingClient(call.tool))
      case Fail(_) =>
      case Skip(record) => TriageNeverCycles(tools, calls[1..], executable, RecordSkip(call, record, st));
    }
  }

  lemma {:induction false} FetchAllNeverCycles(tools: Tools, calls: seq<ToolCall>, st: State)
    ensures FetchAll(tools, calls, st) != Raised(DependencyCycle)
  {
    if calls != [] && RunClient(tools, calls[0]).Done? {
      FetchAllNeverCycles(tools, calls[1..], StoreFetch(calls[0], RunClient(tools, calls[0]).value, st));
    }
  }

  lemma PerformNeverCycles(tools: Tools, call: ToolCall, st: State)
    ensures Perform(tools, call, st) != Raised(DependencyCycle)
  {
  }

  lemma {:induction false} SweepNeverCycles(tools: Tools, deps: Deps, calls: seq<ToolCall>, st: State)
    ensures Sweep(tools, deps, calls, st) != Raised(DependencyCycle)
  {
    hide Perform;
    if calls != [] {
      SweepNeverCycles(tools, deps, calls[1..], st);
      PerformNeverCycles(tools, calls[0], st);
      if Perform(tools, calls[0], st).Done? {
        SweepNeverCycles(tools, deps, calls[1..], Perform(tools, calls[0], st).value);
      }
    }
  }

  lemma RoundNeverCycles(tools: Tools, deps: Deps, st: State)
    ensures Round(tools, deps, st) != Raised(DependencyCycle)
  {
    hide Sweep, Triage, FetchAll;
    var ready := ReadyFetches(deps, st.pending, st);
    SweepNeverCycles(tools, deps, st.pending, st);
    TriageNeverCycles(tools, ready, [], st);
    var batch := Triage(tools, ready, [], st);
    if batch.Done? {
      FetchAllNeverCycles(tools, batch.value.executable, batch.value.state);
    }
  }

  /** No pending call has all its dependencies completed. */
  ghost predicate Deadlocked(job: Job, st: State) {
    st.pending != [] && forall c :: c in st.pending ==> !Ready(job.deps, c, st)
  }

  lemma {:induction false} OnlyFetches(job: Job, calls: seq<ToolCall>, st: State)
    requires forall c :: c in calls ==> c.stage.Fetch?
    ensures FetchesFirst(job, calls, st)
  {
    hide Perform, FirstFetched;
    if calls != [] && Perform(job.tools, calls[0], st).Done? {
      OnlyFetches(job, calls[1..], Perform(job.tools, calls[0], st).value);
    }
  }

  lemma {:induction false} FetchedBefore(job: Job, calls: seq<ToolCall>, st: State)
    requires FirstFetched(job, st)
    ensures FetchesFirst(job, calls, st)
  {
    hide Perform, FetchedFirst;
    if calls != [] && Perform(job.tools, calls[0], st).Done? {
      PerformShape(job.tools, calls[0], st);
      FetchedBefore(job, calls[1..], Perform(job.tools, calls[0], st).value);
    }
  }

  lemma {:induction false} FetchesFirstAppends(job: Job, first: seq<ToolCall>, second: seq<ToolCall>, st: State)
    requires FetchesFirst(job, first, st) && PerformAll(job.tools, first, st).Done?
    requires FetchesFirst(job, second, PerformAll(job.tools, first, st).value)
    ensures FetchesFirst(job, first + second, st)
  {
    hide Perform, FirstFetched;
    if first == [] {
      assert first + second == second;
    } else {
      assert (first + second)[0] == first[0] && (first + second)[1..] == first[1..] + second;
      FetchesFirstAppends(job, first[1..], second, Perform(job.tools, first[0], st).value);
    }
  }

  /** No set of calls is stuck, and only fetch calls are cached. */
  ghost predicate Flows(job: Job) {
    SeedsAreFetches(job) && !exists calls :: Stuck(job, calls)
  }

  lemma RoundFetchesFirst(job: Job, done: seq<ToolCall>, st: State)
    requires Kept(job, st) && Flows(job)
    requires (forall c :: c in done ==> c.stage.Fetch?) || ReadyFetches(job.deps, st.pending, st) == []
    ensures FetchesFirst(job, done, st)
  {
    hide Settled, Traced, Topological, Metered;
    if ReadyFetches(job.deps, st.pending, st) == [] {
      NoneReadyFirstFetched(job, st);
      FetchedBefore(job, done, st);
    } else {
      OnlyFetches(job, done, st);
    }
  }

  /**
   A run is a schedule: calls performed one at a time, each ready in its turn. It ends with
   nothing pending, in a deadlock reported as a dependency cycle, or at the call that raised.
   */
  lemma {:induction false} RunSchedule(job: Job, st: State) returns (done: seq<ToolCall>)
    requires DistinctIds(st.pending)
    ensures Permitted(job, done, st)
    ensures match Run(job.tools, job.deps, st)
            case Done(final) => PerformAll(job.tools, done, st) == Done(final) && final.pending == []
            case Raised(error) =>
              match PerformAll(job.tools, done, st)
              case Done(stuck) => error == DependencyCycle && Deadlocked(job, stuck)
              case Raised(_) => error != DependencyCycle
    ensures Kept(job, st) && Flows(job) ==> FetchesFirst(job, done, st)
    decreases |st.pending|
  {
    hide Round, Perform, Kept, Flows, FirstFetched;
    if st.pending == [] {
      done := [];
    } else {
      done := RoundSchedule(job, st);
      var round := Round(job.tools, job.deps, st);
      RoundNeverCycles(job.tools, job.deps, st);
      if Kept(job, st) && Flows(job) { RoundFetchesFirst(job, done, st); }
      if round.Done? {
        PerformAllAdvances(job, done, st);
        if done != [] {
          var rest := RunSchedule(job, round.value);
          PerformAllAppends(job, done, rest, st);
          if Kept(job, st) && Flows(job) {
            PerformAllKeeps(job, done, st);
            FetchesFirstAppends(job, done, rest, st);
          }
          done := done + rest;
        }
      }
    }
  }

  lemma {:induction false} PerformAllKeeps(job: Job, calls: seq<ToolCall>, st: State)
    requires Kept(job, st) && Permitted(job, calls, st)
    requires PerformAll(job.tools, calls, st).Done?
    ensures Kept(job, PerformAll(job.tools, calls, st).value)
  {
    hide Kept;
    if calls != [] {
      assert Handle(job.tools, calls[0], st).Done?;
      PerformKeeps(job, calls[0], st);
      PerformAllKeeps(job, calls[1..], Perform(job.tools, calls[0], st).value);
    }
  }

  /** How many rounds a run makes, with the one that makes no progress or raises. */
  function Rounds(tools: Tools, deps: Deps, st: State): nat
    decreases |st.pending|
  {
    if st.pending == [] then 0
    else
      var round := Round(tools, deps, st);
      if round.Done? && |round.value.pending| < |st.pending| then 1 + Rounds(tools, deps, round.value) else 1
  }

  /** There are at most as many rounds as pending calls. */
  lemma {:induction false} RoundsBounded(tools: Tools, deps: Deps, st: State)
    ensures Rounds(tools, deps, st) <= |st.pending|
    decreases |st.pending|
  {
    hide Round;
    if st.pending != [] {
      var round := Round(tools, deps, st);
      if round.Done? && |round.value.pending| < |st.pending| {
        RoundsBounded(tools, deps, round.value);
      }
    }
  }
}
