/** What calls wait for, however indirectly, and which of them nothing can hold up. */
module Waits {
  import opened Outcomes
  import opened ToolPlans
  import opened Schedule
  import opened Ledger

  /** A path of dependencies; none of the calls in between is in `cut`. */
  ghost predicate WaitPath(deps: Deps, cut: set<CallId>, path: seq<CallId>) {
    && |path| >= 2
    && (forall i, j :: 0 <= i && j == i + 1 < |path| ==> path[j] in DepsOf(deps, path[i]))
    && (forall i :: 0 < i < |path| - 1 ==> path[i] !in cut)
  }

  ghost predicate Awaits(deps: Deps, cut: set<CallId>, id: CallId, source: CallId) {
    exists path :: WaitPath(deps, cut, path) && path[0] == id && path[|path| - 1] == source
  }

  lemma AwaitsDependency(deps: Deps, cut: set<CallId>, id: CallId, dep: CallId)
    requires dep in DepsOf(deps, id)
    ensures Awaits(deps, cut, id, dep)
  {
    assert WaitPath(deps, cut, [id, dep]);
  }

  lemma AwaitsOn(deps: Deps, cut: set<CallId>, id: CallId, middle: CallId, source: CallId)
    requires middle in DepsOf(deps, id) && middle !in cut && Awaits(deps, cut, middle, source)
    ensures Awaits(deps, cut, id, source)
  {
    var path :| WaitPath(deps, cut, path) && path[0] == middle && path[|path| - 1] == source;
    var longer := [id] + path;
    forall i, j | 0 <= i && j == i + 1 < |longer| ensures longer[j] in DepsOf(deps, longer[i]) {
      assert i > 0 ==> longer[i] == path[i - 1] && longer[j] == path[j - 1];
    }
    assert WaitPath(deps, cut, longer);
  }

  lemma AwaitsFurther(deps: Deps, cut: set<CallId>, id: CallId, middle: CallId, source: CallId)
    requires Awaits(deps, cut, id, middle) && middle !in cut && source in DepsOf(deps, middle)
    ensures Awaits(deps, cut, id, source)
  {
    var path :| WaitPath(deps, cut, path) && path[0] == id && path[|path| - 1] == middle;
    var longer := path + [source];
    forall i, j | 0 <= i && j == i + 1 < |longer| ensures longer[j] in DepsOf(deps, longer[i]) {
      assert j < |path| ==> longer[i] == path[i] && longer[j] == path[j];
    }
    assert WaitPath(deps, cut, longer);
  }

  /** What a ready call waits for is logged or cached. */
  lemma {:induction false} PathCompletes(job: Job, st: State, path: seq<CallId>, k: nat)
    requires Booked(job, st) && Topological(job, st) && WaitPath(job.deps, job.seeds.Keys, path)
    requires DepsOf(job.deps, path[0]) <= st.completed && 0 < k < |path|
    ensures path[k] in st.log || path[k] in job.seeds
  {
    assert path[k] in DepsOf(job.deps, path[k - 1]);
    if k > 1 {
      PathCompletes(job, st, path, k - 1);
      var i :| 0 <= i < |st.log| && st.log[i] == path[k - 1];
      assert DepsOf(job.deps, st.log[i]) <= job.seeds.Keys + set id <- st.log[..i];
    }
  }

  lemma AwaitedCompletes(job: Job, st: State, id: CallId, source: CallId)
    requires Booked(job, st) && Topological(job, st) && Awaits(job.deps, job.seeds.Keys, id, source)
    requires DepsOf(job.deps, id) <= st.completed
    ensures source in st.log || source in job.seeds
  {
    var path :| WaitPath(job.deps, job.seeds.Keys, path) && path[0] == id && path[|path| - 1] == source;
    PathCompletes(job, st, path, |path| - 1);
  }

  ghost predicate SeedsAreFetches(job: Job) {
    forall c :: c in job.calls && c.callId in job.seeds ==> c.stage.Fetch?
  }

  /** A set of plan calls, each waiting for one of the set or for a call that never completes. */
  ghost predicate Stuck(job: Job, calls: set<CallId>) {
    && calls != {}
    && calls <= Ids(job.calls)
    && forall id :: id in calls ==> exists dep ::
         && dep in DepsOf(job.deps, id)
         && dep !in job.seeds
         && (dep in calls || dep !in Ids(job.calls))
  }

  // ----- Fetch calls that only fetch calls can hold up

  /** A fetch call that waits for fetch calls only, so that it is done before any call of a later stage. */
  ghost predicate FetchedFirst(job: Job, cut: set<CallId>, call: ToolCall) {
    && call.stage.Fetch?
    && forall c :: c in job.calls && Awaits(job.deps, cut, call.callId, c.callId) ==> c.stage.Fetch?
  }

  ghost predicate FirstFetched(job: Job, st: State) {
    forall c :: c in job.calls && FetchedFirst(job, job.seeds.Keys, c) ==> c.callId in st.log
  }

  /** Unless a set of calls is stuck, those calls are done once no fetch call is ready. */
  lemma NoneReadyFirstFetched(job: Job, st: State)
    requires Booked(job, st) && SeedsAreFetches(job) && !exists calls :: Stuck(job, calls)
    requires ReadyFetches(job.deps, st.pending, st) == []
    ensures FirstFetched(job, st)
  {
    var waiting := set c <- st.pending | FetchedFirst(job, job.seeds.Keys, c) :: c.callId;
    forall id | id in waiting
      ensures exists dep :: dep in DepsOf(job.deps, id) && dep !in job.seeds
                            && (dep in waiting || dep !in Ids(job.calls))
    {
      var f :| f in st.pending && FetchedFirst(job, job.seeds.Keys, f) && f.callId == id;
      assert f !in ReadyFetches(job.deps, st.pending, st);
      var dep :| dep in DepsOf(job.deps, id) && dep !in st.completed;
      AwaitsDependency(job.deps, job.seeds.Keys, id, dep);
      if dep in Ids(job.calls) {
        var g :| g in job.calls && g.callId == dep;
        FirstOnFirst(job, f, g);
        assert g in st.pending;
      }
    }
    if f :| f in job.calls && FetchedFirst(job, job.seeds.Keys, f) && f.callId !in st.log {
      assert f in st.pending && f.callId in waiting;
      assert Stuck(job, waiting);
    }
  }

  lemma FirstOnFirst(job: Job, f: ToolCall, g: ToolCall)
    requires FetchedFirst(job, job.seeds.Keys, f) && g in job.calls
    requires g.callId in DepsOf(job.deps, f.callId) && g.callId !in job.seeds
    ensures FetchedFirst(job, job.seeds.Keys, g)
  {
    AwaitsDependency(job.deps, job.seeds.Keys, f.callId, g.callId);
    forall c | c in job.calls && Awaits(job.deps, job.seeds.Keys, g.callId, c.callId) ensures c.stage.Fetch? {
      AwaitsOn(job.deps, job.seeds.Keys, f.callId, g.callId, c.callId);
    }
  }
}
