/** The plan response cache: how it seeds a run, what a run leaves in it, what a rerun finds. */
module ResponseCache {
  import opened Outcomes
  import opened ToolPlans
  import opened Schedule
  import opened Ledger
  import opened Waits
  import opened Runs
  import opened Meaning
  import opened PlanTheorems

  // ----- References by call id, the last one winning

  function LastRef(refs: seq<ResponseRef>, id: CallId): (r: Option<ResponseRef>)
    ensures r.Some? ==> r.value in refs && r.value.callId == id
    ensures r.None? ==> forall ref :: ref in refs ==> ref.callId != id
  {
    if refs == [] then None
    else
      var later := LastRef(refs[1..], id);
      if later.Some? then later
      else if refs[0].callId == id then Some(refs[0])
      else None
  }

  predicate DistinctRefs(refs: seq<ResponseRef>) {
    forall i, j :: 0 <= i < j < |refs| ==> refs[i].callId != refs[j].callId
  }

  /** The dictionary update `table[ref.call_id] = ref`, on the dictionary's values in order. */
  function PutRef(table: seq<ResponseRef>, ref: ResponseRef): (r: seq<ResponseRef>)
    ensures forall x :: x in r ==> x == ref || x in table
    ensures DistinctRefs(table) ==> DistinctRefs(r)
  {
    if table == [] then [ref]
    else if table[0].callId == ref.callId then [ref] + table[1..]
    else
      var tail := PutRef(table[1..], ref);
      assert forall x :: x in tail ==> x.callId != table[0].callId || !DistinctRefs(table);
      [table[0]] + tail
  }

  /** `{ref.call_id: ref for ref in refs}.values()`, continuing the dictionary `table`. */
  function ByCall(table: seq<ResponseRef>, refs: seq<ResponseRef>): (r: seq<ResponseRef>)
    ensures DistinctRefs(table) ==> DistinctRefs(r)
    decreases |refs|
  {
    if refs == [] then table else ByCall(PutRef(table, refs[0]), refs[1..])
  }

  lemma {:induction false} PutRefIsLast(table: seq<ResponseRef>, ref: ResponseRef, id: CallId)
    requires DistinctRefs(table)
    ensures LastRef(PutRef(table, ref), id) == if id == ref.callId then Some(ref) else LastRef(table, id)
  {
    if table != [] {
      if table[0].callId == ref.callId {
        assert ([ref] + table[1..])[1..] == table[1..];
        assert forall x :: x in table[1..] ==> x.callId != ref.callId;
      } else {
        PutRefIsLast(table[1..], ref, id);
        var tail := PutRef(table[1..], ref);
        assert ([table[0]] + tail)[1..] == tail;
      }
    } else {
      assert [ref][1..] == [];
    }
  }

  /** Reading references through a dictionary and reading them last-wins come to the same. */
  lemma {:induction false} ByCallKeepsLast(table: seq<ResponseRef>, refs: seq<ResponseRef>, id: CallId)
    requires DistinctRefs(table)
    ensures LastRef(ByCall(table, refs), id) ==
            if LastRef(refs, id).Some? then LastRef(refs, id) else LastRef(table, id)
    decreases |refs|
  {
    if refs != [] {
      ByCallKeepsLast(PutRef(table, refs[0]), refs[1..], id);
      PutRefIsLast(table, refs[0], id);
    }
  }

  lemma {:induction false} AppendedRefIsLast(refs: seq<ResponseRef>, ref: ResponseRef, id: CallId)
    ensures LastRef(refs + [ref], id) == if id == ref.callId then Some(ref) else LastRef(refs, id)
  {
    if refs != [] {
      assert (refs + [ref])[1..] == refs[1..] + [ref];
      AppendedRefIsLast(refs[1..], ref, id);
    } else {
      assert ([] + [ref])[1..] == [];
    }
  }

  // ----- Seeding

  datatype Seeding = Seeding(seeds: map<CallId, RawResponse>, effects: seq<RawResponse>)

  /** The loop that looks every cached reference up in the raw response index. */
  function Seed(seeding: Seeding, refs: seq<ResponseRef>, stored: map<string, RawResponse>): Seeding
    decreases |refs|
  {
    if refs == [] then seeding
    else if refs[0].responseId in stored then
      var raw := stored[refs[0].responseId];
      Seed(Seeding(seeding.seeds[refs[0].callId := raw], seeding.effects + [raw]), refs[1..], stored)
    else
      Seed(seeding, refs[1..], stored)
  }

  function InitialState(calls: seq<ToolCall>, cached: seq<ResponseRef>, stored: map<string, RawResponse>): State {
    var refs := ByCall([], cached);
    var seeding := Seed(Seeding(map[], []), refs, stored);
    State(calls, seeding.seeds.Keys, seeding.seeds, map[], map[], map[],
          seeding.effects, [], [], [], [], refs, stored, multiset{}, [])
  }

  lemma InitialStarts(job: Job, cached: seq<ResponseRef>, stored: map<string, RawResponse>)
    requires DistinctIds(job.calls)
    requires job.seeds == InitialState(job.calls, cached, stored).raw
    ensures Starts(job, InitialState(job.calls, cached, stored))
  {
  }

  lemma {:induction false} SeedFinds(seeding: Seeding, refs: seq<ResponseRef>, stored: map<string, RawResponse>,
                                     id: CallId)
    requires DistinctRefs(refs)
    ensures var ref := LastRef(refs, id);
            var seeds := Seed(seeding, refs, stored).seeds;
            if ref.Some? && ref.value.responseId in stored
            then id in seeds && seeds[id] == stored[ref.value.responseId]
            else (id in seeds <==> id in seeding.seeds) && (id in seeds ==> seeds[id] == seeding.seeds[id])
    decreases |refs|
  {
    if refs != [] {
      assert forall x :: x in refs[1..] ==> x.callId != refs[0].callId;
      if refs[0].responseId in stored {
        var raw := stored[refs[0].responseId];
        SeedFinds(Seeding(seeding.seeds[refs[0].callId := raw], seeding.effects + [raw]), refs[1..], stored, id);
      } else {
        SeedFinds(seeding, refs[1..], stored, id);
      }
    }
  }

  /** A call is seeded exactly when its last cached reference still has its response stored. */
  lemma InitiallySeeded(calls: seq<ToolCall>, cached: seq<ResponseRef>, stored: map<string, RawResponse>, id: CallId)
    ensures var ref := LastRef(cached, id);
            var raw := InitialState(calls, cached, stored).raw;
            && (id in raw <==> ref.Some? && ref.value.responseId in stored)
            && (id in raw ==> raw[id] == stored[ref.value.responseId])
    ensures LastRef(InitialState(calls, cached, stored).responses, id) == LastRef(cached, id)
  {
    ByCallKeepsLast([], cached, id);
    SeedFinds(Seeding(map[], []), ByCall([], cached), stored, id);
  }

  // ----- What a run does to the references and the stored responses

  /** A fetch call that is not cached, and whose client does not raise. */
  predicate Answers(job: Job, c: ToolCall) {
    c.stage.Fetch? && c.callId !in job.seeds && RunClient(job.tools, c).Done?
  }

  /** Clients answer under the id of the call. */
  ghost predicate AnswersCarryIds(job: Job) {
    forall c :: c in job.calls && Answers(job, c) ==> RunClient(job.tools, c).value.callId == c.callId
  }

  ghost predicate New(job: Job, st: State, id: CallId) {
    id in st.raw && id !in job.seeds
  }

  /** A newly fetched response has this response id. */
  ghost predicate Taken(job: Job, st: State, rid: string) {
    exists id :: New(job, st, id) && st.raw[id].responseId == rid
  }

  /** A newly fetched call's last reference is its own; the others read as before. */
  ghost predicate RefsFiled(job: Job, refs: seq<ResponseRef>, st: State) {
    forall id :: LastRef(st.responses, id) == if New(job, st, id) then Some(RefTo(st.raw[id])) else LastRef(refs, id)
  }

  /** Newly fetched responses name their calls and have their response ids stored; calls that answer are fetched. */
  ghost predicate AnswersFiled(job: Job, st: State) {
    && (forall id :: New(job, st, id) ==> st.raw[id].callId == id && st.raw[id].responseId in st.stored)
    && (forall c :: c in job.calls && c.callId in st.log && Answers(job, c) ==> c.callId in st.raw)
  }

  ghost predicate TakenBy(job: Job, st: State, id: CallId, rid: string, raw: RawResponse) {
    New(job, st, id) && st.raw[id] == raw && raw.responseId == rid
  }

  /** Under a response id that was taken, one that took it is stored; under any other, what was there before. */
  ghost predicate StoredAs(job: Job, stored: map<string, RawResponse>, st: State, rid: string)
    requires rid in st.stored
  {
    if Taken(job, st, rid) then exists id :: TakenBy(job, st, id, rid, st.stored[rid])
    else rid in stored && st.stored[rid] == stored[rid]
  }

  ghost predicate StoredFrom(job: Job, stored: map<string, RawResponse>, st: State) {
    stored.Keys <= st.stored.Keys && forall rid :: rid in st.stored ==> StoredAs(job, stored, st, rid)
  }

  ghost predicate Filed(job: Job, refs: seq<ResponseRef>, stored: map<string, RawResponse>, st: State) {
    RefsFiled(job, refs, st) && AnswersFiled(job, st) && StoredFrom(job, stored, st)
  }

  ghost predicate FilesFetch(call: ToolCall, verdict: Verdict, st: State, next: State) {
    if verdict.Fetched? then
      && next.raw == st.raw[call.callId := verdict.raw]
      && next.responses == st.responses + [RefTo(verdict.raw)]
      && next.stored == st.stored[verdict.raw.responseId := verdict.raw]
      && next.requested == st.requested + multiset{call.callId}
    else
      && next.raw == st.raw && next.responses == st.responses
      && next.stored == st.stored && next.requested == st.requested
  }

  lemma RecordFiles(call: ToolCall, verdict: Verdict, st: State)
    requires Record(call, verdict, st).Done?
    ensures FilesFetch(call, verdict, st, Retire(call.callId, Record(call, verdict, st).value))
  {
  }

  lemma FetchKeepsRefs(job: Job, refs: seq<ResponseRef>, call: ToolCall, raw: RawResponse, st: State, next: State)
    requires RefsFiled(job, refs, st)
    requires call.callId !in job.seeds && raw.callId == call.callId
    requires FilesFetch(call, Fetched(raw), st, next)
    ensures RefsFiled(job, refs, next)
  {
    hide LastRef;
    forall id ensures LastRef(next.responses, id) ==
      if New(job, next, id) then Some(RefTo(next.raw[id])) else LastRef(refs, id)
    {
      AppendedRefIsLast(st.responses, RefTo(raw), id);
    }
  }

  lemma FetchKeepsAnswers(job: Job, call: ToolCall, raw: RawResponse, st: State, next: State)
    requires AnswersFiled(job, st) && raw.callId == call.callId && Advances(call, st, next)
    requires DistinctIds(job.calls) && call in job.calls
    requires FilesFetch(call, Fetched(raw), st, next)
    ensures AnswersFiled(job, next)
  {
    hide RunClient;
    forall id | New(job, next, id)
      ensures next.raw[id].callId == id && next.raw[id].responseId in next.stored
    {
      assert id == call.callId || New(job, st, id);
    }
  }

  lemma FetchKeepsStored(
    job: Job, stored: map<string, RawResponse>, call: ToolCall, raw: RawResponse, st: State, next: State)
    requires StoredFrom(job, stored, st)
    requires call.callId !in job.seeds && call.callId !in st.raw
    requires FilesFetch(call, Fetched(raw), st, next)
    ensures StoredFrom(job, stored, next)
  {
    hide Taken;
    forall rid | rid in next.stored ensures StoredAs(job, stored, next, rid) {
      if rid == raw.responseId {
        StoresTaken(job, stored, call.callId, next);
      } else {
        TakenBefore(job, call, raw, st, next, rid);
        assert StoredAs(job, stored, st, rid);
      }
    }
  }

  lemma StoresTaken(job: Job, stored: map<string, RawResponse>, id: CallId, next: State)
    requires New(job, next, id)
    requires var rid := next.raw[id].responseId; rid in next.stored && next.stored[rid] == next.raw[id]
    ensures StoredAs(job, stored, next, next.raw[id].responseId)
  {
    assert TakenBy(job, next, id, next.raw[id].responseId, next.raw[id]);
  }

  lemma TakenBefore(job: Job, call: ToolCall, raw: RawResponse, st: State, next: State, rid: string)
    requires call.callId !in job.seeds && call.callId !in st.raw && rid != raw.responseId
    requires FilesFetch(call, Fetched(raw), st, next)
    ensures Taken(job, next, rid) <==> Taken(job, st, rid)
    ensures forall id, value :: TakenBy(job, st, id, rid, value) ==> TakenBy(job, next, id, rid, value)
  {
    if id :| New(job, st, id) && st.raw[id].responseId == rid {
      assert New(job, next, id);
    }
    if id :| New(job, next, id) && next.raw[id].responseId == rid {
      assert New(job, st, id);
    }
  }

  lemma {:induction false} PerformAllFiles(
    job: Job, refs: seq<ResponseRef>, stored: map<string, RawResponse>, calls: seq<ToolCall>, st: State)
    requires AnswersCarryIds(job) && Filed(job, refs, stored, st) && Kept(job, st)
    requires Permitted(job, calls, st) && PerformAll(job.tools, calls, st).Done?
    ensures Filed(job, refs, stored, PerformAll(job.tools, calls, st).value)
  {
    hide Filed, AnswersCarryIds, Kept, Judge;
    if calls != [] {
      var call := calls[0];
      var next := Perform(job.tools, call, st).value;
      PerformFiles(job, refs, stored, call, st);
      PerformKeeps(job, call, st);
      PerformAllFiles(job, refs, stored, calls[1..], next);
    }
  }

  lemma PerformFiles(job: Job, refs: seq<ResponseRef>, stored: map<string, RawResponse>, call: ToolCall, st: State)
    requires AnswersCarryIds(job) && Filed(job, refs, stored, st) && Kept(job, st)
    requires call in st.pending && Perform(job.tools, call, st).Done?
    ensures Filed(job, refs, stored, Perform(job.tools, call, st).value)
  {
    hide Judge, RefsFiled, AnswersFiled, StoredFrom, Settled, Topological, Metered, Booked, RunClient;
    var verdict, next := Judge(job.tools, call, st), Perform(job.tools, call, st).value;
    RecordFiles(call, verdict, st);
    PerformRecords(job, call, st);
    BookedPending(job, call, st);
    KeptBooks(job, st);
    if verdict.Fetched? {
      JudgeSources(job, call, st);
      assert Answers(job, call) && verdict.raw.callId == call.callId;
      FetchKeepsRefs(job, refs, call, verdict.raw, st, next);
      FetchKeepsAnswers(job, call, verdict.raw, st, next);
      FetchKeepsStored(job, stored, call, verdict.raw, st, next);
    } else {
      NotFetched(job, call, st);
      OthersKeepFiled(job, refs, stored, call, st, next);
    }
  }

  lemma KeptBooks(job: Job, st: State)
    requires Kept(job, st)
    ensures DistinctIds(job.calls)
  {
  }

  lemma NotFetched(job: Job, call: ToolCall, st: State)
    requires !Judge(job.tools, call, st).Fetched? && !Judge(job.tools, call, st).Fail?
    ensures Answers(job, call) ==> call.callId in st.raw
  {
  }

  lemma OthersKeepFiled(job: Job, refs: seq<ResponseRef>, stored: map<string, RawResponse>, call: ToolCall, st: State,
                        next: State)
    requires Filed(job, refs, stored, st) && Advances(call, st, next) && call in job.calls && DistinctIds(job.calls)
    requires Answers(job, call) ==> call.callId in st.raw
    requires next.raw == st.raw && next.responses == st.responses && next.stored == st.stored
    ensures Filed(job, refs, stored, next)
  {
    hide Answers, LastRef, AnswersFiled, StoredFrom;
    assert forall id :: New(job, st, id) <==> New(job, next, id);
    OthersKeepAnswers(job, call, st, next);
    OthersKeepStored(job, stored, st, next);
  }

  lemma OthersKeepAnswers(job: Job, call: ToolCall, st: State, next: State)
    requires AnswersFiled(job, st) && Advances(call, st, next) && call in job.calls && DistinctIds(job.calls)
    requires Answers(job, call) ==> call.callId in st.raw
    requires next.raw == st.raw && next.stored == st.stored
    ensures AnswersFiled(job, next)
  {
    hide Answers, Without;
    OneCallPerId(job, call);
    forall c | c in job.calls && c.callId in next.log && Answers(job, c) ensures c.callId in next.raw {
      assert c.callId in st.log || c.callId == call.callId;
    }
  }

  lemma OthersKeepStored(job: Job, stored: map<string, RawResponse>, st: State, next: State)
    requires StoredFrom(job, stored, st) && next.raw == st.raw && next.stored == st.stored
    ensures StoredFrom(job, stored, next)
  {
    assert forall id :: New(job, st, id) <==> New(job, next, id);
    forall rid | rid in next.stored ensures StoredAs(job, stored, next, rid) {
      assert StoredAs(job, stored, st, rid);
      assert Taken(job, st, rid) <==> Taken(job, next, rid);
      assert forall id, raw :: TakenBy(job, st, id, rid, raw) <==> TakenBy(job, next, id, rid, raw);
    }
  }

  /** The job a plan becomes, given the cached references and stored responses. */
  function JobOf(tools: Tools, calls: seq<ToolCall>, deps: Deps, cached: seq<ResponseRef>,
                 stored: map<string, RawResponse>): Job {
    Job(tools, calls, deps, InitialState(calls, cached, stored).raw)
  }

  /** After a finished run, the new responses are the answers of the calls that are not cached. */
  ghost predicate AnswersAreNew(job: Job, final: State) {
    && (forall c :: c in job.calls && Answers(job, c) ==>
          New(job, final, c.callId) && RunClient(job.tools, c) == Done(final.raw[c.callId]))
    && (forall id :: New(job, final, id) ==> exists c :: c in job.calls && c.callId == id && Answers(job, c))
  }

  lemma FinishedRunFiled(tools: Tools, calls: seq<ToolCall>, deps: Deps, cached: seq<ResponseRef>,
                         stored: map<string, RawResponse>)
    requires DistinctIds(calls) && AnswersCarryIds(JobOf(tools, calls, deps, cached, stored))
    requires Run(tools, deps, InitialState(calls, cached, stored)).Done?
    ensures var job := JobOf(tools, calls, deps, cached, stored);
            var final := Run(tools, deps, InitialState(calls, cached, stored)).value;
            && Filed(job, InitialState(calls, cached, stored).responses, stored, final)
            && Kept(job, final) && AnswersAreNew(job, final)
  {
    hide AnswersCarryIds, Run, PerformAll, Kept, LastRef, ByCall, Seed, AnswersAreNew;
    var job := JobOf(tools, calls, deps, cached, stored);
    var st := InitialState(calls, cached, stored);
    InitialStarts(job, cached, stored);
    StartKeeps(job, st);
    var done := RunSchedule(job, st);
    PerformAllFiles(job, st.responses, stored, done, st);
    PerformAllKeeps(job, done, st);
    FinishedAnswers(job, Run(tools, deps, st).value);
  }

  lemma FinishedAnswers(job: Job, final: State)
    requires Kept(job, final) && AnswersFiled(job, final) && final.pending == []
    ensures AnswersAreNew(job, final)
  {
    hide RunClient, Settled, Topological, Metered, ExtractionTraced, DerivationTraced, ClaimTraced;
    LoggedIsPlanned(job, final);
    forall c | c in job.calls && Answers(job, c)
      ensures New(job, final, c.callId) && RunClient(job.tools, c) == Done(final.raw[c.callId])
    {
      FindsItsCall(job.calls, c);
    }
    forall id | New(job, final, id) ensures exists c :: c in job.calls && c.callId == id && Answers(job, c) {
      assert FindCall(job.calls, id).value in job.calls;
    }
  }

  /** Reading the run's references last-wins leads from every raw response to a stored copy of it. */
  ghost predicate Coherent(st: State) {
    forall id :: id in st.raw ==>
      var ref := LastRef(st.responses, id);
      && ref.Some?
      && ref.value.responseId in st.stored
      && st.stored[ref.value.responseId] == st.raw[id]
  }

  /**
   No two new answers have the same response id, and none has that of a cached response that some last reference
   leads to, unless it is that very response (as when its id is a hash of its content).
   */
  ghost predicate KeptApart(job: Job, refs: seq<ResponseRef>, stored: map<string, RawResponse>) {
    && (forall c, d | c in job.calls && d in job.calls && Answers(job, c) && Answers(job, d) ::
          c.callId != d.callId ==> RunClient(job.tools, c).value.responseId != RunClient(job.tools, d).value.responseId)
    && (forall c, id | c in job.calls && Answers(job, c) && id in job.seeds ::
          var raw, ref := RunClient(job.tools, c).value, LastRef(refs, id);
          ref.Some? && ref.value.responseId == raw.responseId ==>
            raw.responseId in stored && stored[raw.responseId] == raw)
  }

  /** The cached calls are those whose last reference has its response stored. */
  ghost predicate SeedsFromRefs(job: Job, refs: seq<ResponseRef>, stored: map<string, RawResponse>) {
    && (forall id :: id in job.seeds <==> LastRef(refs, id).Some? && LastRef(refs, id).value.responseId in stored)
    && (forall id :: id in job.seeds ==> job.seeds[id] == stored[LastRef(refs, id).value.responseId])
  }

  lemma InitialSeeds(tools: Tools, calls: seq<ToolCall>, deps: Deps, cached: seq<ResponseRef>,
                     stored: map<string, RawResponse>)
    ensures var refs := InitialState(calls, cached, stored).responses;
      SeedsFromRefs(JobOf(tools, calls, deps, cached, stored), refs, stored)
  {
    hide LastRef, InitialState;
    forall id
      ensures var ref := LastRef(InitialState(calls, cached, stored).responses, id);
        var raw := InitialState(calls, cached, stored).raw;
        && (id in raw <==> ref.Some? && ref.value.responseId in stored)
        && (id in raw ==> raw[id] == stored[ref.value.responseId])
    {
      InitiallySeeded(calls, cached, stored, id);
    }
  }

  lemma ApartIsCoherent(job: Job, refs: seq<ResponseRef>, stored: map<string, RawResponse>, final: State)
    requires Filed(job, refs, stored, final) && AnswersAreNew(job, final) && SeedsFromRefs(job, refs, stored)
    requires RawTraced(job, final) && KeptApart(job, refs, stored)
    ensures Coherent(final)
  {
    hide RunClient, LastRef;
    forall id | id in final.raw
      ensures var ref := LastRef(final.responses, id);
              ref.Some? && ref.value.responseId in final.stored && final.stored[ref.value.responseId] == final.raw[id]
    {
      var ref := LastRef(final.responses, id);
      var rid := ref.value.responseId;
      assert StoredAs(job, stored, final, rid);
      if New(job, final, id) {
        assert Taken(job, final, rid);
      }
    }
  }

  /** What coherence says of the answers. */
  lemma CoherentAnswers(job: Job, refs: seq<ResponseRef>, final: State)
    requires RefsFiled(job, refs, final) && AnswersFiled(job, final) && AnswersAreNew(job, final)
    requires RawTraced(job, final) && Coherent(final)
    ensures forall c :: c in job.calls && Answers(job, c) ==>
      var raw := RunClient(job.tools, c).value;
      raw.callId == c.callId && raw.responseId in final.stored && final.stored[raw.responseId] == raw
    ensures forall id :: id in job.seeds && LastRef(refs, id).Some? ==>
      var rid := LastRef(refs, id).value.responseId;
      rid in final.stored && final.stored[rid] == job.seeds[id]
  {
    hide RunClient, LastRef;
    forall c | c in job.calls && Answers(job, c)
      ensures var raw := RunClient(job.tools, c).value;
        raw.callId == c.callId && raw.responseId in final.stored && final.stored[raw.responseId] == raw
    {
      assert New(job, final, c.callId);
    }
  }

  lemma CoherentIsApart(job: Job, refs: seq<ResponseRef>, stored: map<string, RawResponse>, final: State)
    requires Filed(job, refs, stored, final) && AnswersAreNew(job, final) && SeedsFromRefs(job, refs, stored)
    requires RawTraced(job, final) && Coherent(final)
    ensures KeptApart(job, refs, stored)
  {
    hide RunClient, LastRef, Coherent, StoredFrom, RefsFiled, AnswersFiled, AnswersAreNew, RawTraced;
    CoherentAnswers(job, refs, final);
  }

  /**
   Cache coherence: after a finished run the references it would cache lead back to the raw responses it used
   exactly if its new answers are kept apart.
   */
  lemma RunLeavesCoherentCache(tools: Tools, calls: seq<ToolCall>, deps: Deps, cached: seq<ResponseRef>,
                               stored: map<string, RawResponse>)
    requires DistinctIds(calls) && AnswersCarryIds(JobOf(tools, calls, deps, cached, stored))
    requires Run(tools, deps, InitialState(calls, cached, stored)).Done?
    ensures Coherent(Run(tools, deps, InitialState(calls, cached, stored)).value) <==>
            KeptApart(JobOf(tools, calls, deps, cached, stored), InitialState(calls, cached, stored).responses, stored)
  {
    hide Run, KeptApart, Coherent, InitialState, Filed, AnswersAreNew, SeedsFromRefs, AnswersCarryIds, RawTraced;
    FinishedRunFiled(tools, calls, deps, cached, stored);
    InitialSeeds(tools, calls, deps, cached, stored);
    var job, refs := JobOf(tools, calls, deps, cached, stored), InitialState(calls, cached, stored).responses;
    var final := Run(tools, deps, InitialState(calls, cached, stored)).value;
    KeptTraced(job, final);
    if KeptApart(job, refs, stored) {
      ApartIsCoherent(job, refs, stored, final);
    } else if Coherent(final) {
      CoherentIsApart(job, refs, stored, final);
    }
  }

  lemma KeptTraced(job: Job, st: State)
    requires Kept(job, st)
    ensures RawTraced(job, st) && Metered(job, st)
  {
  }

  /** Fetch calls that are not cached have no client to run. */
  predicate NothingToFetch(job: Job) {
    forall c :: c in job.calls && c.stage.Fetch? ==> c.callId in job.seeds || c.tool !in job.tools.clients
  }

  /** A run that made no request kept the cached responses, and what was stored. */
  lemma NothingNew(job: Job, refs: seq<ResponseRef>, stored: map<string, RawResponse>, final: State)
    requires Filed(job, refs, stored, final) && RawTraced(job, final) && Metered(job, final)
    requires final.requested == multiset{}
    ensures final.raw == job.seeds && final.stored == stored
    ensures forall id :: LastRef(final.responses, id) == LastRef(refs, id)
  {
    hide LastRef, RunClient;
    forall id ensures !New(job, final, id) {
      assert final.requested[id] == 0;
    }
    assert forall rid :: !Taken(job, final, rid);
    assert forall rid :: rid in final.stored <==> rid in stored;
  }

  /**
   A full hit: when every fetch call of the plan is cached, or has no client, no client is called, nothing
   is stored, and the references a finished run would upsert read the same last-wins as the cached ones.
   */
  lemma FullHitIsQuiet(tools: Tools, calls: seq<ToolCall>, deps: Deps, cached: seq<ResponseRef>,
                       stored: map<string, RawResponse>)
    requires DistinctIds(calls)
    requires Run(tools, deps, InitialState(calls, cached, stored)).Done?
    requires NothingToFetch(JobOf(tools, calls, deps, cached, stored))
    ensures var final := Run(tools, deps, InitialState(calls, cached, stored)).value;
            && final.requested == multiset{}
            && final.stored == stored
            && final.raw == InitialState(calls, cached, stored).raw
            && forall id :: LastRef(final.responses, id) == LastRef(cached, id)
  {
    hide Run, LastRef, InitialState, Filed, Kept, RawTraced, Metered, AnswersAreNew;
    var job := JobOf(tools, calls, deps, cached, stored);
    var final := Run(tools, deps, InitialState(calls, cached, stored)).value;
    FinishedRunFiled(tools, calls, deps, cached, stored);
    KeptTraced(job, final);
    NothingRequested(job, final);
    NothingNew(job, InitialState(calls, cached, stored).responses, stored, final);
    forall id ensures LastRef(final.responses, id) == LastRef(cached, id) {
      InitiallySeeded(calls, cached, stored, id);
    }
  }

  lemma NothingRequested(job: Job, final: State)
    requires NothingToFetch(job) && AnswersAreNew(job, final) && Metered(job, final)
    ensures final.requested == multiset{}
  {
    forall id ensures final.requested[id] == 0 {
      assert !New(job, final, id);
    }
  }
}
