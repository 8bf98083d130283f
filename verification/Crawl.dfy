/** Crawling a dictionary along the previous/next links of its pages. */
module Crawl {
  import opened Outcomes
  import opened EntryIndex

  datatype Action = Prev | Next

  datatype Edge = Edge(action: Action, offset: int)

  /** A fetched page: its status, and the entry read from its text if there is one. */
  datatype Page = Page(status: int, entry: Option<Entry>)

  const HTTP_BAD_REQUEST := 400

  function Usable(page: Page): Option<Entry> {
    if page.status >= HTTP_BAD_REQUEST then None else page.entry
  }

  /** How far a crawl has come; `log` lists the entries in the order of insertion. */
  datatype Progress = Progress(queue: seq<Edge>, seen: set<int>, requested: set<Edge>, log: seq<Entry>)

  /** `_enqueue_edge` */
  function Enqueued(p: Progress, edge: Edge): Progress {
    if edge in p.requested then p
    else p.(queue := p.queue + [edge], requested := p.requested + {edge})
  }

  function Begin(seed: Entry): Progress {
    var first := Progress([], {seed.offset}, {}, [seed]);
    Enqueued(Enqueued(first, Edge(Prev, seed.offset)), Edge(Next, seed.offset))
  }

  function Step(p: Progress, fetch: Edge -> Page): Progress
    requires p.queue != []
  {
    var edge := p.queue[0];
    var popped := p.(queue := p.queue[1..]);
    var answer := Usable(fetch(edge));
    if answer.None? || answer.value.offset in p.seen then popped
    else
      var entry := answer.value;
      Enqueued(popped.(seen := p.seen + {entry.offset}, log := p.log + [entry]), Edge(edge.action, entry.offset))
  }

  predicate Halted(p: Progress, limit: Option<int>) {
    p.queue == [] || LimitReached(|p.log|, limit)
  }

  /** Only finitely many entries can be inserted: there is a limit, or the pages hold finitely many offsets. */
  ghost predicate Finite(fetch: Edge -> Page, limit: Option<int>, universe: set<int>) {
    (limit.Some? && limit.value > 0)
    || forall e :: Usable(fetch(e)).Some? ==> Usable(fetch(e)).value.offset in universe
  }

  ghost function Remaining(p: Progress, limit: Option<int>, universe: set<int>): int {
    if limit.Some? && limit.value > 0 then limit.value - |p.log| else |universe - p.seen|
  }

  lemma StepProgresses(p: Progress, fetch: Edge -> Page, limit: Option<int>, universe: set<int>)
    requires Finite(fetch, limit, universe) && !Halted(p, limit)
    ensures 0 <= Remaining(p, limit, universe)
    ensures Remaining(Step(p, fetch), limit, universe) < Remaining(p, limit, universe)
         || (Remaining(Step(p, fetch), limit, universe) == Remaining(p, limit, universe)
             && |Step(p, fetch).queue| < |p.queue|)
  {
    var answer := Usable(fetch(p.queue[0]));
    if answer.Some? && answer.value.offset !in p.seen {
      if !(limit.Some? && limit.value > 0) {
        var offset := answer.value.offset;
        assert universe - (p.seen + {offset}) == (universe - p.seen) - {offset};
        assert offset in universe - p.seen;
      }
    }
  }

  /** The crawl from a state on. */
  function CrawlFrom(p: Progress, fetch: Edge -> Page, limit: Option<int>, ghost universe: set<int>): Progress
    requires Finite(fetch, limit, universe)
    decreases Remaining(p, limit, universe), |p.queue|
  {
    if Halted(p, limit) then p
    else
      StepProgresses(p, fetch, limit, universe);
      CrawlFrom(Step(p, fetch), fetch, limit, universe)
  }

  // ----- Safety, whatever the pages say

  predicate LoggedOnce(p: Progress) {
    && DistinctOffsets(p.log)
    && (forall i :: 0 <= i < |p.log| ==> p.log[i].offset in p.seen)
    && (forall o :: o in p.seen ==> exists i :: 0 <= i < |p.log| && p.log[i].offset == o)
    && |p.seen| == |p.log|
  }

  /** What waits has been asked for, and nothing waits twice. */
  predicate QueuedOnce(queue: seq<Edge>, requested: set<Edge>) {
    && (forall e :: e in queue ==> e in requested)
    && (forall i, j :: 0 <= i < j < |queue| ==> queue[i] != queue[j])
  }

  /** Every edge asked for leaves an entry inserted before; what waits has been asked for, once. */
  predicate EdgesOnce(p: Progress) {
    (forall e :: e in p.requested ==> e.offset in p.seen) && QueuedOnce(p.queue, p.requested)
  }

  /** Entry `i` is found from the seed by links of one kind, each leaving an entry inserted earlier. */
  predicate Chained(log: seq<Entry>, fetch: Edge -> Page, action: Action, i: nat)
    requires i < |log|
    decreases i
  {
    i == 0 || exists j ::
      0 <= j < i && Usable(fetch(Edge(action, log[j].offset))) == Some(log[i]) && Chained(log, fetch, action, j)
  }

  /** The edge leaves an entry that is found by links of its own kind. */
  predicate Leaves(e: Edge, log: seq<Entry>, fetch: Edge -> Page) {
    exists i :: 0 <= i < |log| && log[i].offset == e.offset && Chained(log, fetch, e.action, i)
  }

  /** Entry `i` is asked on the way it was found. */
  predicate Onward(p: Progress, fetch: Edge -> Page, i: nat)
    requires i < |p.log|
  {
    exists action :: Edge(action, p.log[i].offset) in p.requested && Chained(p.log, fetch, action, i)
  }

  predicate AllReached(p: Progress, fetch: Edge -> Page) {
    && (forall e :: e in p.requested ==> Leaves(e, p.log, fetch))
    && (forall i :: 0 <= i < |p.log| ==> Onward(p, fetch, i))
    && (p.log != [] ==> Edge(Prev, p.log[0].offset) in p.requested && Edge(Next, p.log[0].offset) in p.requested)
  }

  /** The answer to an edge is unusable, or its offset has been inserted. */
  predicate Answered(e: Edge, p: Progress, fetch: Edge -> Page) {
    Usable(fetch(e)).None? || Usable(fetch(e)).value.offset in p.seen
  }

  predicate Followed(p: Progress, fetch: Edge -> Page) {
    forall e :: e in p.requested && e !in p.queue ==> Answered(e, p, fetch)
  }

  ghost predicate Safe(p: Progress, fetch: Edge -> Page) {
    LoggedOnce(p) && EdgesOnce(p) && AllReached(p, fetch) && Followed(p, fetch)
  }

  lemma BeginIsSafe(seed: Entry, fetch: Edge -> Page)
    ensures Safe(Begin(seed), fetch)
  {
    var p := Begin(seed);
    assert p.queue == [Edge(Prev, seed.offset), Edge(Next, seed.offset)];
    assert p.log[0] == seed && Chained(p.log, fetch, Prev, 0) && Chained(p.log, fetch, Next, 0);
  }

  /** A step either drops an answered edge, or inserts a new entry and asks on from it. */
  lemma StepCases(p: Progress, fetch: Edge -> Page)
    requires p.queue != [] && EdgesOnce(p)
    ensures var edge := p.queue[0]; var answer := Usable(fetch(edge)); var next := Step(p, fetch);
      if answer.None? || answer.value.offset in p.seen then next == p.(queue := p.queue[1..])
      else
        var onward := Edge(edge.action, answer.value.offset);
        onward !in p.requested
        && next == Progress(p.queue[1..] + [onward], p.seen + {answer.value.offset}, p.requested + {onward},
                            p.log + [answer.value])
  {
  }

  lemma StepLogsOnce(p: Progress, fetch: Edge -> Page)
    requires p.queue != [] && EdgesOnce(p) && LoggedOnce(p)
    ensures LoggedOnce(Step(p, fetch))
  {
    hide Step, EdgesOnce;
    StepCases(p, fetch);
    var next := Step(p, fetch);
    if next.log != p.log {
      var last := |p.log|;
      assert forall i :: 0 <= i < last ==> next.log[i] == p.log[i];
      forall o | o in next.seen
        ensures exists i :: 0 <= i < |next.log| && next.log[i].offset == o
      {
        if o !in p.seen {
          assert next.log[last].offset == o;
        } else {
          var i :| 0 <= i < |p.log| && p.log[i].offset == o;
          assert next.log[i].offset == o;
        }
      }
    }
  }

  lemma StepEdgesOnce(p: Progress, fetch: Edge -> Page)
    requires p.queue != [] && EdgesOnce(p)
    ensures EdgesOnce(Step(p, fetch))
  {
    hide Step;
    StepCases(p, fetch);
    var next := Step(p, fetch);
    var n := |p.queue| - 1;
    assert forall i :: 0 <= i < n ==> next.queue[i] == p.queue[i + 1] && next.queue[i] in p.requested;
  }

  lemma {:induction false} ChainedLater(log: seq<Entry>, entry: Entry, fetch: Edge -> Page, action: Action, i: nat)
    requires i < |log| && Chained(log, fetch, action, i)
    ensures Chained(log + [entry], fetch, action, i)
  {
    if i > 0 {
      var j :|
        0 <= j < i && Usable(fetch(Edge(action, log[j].offset))) == Some(log[i]) && Chained(log, fetch, action, j);
      ChainedLater(log, entry, fetch, action, j);
      assert (log + [entry])[j] == log[j];
    }
  }

  lemma LeavesLater(e: Edge, log: seq<Entry>, entry: Entry, fetch: Edge -> Page)
    requires Leaves(e, log, fetch)
    ensures Leaves(e, log + [entry], fetch)
  {
    hide Chained;
    var i :| 0 <= i < |log| && log[i].offset == e.offset && Chained(log, fetch, e.action, i);
    ChainedLater(log, entry, fetch, e.action, i);
    assert (log + [entry])[i] == log[i];
  }

  /** The answer to an edge is chained as the entry that the edge leaves. */
  lemma AnswerChained(e: Edge, log: seq<Entry>, entry: Entry, fetch: Edge -> Page)
    requires Leaves(e, log, fetch) && Usable(fetch(e)) == Some(entry)
    ensures Chained(log + [entry], fetch, e.action, |log|)
  {
    var more := log + [entry];
    var i :| 0 <= i < |log| && log[i].offset == e.offset && Chained(log, fetch, e.action, i);
    ChainedLater(log, entry, fetch, e.action, i);
    assert more[i] == log[i] && e == Edge(e.action, more[i].offset);
  }

  lemma StepAllReached(p: Progress, fetch: Edge -> Page)
    requires p.queue != [] && EdgesOnce(p) && AllReached(p, fetch)
    ensures AllReached(Step(p, fetch), fetch)
  {
    hide Step, Chained, Leaves, Usable;
    StepCases(p, fetch);
    var next := Step(p, fetch);
    var edge := p.queue[0];
    assert edge in p.requested;
    if next.log == p.log {
      forall i | 0 <= i < |next.log| ensures Onward(next, fetch, i) {
        assert Onward(p, fetch, i);
      }
    } else {
      var entry := Usable(fetch(edge)).value;
      LeavesSome(edge, p.log, fetch);
      AnswerChained(edge, p.log, entry, fetch);
      assert Leaves(Edge(edge.action, entry.offset), next.log, fetch) by {
        LastLeaves(edge.action, p.log, entry, fetch);
      }
      forall e | e in p.requested ensures Leaves(e, next.log, fetch) {
        LeavesLater(e, p.log, entry, fetch);
      }
      forall i | 0 <= i < |next.log| ensures Onward(next, fetch, i) {
        if i < |p.log| {
          assert Onward(p, fetch, i);
          var action :| Edge(action, p.log[i].offset) in p.requested && Chained(p.log, fetch, action, i);
          ChainedLater(p.log, entry, fetch, action, i);
          assert Edge(action, next.log[i].offset) in next.requested;
        } else {
          assert Edge(edge.action, next.log[i].offset) in next.requested;
        }
      }
    }
  }

  lemma LeavesSome(e: Edge, log: seq<Entry>, fetch: Edge -> Page)
    requires Leaves(e, log, fetch)
    ensures log != []
  {
  }

  lemma LastLeaves(action: Action, log: seq<Entry>, entry: Entry, fetch: Edge -> Page)
    requires Chained(log + [entry], fetch, action, |log|)
    ensures Leaves(Edge(action, entry.offset), log + [entry], fetch)
  {
    hide Chained;
    assert (log + [entry])[|log|] == entry;
  }

  lemma StepFollowed(p: Progress, fetch: Edge -> Page)
    requires p.queue != [] && EdgesOnce(p) && Followed(p, fetch)
    ensures Followed(Step(p, fetch), fetch)
  {
    hide Step;
    StepCases(p, fetch);
    var next := Step(p, fetch);
    var rest := p.queue[1..];
    assert p.queue == [p.queue[0]] + rest;
    assert forall e :: e in rest ==> e in next.queue;
    forall e | e in next.requested && e !in next.queue
      ensures Answered(e, next, fetch)
    {
      if e != p.queue[0] {
        assert next.requested - p.requested != {} ==> next.queue[|next.queue| - 1] in next.requested - p.requested;
        assert e in p.requested;
        assert Answered(e, p, fetch);
      }
    }
  }

  lemma {:induction false} CrawlKeepsSafe(p: Progress, fetch: Edge -> Page, limit: Option<int>, universe: set<int>)
    requires Finite(fetch, limit, universe) && Safe(p, fetch)
    requires limit.Some? && limit.value > 0 ==> |p.log| <= limit.value
    ensures var end := CrawlFrom(p, fetch, limit, universe);
      Safe(end, fetch) && Halted(end, limit) && p.log <= end.log
      && (limit.Some? && limit.value > 0 ==> |end.log| <= limit.value)
    decreases Remaining(p, limit, universe), |p.queue|
  {
    if !Halted(p, limit) {
      var next := Step(p, fetch);
      assert Safe(next, fetch) && p.log <= next.log && |next.log| <= |p.log| + 1 by {
        StepCases(p, fetch);
        hide Step, AllReached, Followed, LoggedOnce, EdgesOnce;
        StepLogsOnce(p, fetch);
        StepEdgesOnce(p, fetch);
        StepAllReached(p, fetch);
        StepFollowed(p, fetch);
      }
      hide Step, Safe, Finite;
      StepProgresses(p, fetch, limit, universe);
      CrawlKeepsSafe(next, fetch, limit, universe);
    }
  }

  /**
   * Whatever the pages say: no offset is inserted twice, the count is the number of offsets seen and
   * within the limit, every entry is found from the seed by previous links only or by next links only, each
   * leaving an entry inserted earlier, and a crawl that did not stop at its limit has followed every edge.
   */
  lemma CrawlIsSafe(seed: Entry, fetch: Edge -> Page, limit: Option<int>, universe: set<int>)
    requires Finite(fetch, limit, universe)
    ensures var end := CrawlFrom(Begin(seed), fetch, limit, universe);
      && |end.log| >= 1 && end.log[0] == seed
      && DistinctOffsets(end.log) && |end.seen| == |end.log|
      && (limit.Some? && limit.value > 0 ==> |end.log| <= limit.value)
      && AllReached(end, fetch)
      && (!LimitReached(|end.log|, limit) ==> forall e :: e in end.requested ==> Answered(e, end, fetch))
  {
    hide CrawlFrom, AllReached;
    BeginIsSafe(seed, fetch);
    CrawlKeepsSafe(Begin(seed), fetch, limit, universe);
    assert Begin(seed).log == [seed];
  }

  function Singletons(entries: seq<Entry>): seq<seq<Entry>> {
    seq(|entries|, i requires 0 <= i < |entries| => [entries[i]])
  }

  lemma CrawlUnrolls(p: Progress, fetch: Edge -> Page, limit: Option<int>, universe: set<int>)
    requires Finite(fetch, limit, universe) && !Halted(p, limit)
    ensures CrawlFrom(p, fetch, limit, universe) == CrawlFrom(Step(p, fetch), fetch, limit, universe)
    ensures 0 <= Remaining(p, limit, universe)
    ensures Remaining(Step(p, fetch), limit, universe) < Remaining(p, limit, universe)
         || (Remaining(Step(p, fetch), limit, universe) == Remaining(p, limit, universe)
             && |Step(p, fetch).queue| < |p.queue|)
  {
    StepProgresses(p, fetch, limit, universe);
  }

  lemma StepByPage(p: Progress, fetch: Edge -> Page, page: Page)
    requires p.queue != [] && page == fetch(p.queue[0])
    ensures var edge := p.queue[0]; var rest := p.queue[1..];
      if page.status >= HTTP_BAD_REQUEST || page.entry.None? || page.entry.value.offset in p.seen then
        Step(p, fetch) == Progress(rest, p.seen, p.requested, p.log)
      else
        var entry := page.entry.value; var onward := Edge(edge.action, entry.offset);
        Step(p, fetch) == Progress(if onward in p.requested then rest else rest + [onward], p.seen + {entry.offset},
                                   p.requested + {onward}, p.log + [entry])
  {
    var edge := p.queue[0];
    if page.entry.Some? {
      var onward := Edge(edge.action, page.entry.value.offset);
      assert onward in p.requested ==> p.requested + {onward} == p.requested;
    }
  }

  lemma Inserting(rows: map<int, Entry>, batches: seq<seq<Entry>>, log: seq<Entry>, entry: Entry)
    ensures Upserted(Upserted(rows, log), [entry]) == Upserted(rows, log + [entry])
    ensures (batches + Singletons(log)) + [[entry]] == batches + Singletons(log + [entry])
  {
    UpsertedJoins(rows, log, [entry]);
    assert Singletons(log + [entry]) == Singletons(log) + [[entry]];
  }

  /** `_crawl` */
  method CrawlEntries(index: Index, seed: Page, fetch: Edge -> Page, limit: Option<int>, ghost universe: set<int>)
    returns (result: Attempt<nat, BuildError>)
    requires Finite(fetch, limit, universe)
    modifies index
    ensures index.connected == old(index.connected)
    ensures !index.connected ==> result == Raised(NotConnected)
    ensures index.connected && (seed.status >= 400 || seed.entry.None?) ==> result == Raised(NoSeed)
    ensures index.connected && seed.status < 400 && seed.entry.Some? ==> result.Done?
    ensures result.Raised? ==> index.rows == old(index.rows) && index.batches == old(index.batches)
    ensures result.Done? ==>
      index.connected && seed.status < 400 && seed.entry.Some?
      && var end := CrawlFrom(Begin(seed.entry.value), fetch, limit, universe);
      result.value == |end.log| && index.rows == Upserted(old(index.rows), end.log)
      && index.batches == old(index.batches) + Singletons(end.log)
  {
    hide QueuedOnce, Inserted, DistinctOffsets;
    if !index.connected {
      return Raised(NotConnected);
    }
    if seed.status >= HTTP_BAD_REQUEST || seed.entry.None? {
      return Raised(NoSeed);
    }
    var seedEntry := seed.entry.value;
    var queue, seen, requested, processed := [], {}, {}, 0;
    ghost var log: seq<Entry> := [seedEntry];
    var inserted := index.InsertEntries([seedEntry]);
    processed := processed + inserted;
    seen := seen + {seedEntry.offset};
    queue, requested := EnqueueEdge(queue, requested, Edge(Prev, seedEntry.offset));
    queue, requested := EnqueueEdge(queue, requested, Edge(Next, seedEntry.offset));
    assert Progress(queue, seen, requested, log) == Begin(seedEntry);
    while queue != [] && !LimitReached(processed, limit)
      invariant processed == |log| && index.connected
      invariant CrawlFrom(Progress(queue, seen, requested, log), fetch, limit, universe)
             == CrawlFrom(Begin(seedEntry), fetch, limit, universe)
      invariant index.rows == Upserted(old(index.rows), log)
      invariant index.batches == old(index.batches) + Singletons(log)
      decreases Remaining(Progress(queue, seen, requested, log), limit, universe), |queue|
    {
      hide Finite, Remaining, CrawlFrom, Begin, Upserted, LimitReached, Singletons, Step, Enqueued, Usable, QueuedOnce;
      ghost var before := Progress(queue, seen, requested, log);
      CrawlUnrolls(before, fetch, limit, universe);
      var edge := queue[0];
      queue := queue[1..];
      var page := fetch(edge);
      StepByPage(before, fetch, page);
      if page.status >= HTTP_BAD_REQUEST || page.entry.None? {
        continue;
      }
      var entry := page.entry.value;
      if entry.offset in seen {
        continue;
      }
      Inserting(old(index.rows), old(index.batches), log, entry);
      inserted := index.InsertEntries([entry]);
      processed := processed + inserted;
      seen := seen + {entry.offset};
      log := log + [entry];
      queue, requested := EnqueueEdge(queue, requested, Edge(edge.action, entry.offset));
    }
    return Done(processed);
  }

  /** `_enqueue_edge`: an edge once asked for is never queued again. */
  method EnqueueEdge(queue: seq<Edge>, requested: set<Edge>, edge: Edge) returns (longer: seq<Edge>, marked: set<Edge>)
    ensures marked == requested + {edge}
    ensures longer == if edge in requested then queue else queue + [edge]
    ensures QueuedOnce(queue, requested) ==> QueuedOnce(longer, marked)
  {
    if edge in requested {
      return queue, requested;
    }
    return queue + [edge], requested + {edge};
  }

  /** Into an empty table, the count returned is the number of rows, and each row is the entry at its offset. */
  lemma CrawlFillsTable(seed: Entry, fetch: Edge -> Page, limit: Option<int>, universe: set<int>)
    requires Finite(fetch, limit, universe)
    ensures var end := CrawlFrom(Begin(seed), fetch, limit, universe);
      var rows := Upserted(map[], end.log);
      && |rows| == |end.log| && rows.Keys == end.seen
      && forall i :: 0 <= i < |end.log| ==> end.log[i].offset in rows && rows[end.log[i].offset] == end.log[i]
  {
    hide CrawlFrom, LoggedOnce, EdgesOnce, AllReached, Followed;
    BeginIsSafe(seed, fetch);
    CrawlKeepsSafe(Begin(seed), fetch, limit, universe);
    LoggedRows(CrawlFrom(Begin(seed), fetch, limit, universe));
  }

  lemma LoggedRows(end: Progress)
    requires LoggedOnce(end)
    ensures var rows := Upserted(map[], end.log);
      && |rows| == |end.log| && rows.Keys == end.seen
      && forall i :: 0 <= i < |end.log| ==> end.log[i].offset in rows && rows[end.log[i].offset] == end.log[i]
  {
    UpsertedCount(end.log);
    UpsertedFinds(map[], end.log);
    var rows := Upserted(map[], end.log);
    hide Upserted, DistinctOffsets;
    assert forall k :: k in rows.Keys <==> k in end.seen;
  }
}
