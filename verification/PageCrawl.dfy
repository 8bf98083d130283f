/** What a crawl does with the pages it is given, in terms of their status codes and entries. */
module PageCrawl {
  import opened Outcomes
  import opened EntryIndex
  import opened Crawl
  import opened CrawlWindow

  /** The page is no error, and has this entry. */
  predicate Shows(page: Page, entry: Entry) {
    page.status < 400 && page.entry == Some(entry)
  }

  /** The page is an error, has no entry, or one at an offset of these. */
  predicate ShowsOnly(page: Page, side: seq<Entry>) {
    page.status >= 400 || page.entry.None? || exists j :: 0 <= j < |side| && side[j].offset == page.entry.value.offset
  }

  /** The pages link the entries of the list in both directions; beyond an end they lead nowhere new. */
  ghost predicate ServesPages(fetch: Edge -> Page, list: seq<Entry>, s: nat) {
    && s < |list| && (forall i, j :: 0 <= i < j < |list| ==> list[i].offset != list[j].offset)
    && (forall i :: 0 < i < |list| ==> Shows(fetch(Edge(Prev, list[i].offset)), list[i - 1]))
    && (forall i :: 0 <= i < |list| - 1 ==> Shows(fetch(Edge(Next, list[i].offset)), list[i + 1]))
    && ShowsOnly(fetch(Edge(Prev, list[0].offset)), list[0..s + 1])
    && ShowsOnly(fetch(Edge(Next, list[|list| - 1].offset)), list[s..|list|])
  }

  /** There is a limit, or the pages without an error have finitely many offsets. */
  ghost predicate Bounded(fetch: Edge -> Page, limit: Option<int>, universe: set<int>) {
    (limit.Some? && limit.value > 0)
    || forall e :: fetch(e).status < 400 && fetch(e).entry.Some? ==> fetch(e).entry.value.offset in universe
  }

  lemma ServedIsBounded(fetch: Edge -> Page, limit: Option<int>, universe: set<int>)
    requires Bounded(fetch, limit, universe)
    ensures Finite(fetch, limit, universe)
  {
  }

  lemma ServesAsRead(fetch: Edge -> Page, list: seq<Entry>, s: nat)
    requires ServesPages(fetch, list, s)
    ensures Serves(fetch, list, s)
  {
    forall i | 0 < i < |list| ensures Usable(fetch(Edge(Prev, list[i].offset))) == Some(list[i - 1]) {
      assert Shows(fetch(Edge(Prev, list[i].offset)), list[i - 1]);
    }
    forall i | 0 <= i < |list| - 1 ensures Usable(fetch(Edge(Next, list[i].offset))) == Some(list[i + 1]) {
      assert Shows(fetch(Edge(Next, list[i].offset)), list[i + 1]);
    }
  }

  /** The offsets of the rows are those of these entries, and each row is the entry. */
  ghost predicate Rows(rows: map<int, Entry>, entries: seq<Entry>) {
    && (forall k :: k in rows <==> exists i :: 0 <= i < |entries| && entries[i].offset == k)
    && (forall i :: 0 <= i < |entries| && entries[i].offset in rows ==> rows[entries[i].offset] == entries[i])
  }

  lemma LoggedAreRows(log: seq<Entry>, window: seq<Entry>)
    requires DistinctOffsets(log) && multiset(log) == multiset(window)
    ensures Rows(Upserted(map[], log), window)
  {
    UpsertedCount(log);
    UpsertedFinds(map[], log);
    var rows := Upserted(map[], log);
    hide Upserted, DistinctOffsets, Inserted;
    forall e ensures e in log <==> e in window {
      assert e in multiset(log) <==> e in multiset(window);
    }
    RowsOfLog(rows, log, window);
  }

  lemma RowsOfLog(rows: map<int, Entry>, log: seq<Entry>, window: seq<Entry>)
    requires forall e :: e in log <==> e in window
    requires forall k :: k in rows <==> exists i :: 0 <= i < |log| && log[i].offset == k
    requires Inserted(map[], rows, log)
    ensures Rows(rows, window)
  {
    forall k ensures k in rows <==> exists i :: 0 <= i < |window| && window[i].offset == k {
      if i :| 0 <= i < |log| && log[i].offset == k {
        assert log[i] in window;
      }
      if i :| 0 <= i < |window| && window[i].offset == k {
        assert window[i] in log;
      }
    }
    forall i | 0 <= i < |window| ensures window[i].offset in rows && rows[window[i].offset] == window[i] {
      assert window[i] in log;
    }
  }

  /** How many entries a limit lets in: all without one, or with one below one. */
  function Most(limit: Option<int>, n: nat): nat {
    if limit.Some? && limit.value > 0 && limit.value < n then limit.value else n
  }

  /** The sides differ by at most one, unless the shorter one has reached its end of the list. */
  predicate Even(left: int, right: int, leftEnds: bool, rightEnds: bool) {
    left == right || left == right + 1 || (left < right && leftEnds) || (right < left && rightEnds)
  }

  /**
   A crawl of such pages into an empty table: it takes as many entries as the limit lets in, and the table then holds
   exactly a window of the list around the seed, with even sides as far as both last.
   */
  method CrawlLinkedPages(
    index: Index, seed: Page, fetch: Edge -> Page, limit: Option<int>, ghost universe: set<int>,
    ghost list: seq<Entry>, ghost s: nat)
    returns (result: Attempt<nat, BuildError>, ghost from: nat)
    requires index.connected && index.rows == map[]
    requires Bounded(fetch, limit, universe) && ServesPages(fetch, list, s) && Shows(seed, list[s])
    modifies index
    ensures result == Done(Most(limit, |list|))
    ensures from <= s < from + Most(limit, |list|) <= |list|
    ensures Rows(index.rows, list[from..from + Most(limit, |list|)])
    ensures Even(s - from, from + Most(limit, |list|) - 1 - s, from == 0, from + Most(limit, |list|) == |list|)
  {
    hide ServesPages, Finite, Rows, CrawlFrom, Begin, Upserted, Collected, LeftExtent, Even, Most;
    ServedIsBounded(fetch, limit, universe);
    from := WindowOfPages(fetch, limit, universe, list, s);
    result := CrawlEntries(index, seed, fetch, limit, universe);
  }

  /** The place of the window, and the rows it gives. */
  lemma WindowOfPages(fetch: Edge -> Page, limit: Option<int>, universe: set<int>, list: seq<Entry>, s: nat)
    returns (from: nat)
    requires Finite(fetch, limit, universe) && ServesPages(fetch, list, s)
    ensures var m, log := Most(limit, |list|), CrawlFrom(Begin(list[s]), fetch, limit, universe).log;
      && |log| == m && from <= s < from + m <= |list|
      && Rows(Upserted(map[], log), list[from..from + m])
      && Even(s - from, from + m - 1 - s, from == 0, from + m == |list|)
  {
    hide *;
    ServesAsRead(fetch, list, s);
    SameMost(limit, |list|);
    CrawlCollectsWindow(fetch, limit, universe, list, s);
    DistinctlyLogged(list[s], fetch, limit, universe);
    var m := Most(limit, |list|);
    var left := LeftExtent(m, s, |list|);
    from := s - left;
    EvenAtEnds(left, m, s, |list|);
    LoggedAreRows(CrawlFrom(Begin(list[s]), fetch, limit, universe).log, list[from..from + m]);
  }

  lemma SameMost(limit: Option<int>, n: nat)
    ensures Collected(limit, n) == Most(limit, n)
  {
  }

  lemma EvenAtEnds(left: int, m: nat, s: nat, n: nat)
    requires EvenSides(left, m - 1 - left, s, n)
    ensures Even(left, m - 1 - left, s - left == 0, s - left + m == n)
  {
  }

  lemma DistinctlyLogged(seed: Entry, fetch: Edge -> Page, limit: Option<int>, universe: set<int>)
    requires Finite(fetch, limit, universe)
    ensures DistinctOffsets(CrawlFrom(Begin(seed), fetch, limit, universe).log)
  {
    hide CrawlFrom, Begin, Finite, AllReached, DistinctOffsets, Answered;
    CrawlIsSafe(seed, fetch, limit, universe);
  }

  /** Whatever the pages are: each entry but the first comes from a page that is no error. */
  lemma ErrorPagesAreLeftOut(seed: Entry, fetch: Edge -> Page, limit: Option<int>, universe: set<int>, i: nat)
    requires Bounded(fetch, limit, universe)
    requires Finite(fetch, limit, universe) && 0 < i < |CrawlFrom(Begin(seed), fetch, limit, universe).log|
    ensures exists e: Edge :: Shows(fetch(e), CrawlFrom(Begin(seed), fetch, limit, universe).log[i])
  {
    hide CrawlFrom, Begin, Finite, Bounded;
    CrawlIsSafe(seed, fetch, limit, universe);
    var end := CrawlFrom(Begin(seed), fetch, limit, universe);
    assert Onward(end, fetch, i);
    var action: Action :| Chained(end.log, fetch, action, i);
    ChainedShows(end.log, fetch, action, i);
  }

  lemma ChainedShows(log: seq<Entry>, fetch: Edge -> Page, action: Action, i: nat)
    requires 0 < i < |log| && Chained(log, fetch, action, i)
    ensures exists e: Edge :: Shows(fetch(e), log[i])
  {
    var j :| 0 <= j < i && Usable(fetch(Edge(action, log[j].offset))) == Some(log[i]) && Chained(log, fetch, action, j);
    assert Shows(fetch(Edge(action, log[j].offset)), log[i]);
  }
}
