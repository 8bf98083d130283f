/** What a crawl collects from pages that serve a list of entries linked in both directions. */
module CrawlWindow {
  import opened Outcomes
  import opened EntryIndex
  import opened Crawl

  /**
   * The pages answer a previous/next request with the neighbour in the list; past an end they answer
   * with nothing, or with an entry between that end and the seed.
   */
  ghost predicate Serves(fetch: Edge -> Page, list: seq<Entry>, s: nat) {
    && s < |list| && DistinctOffsets(list)
    && (forall i :: 0 < i < |list| ==> Usable(fetch(Edge(Prev, list[i].offset))) == Some(list[i - 1]))
    && (forall i :: 0 <= i < |list| - 1 ==> Usable(fetch(Edge(Next, list[i].offset))) == Some(list[i + 1]))
    && PastEnd(Usable(fetch(Edge(Prev, list[0].offset))), list[0..s + 1])
    && PastEnd(Usable(fetch(Edge(Next, list[|list| - 1].offset))), list[s..|list|])
  }

  predicate PastEnd(answer: Option<Entry>, side: seq<Entry>) {
    answer.None? || exists j :: 0 <= j < |side| && side[j].offset == answer.value.offset
  }

  /** `left` and `right` entries beside the seed are in; a direction is open while an edge of it waits. */
  datatype Window = Window(left: nat, right: nat, leftOpen: bool, rightOpen: bool)

  predicate Fits(w: Window, list: seq<Entry>, s: nat) {
    w.left <= s && s + w.right < |list|
  }

  function Waiting(w: Window, list: seq<Entry>, s: nat): seq<Edge>
    requires Fits(w, list, s)
  {
    var prev := Edge(Prev, list[s - w.left].offset);
    var next := Edge(Next, list[s + w.right].offset);
    if w.leftOpen && w.rightOpen then (if w.left == w.right then [prev, next] else [next, prev])
    else if w.leftOpen then [prev]
    else if w.rightOpen then [next]
    else []
  }

  /** While both directions are open they alternate; a direction closes only at its end of the list. */
  predicate Balanced(w: Window, n: nat, s: nat)
    requires s < n
  {
    && (w.leftOpen && w.rightOpen ==> w.left == w.right || w.left == w.right + 1)
    && (!w.leftOpen ==> w.left == s)
    && (!w.rightOpen ==> s + w.right == n - 1)
    && (!w.leftOpen && w.rightOpen ==> w.left <= w.right)
    && (w.leftOpen && !w.rightOpen ==> w.right < w.left)
  }

  function Part(w: Window, list: seq<Entry>, s: nat): seq<Entry>
    requires Fits(w, list, s)
  {
    list[s - w.left..s + w.right + 1]
  }

  ghost predicate SeenIs(seen: set<int>, w: Window, list: seq<Entry>, s: nat) {
    forall i :: 0 <= i < |list| ==> (list[i].offset in seen <==> s - w.left <= i <= s + w.right)
  }

  ghost predicate InWindow(p: Progress, w: Window, list: seq<Entry>, s: nat) {
    && s < |list| && Fits(w, list, s) && Balanced(w, |list|, s)
    && p.queue == Waiting(w, list, s)
    && SeenIs(p.seen, w, list, s)
    && multiset(p.log) == multiset(Part(w, list, s))
    && EdgesOnce(p)
  }

  lemma BeginsInWindow(list: seq<Entry>, s: nat)
    requires s < |list| && DistinctOffsets(list)
    ensures InWindow(Begin(list[s]), Window(0, 0, true, true), list, s)
  {
    var p := Begin(list[s]);
    assert p.queue == [Edge(Prev, list[s].offset), Edge(Next, list[s].offset)];
    assert Part(Window(0, 0, true, true), list, s) == [list[s]] == p.log;
  }

  lemma SeenGrows(seen: set<int>, w: Window, next: Window, list: seq<Entry>, s: nat, k: nat)
    requires DistinctOffsets(list) && SeenIs(seen, w, list, s) && k < |list|
    requires || (next == w.(left := w.left + 1) && k == s - next.left)
             || (next == w.(right := w.right + 1) && k == s + next.right)
    ensures SeenIs(seen + {list[k].offset}, next, list, s)
  {
    forall i | 0 <= i < |list|
      ensures list[i].offset in seen + {list[k].offset} <==> s - next.left <= i <= s + next.right
    {
      if i != k { assert list[i].offset != list[k].offset; }
    }
  }

  lemma PastEndIsSeen(answer: Option<Entry>, seen: set<int>, w: Window, list: seq<Entry>, s: nat, from: nat, to: nat)
    requires SeenIs(seen, w, list, s) && Fits(w, list, s)
    requires s - w.left <= from <= to <= s + w.right + 1 && PastEnd(answer, list[from..to])
    ensures answer.None? || answer.value.offset in seen
  {
    if answer.Some? {
      var j :| 0 <= j < to - from && list[from..to][j].offset == answer.value.offset;
      assert list[from + j].offset in seen;
    }
  }

  lemma NotSeen(seen: set<int>, w: Window, list: seq<Entry>, s: nat, k: nat)
    requires SeenIs(seen, w, list, s) && k < |list| && !(s - w.left <= k <= s + w.right)
    ensures list[k].offset !in seen
  {
  }

  /** The answer to the waiting request of one side: its next entry, not seen so far, unless it has ended. */
  lemma AnswerLeft(seen: set<int>, w: Window, fetch: Edge -> Page, list: seq<Entry>, s: nat)
    requires Serves(fetch, list, s) && Fits(w, list, s) && SeenIs(seen, w, list, s)
    ensures var answer := Usable(fetch(Edge(Prev, list[s - w.left].offset)));
      if w.left == s then answer.None? || answer.value.offset in seen
      else answer == Some(list[s - w.left - 1]) && list[s - w.left - 1].offset !in seen
  {
    hide SeenIs;
    if w.left == s {
      PastEndIsSeen(Usable(fetch(Edge(Prev, list[0].offset))), seen, w, list, s, 0, s + 1);
    } else {
      NotSeen(seen, w, list, s, s - w.left - 1);
    }
  }

  lemma AnswerRight(seen: set<int>, w: Window, fetch: Edge -> Page, list: seq<Entry>, s: nat)
    requires Serves(fetch, list, s) && Fits(w, list, s) && SeenIs(seen, w, list, s)
    ensures var answer := Usable(fetch(Edge(Next, list[s + w.right].offset)));
      if s + w.right == |list| - 1 then answer.None? || answer.value.offset in seen
      else answer == Some(list[s + w.right + 1]) && list[s + w.right + 1].offset !in seen
  {
    hide SeenIs;
    if s + w.right == |list| - 1 {
      PastEndIsSeen(Usable(fetch(Edge(Next, list[|list| - 1].offset))), seen, w, list, s, s, |list|);
    } else {
      NotSeen(seen, w, list, s, s + w.right + 1);
    }
  }

  function WentLeft(w: Window, s: nat): Window {
    if w.left == s then w.(leftOpen := false) else w.(left := w.left + 1)
  }

  function WentRight(w: Window, s: nat, n: nat): Window {
    if s + w.right == n - 1 then w.(rightOpen := false) else w.(right := w.right + 1)
  }

  /** The queue and the balance after a step to one side. */
  lemma WaitsAfterLeft(w: Window, list: seq<Entry>, s: nat)
    requires s < |list| && Fits(w, list, s) && Balanced(w, |list|, s)
    requires Waiting(w, list, s) != [] && Waiting(w, list, s)[0].action == Prev
    ensures var next := WentLeft(w, s);
      Fits(next, list, s) && Balanced(next, |list|, s) && Waiting(w, list, s)[0] == Edge(Prev, list[s - w.left].offset)
      && Waiting(next, list, s) == Waiting(w, list, s)[1..]
         + (if w.left == s then [] else [Edge(Prev, list[s - w.left - 1].offset)])
  {
  }

  lemma WaitsAfterRight(w: Window, list: seq<Entry>, s: nat)
    requires s < |list| && Fits(w, list, s) && Balanced(w, |list|, s)
    requires Waiting(w, list, s) != [] && Waiting(w, list, s)[0].action == Next
    ensures var next := WentRight(w, s, |list|);
      Fits(next, list, s) && Balanced(next, |list|, s) && Waiting(w, list, s)[0] == Edge(Next, list[s + w.right].offset)
      && Waiting(next, list, s) == Waiting(w, list, s)[1..]
         + (if s + w.right == |list| - 1 then [] else [Edge(Next, list[s + w.right + 1].offset)])
  {
  }

  lemma SeenAfter(seen: set<int>, w: Window, closed: Window, list: seq<Entry>, s: nat)
    requires SeenIs(seen, w, list, s) && closed.left == w.left && closed.right == w.right
    ensures SeenIs(seen, closed, list, s)
  {
  }

  lemma StepCloses(p: Progress, w: Window, next: Window, fetch: Edge -> Page, list: seq<Entry>, s: nat)
    requires InWindow(p, w, list, s) && p.queue != [] && Answered(p.queue[0], p, fetch)
    requires next.left == w.left && next.right == w.right && Fits(next, list, s) && Balanced(next, |list|, s)
    requires Waiting(next, list, s) == Waiting(w, list, s)[1..]
    ensures InWindow(Step(p, fetch), next, list, s)
  {
    hide EdgesOnce, SeenIs, Waiting, Balanced, Usable, Step;
    StepEdgesOnce(p, fetch);
    StepCases(p, fetch);
    SeenAfter(p.seen, w, next, list, s);
  }

  lemma StepExtends(p: Progress, w: Window, next: Window, fetch: Edge -> Page, list: seq<Entry>, s: nat, k: nat)
    requires InWindow(p, w, list, s) && p.queue != [] && DistinctOffsets(list)
    requires || (next == w.(left := w.left + 1) && k == s - next.left)
             || (next == w.(right := w.right + 1) && k == s + next.right)
    requires Fits(next, list, s) && Balanced(next, |list|, s)
    requires Usable(fetch(p.queue[0])) == Some(list[k]) && list[k].offset !in p.seen
    requires Waiting(next, list, s) == Waiting(w, list, s)[1..] + [Edge(p.queue[0].action, list[k].offset)]
    ensures InWindow(Step(p, fetch), next, list, s)
  {
    hide EdgesOnce, SeenIs, Waiting, Balanced, Usable, Step, DistinctOffsets;
    StepEdgesOnce(p, fetch);
    StepCases(p, fetch);
    SeenGrows(p.seen, w, next, list, s, k);
    assert multiset(Part(next, list, s)) == multiset(Part(w, list, s) + [list[k]]) by {
      if next.left == w.left {
        assert Part(next, list, s) == Part(w, list, s) + [list[k]];
      } else {
        assert Part(next, list, s) == [list[k]] + Part(w, list, s);
      }
    }
  }

  lemma ServesDistinct(fetch: Edge -> Page, list: seq<Entry>, s: nat)
    requires Serves(fetch, list, s)
    ensures DistinctOffsets(list)
  {
  }

  /** A step to the left: one more entry on that side, or the end of it. */
  lemma StepsLeft(p: Progress, w: Window, fetch: Edge -> Page, list: seq<Entry>, s: nat)
    requires Serves(fetch, list, s) && InWindow(p, w, list, s) && p.queue != [] && p.queue[0].action == Prev
    ensures InWindow(Step(p, fetch), WentLeft(w, s), list, s)
  {
    hide Step, EdgesOnce, SeenIs, Waiting, Balanced, Serves, DistinctOffsets, Usable;
    WaitsAfterLeft(w, list, s);
    AnswerLeft(p.seen, w, fetch, list, s);
    if w.left == s {
      StepCloses(p, w, WentLeft(w, s), fetch, list, s);
    } else {
      ServesDistinct(fetch, list, s);
      StepExtends(p, w, WentLeft(w, s), fetch, list, s, s - w.left - 1);
    }
  }

  lemma StepsRight(p: Progress, w: Window, fetch: Edge -> Page, list: seq<Entry>, s: nat)
    requires Serves(fetch, list, s) && InWindow(p, w, list, s) && p.queue != [] && p.queue[0].action == Next
    ensures InWindow(Step(p, fetch), WentRight(w, s, |list|), list, s)
  {
    hide Step, EdgesOnce, SeenIs, Waiting, Balanced, Serves, DistinctOffsets, Usable;
    WaitsAfterRight(w, list, s);
    AnswerRight(p.seen, w, fetch, list, s);
    if s + w.right == |list| - 1 {
      StepCloses(p, w, WentRight(w, s, |list|), fetch, list, s);
    } else {
      ServesDistinct(fetch, list, s);
      StepExtends(p, w, WentRight(w, s, |list|), fetch, list, s, s + w.right + 1);
    }
  }

  lemma {:induction false} StaysInWindow(p: Progress, w: Window, fetch: Edge -> Page, limit: Option<int>,
                                         universe: set<int>,
                                         list: seq<Entry>, s: nat) returns (final: Window)
    requires Finite(fetch, limit, universe) && Serves(fetch, list, s) && InWindow(p, w, list, s)
    requires limit.Some? && limit.value > 0 ==> |p.log| <= limit.value
    ensures var end := CrawlFrom(p, fetch, limit, universe);
      InWindow(end, final, list, s) && Halted(end, limit)
      && (limit.Some? && limit.value > 0 ==> |end.log| <= limit.value)
    decreases Remaining(p, limit, universe), |p.queue|
  {
    if Halted(p, limit) {
      final := w;
    } else {
      var next: Window;
      if p.queue[0].action == Prev {
        next := WentLeft(w, s);
        StepsLeft(p, w, fetch, list, s);
      } else {
        next := WentRight(w, s, |list|);
        StepsRight(p, w, fetch, list, s);
      }
      assert |Step(p, fetch).log| <= |p.log| + 1;
      hide Waiting, Balanced, SeenIs, EdgesOnce;
      hide Step, InWindow, Serves, Finite;
      StepProgresses(p, fetch, limit, universe);
      final := StaysInWindow(Step(p, fetch), next, fetch, limit, universe, list, s);
    }
  }

  /** How many of the `m` entries lie to the left of the seed at `s` of `n`: half, as far as both sides last. */
  function LeftExtent(m: nat, s: nat, n: nat): int {
    if s < m / 2 then s
    else if (m - 1) / 2 > n - 1 - s then m - (n - s)
    else m / 2
  }

  function Collected(limit: Option<int>, n: nat): nat {
    if limit.Some? && 0 < limit.value < n then limit.value else n
  }

  /** The two sides differ by at most one, unless the shorter one has reached its end of the list. */
  predicate EvenSides(left: int, right: int, s: nat, n: nat) {
    left == right || left == right + 1 || (left < right && left == s) || (right < left && right == n - 1 - s)
  }

  lemma SidesBalanced(m: nat, s: nat, n: nat)
    requires s < n && 1 <= m <= n
    ensures EvenSides(LeftExtent(m, s, n), m - 1 - LeftExtent(m, s, n), s, n)
  {
  }

  lemma BalancedExtent(w: Window, list: seq<Entry>, s: nat)
    requires s < |list| && Fits(w, list, s) && Balanced(w, |list|, s)
    ensures w.left == LeftExtent(w.left + w.right + 1, s, |list|)
  {
  }

  /**
   * A crawl over a linked list inserts every entry exactly once if it has no limit, and otherwise a
   * contiguous window of exactly that many around the seed, half on each side as far as both sides last.
   * The sides differ by at most one until one of them has reached its end.
   */
  lemma CrawlCollectsWindow(fetch: Edge -> Page, limit: Option<int>, universe: set<int>, list: seq<Entry>, s: nat)
    requires Finite(fetch, limit, universe) && Serves(fetch, list, s)
    ensures var end := CrawlFrom(Begin(list[s]), fetch, limit, universe);
      var m := Collected(limit, |list|);
      var from := s - LeftExtent(m, s, |list|);
      |end.log| == m && 0 <= from <= s < from + m <= |list| && multiset(end.log) == multiset(list[from..from + m])
    ensures var m := Collected(limit, |list|);
      EvenSides(LeftExtent(m, s, |list|), m - 1 - LeftExtent(m, s, |list|), s, |list|)
  {
    SidesBalanced(Collected(limit, |list|), s, |list|);
    hide EvenSides;
    BeginsInWindow(list, s);
    assert |Begin(list[s]).log| == 1;
    hide CrawlFrom, Finite, Serves, Begin, InWindow, LeftExtent;
    var w := StaysInWindow(Begin(list[s]), Window(0, 0, true, true), fetch, limit, universe, list, s);
    WindowExtent(CrawlFrom(Begin(list[s]), fetch, limit, universe), w, limit, list, s);
  }

  lemma WindowExtent(end: Progress, w: Window, limit: Option<int>, list: seq<Entry>, s: nat)
    requires InWindow(end, w, list, s) && Halted(end, limit)
    requires limit.Some? && limit.value > 0 ==> |end.log| <= limit.value
    ensures var m := Collected(limit, |list|);
      var from := s - LeftExtent(m, s, |list|);
      |end.log| == m && 0 <= from <= s < from + m <= |list| && multiset(end.log) == multiset(list[from..from + m])
  {
    hide EdgesOnce, SeenIs, LeftExtent;
    assert |multiset(end.log)| == |end.log| && |multiset(Part(w, list, s))| == |Part(w, list, s)|;
    assert w.left + w.right + 1 == |end.log|;
    BalancedExtent(w, list, s);
  }
}
