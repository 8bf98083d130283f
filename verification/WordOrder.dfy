/** The order of a word list, told by its lemmas, their counts and their distances from the query alone. */
module WordOrder {
  import opened Outcomes
  import opened Splitting
  import opened EditDistance
  import opened TextOrder
  import opened WordList

  /** A lemma that is a fragment: cut off at its start or its end. */
  predicate Fragment(name: string) {
    name != "" && (name[0] == '.' || name[|name| - 1] == '.')
  }

  /** The greatest count of the entries of the lemma. */
  ghost predicate CountOf(entries: seq<Entry>, name: string, count: int) {
    (exists e :: e in entries && e.name == name && e.count == count)
    && forall e :: e in entries && e.name == name ==> e.count <= count
  }

  /**
   Whole lemmas come before fragments, then the nearer to the query, the more frequent, the shorter, and the
   lesser in code point order, of the normalized texts and at last of the lemmas themselves.
   */
  ghost predicate ComesBefore(normalize: string -> string, query: string, a: string, countA: int, b: string,
                              countB: int) {
    var far, farther := Distance(normalize(a), normalize(query)), Distance(normalize(b), normalize(query));
    if Fragment(a) != Fragment(b) then !Fragment(a)
    else if far != farther then far < farther
    else if countA != countB then countA > countB
    else if |normalize(a)| != |normalize(b)| then |normalize(a)| < |normalize(b)|
    else if normalize(a) != normalize(b) then CodePointsBefore(normalize(a), normalize(b))
    else CodePointsBefore(a, b)
  }

  lemma RatioOrder(a: int, b: int, total: int)
    requires total > 0
    ensures -RatioOf(a, total) < -RatioOf(b, total) <==> a > b
    ensures RatioOf(a, total) == RatioOf(b, total) <==> a == b
  {
    var t := total as real;
    assert a as real == RatioOf(a, total) * t && b as real == RatioOf(b, total) * t;
    if a > b {
      assert (a - b) as real == (RatioOf(a, total) - RatioOf(b, total)) * t;
      Positive((a - b) as real, RatioOf(a, total) - RatioOf(b, total), t);
    } else if a < b {
      assert (b - a) as real == (RatioOf(b, total) - RatioOf(a, total)) * t;
      Positive((b - a) as real, RatioOf(b, total) - RatioOf(a, total), t);
    }
  }

  lemma Positive(product: real, x: real, t: real)
    requires product == x * t && product > 0.0 && t > 0.0
    ensures x > 0.0
  {
  }

  lemma {:induction false} TotalPositive(merged: map<string, Tally>)
    requires forall name :: name in merged ==> merged[name].count >= 0
    ensures Total(merged) >= 0
    ensures (exists name :: name in merged && merged[name].count > 0) ==> Total(merged) > 0
    decreases |merged|
  {
    if merged != map[] {
      var first :| first in merged;
      TotalTakes(merged, first);
      TotalPositive(merged - {first});
      if name :| name in merged && merged[name].count > 0 {
        assert name != first ==> name in merged - {first};
      }
    }
  }

  lemma KeyOrders(normalize: string -> string, query: string, merged: map<string, Tally>, a: string, b: string)
    requires a in merged && b in merged && a != b
    requires forall name :: name in merged ==> merged[name].count >= 0
    requires WordList.Before(KeyOf(normalize, query, merged, a), KeyOf(normalize, query, merged, b))
    ensures ComesBefore(normalize, query, a, merged[a].count, b, merged[b].count)
  {
    hide CodePointsBefore, AtMost, Distance, RatioOf, Total;
    AtMostMeans(normalize(a), normalize(b));
    AtMostMeans(a, b);
    TotalPositive(merged);
    if merged[a].count != merged[b].count {
      assert merged[a].count > 0 || merged[b].count > 0;
      RatioOrder(merged[a].count, merged[b].count, Total(merged));
    }
  }

  /** The lemma comes before the other, whatever their counts are. */
  ghost predicate Precedes(normalize: string -> string, query: string, entries: seq<Entry>, a: string, b: string) {
    forall count, other :: CountOf(entries, a, count) && CountOf(entries, b, other) ==>
      ComesBefore(normalize, query, a, count, b, other)
  }

  /** Each listed lemma comes before those behind it, and before those that were cut off. */
  ghost predicate InOrder(normalize: string -> string, query: string, entries: seq<Entry>, names: seq<string>) {
    && (forall i, j :: 0 <= i < j < |names| ==> Precedes(normalize, query, entries, names[i], names[j]))
    && (forall i, e :: 0 <= i < |names| && e in entries && e.name !in names ==>
          Precedes(normalize, query, entries, names[i], e.name))
  }

  lemma TalliesCount(tally: Tally, entries: seq<Entry>, name: string)
    requires Tallies(tally, entries, name)
    ensures forall count :: CountOf(entries, name, count) <==> count == tally.count
  {
  }

  lemma RankedPrecede(normalize: string -> string, query: string, entries: seq<Entry>, merged: map<string, Tally>,
                      ranked: seq<string>, i: nat, j: nat)
    requires Merges(merged, entries) && Ranking(normalize, query, merged, ranked) && i < j < |ranked|
    requires forall e :: e in entries ==> e.count >= 0
    ensures Precedes(normalize, query, entries, ranked[i], ranked[j])
  {
    hide ComesBefore, Tallies, CountOf, KeyOf, WordList.Before;
    MergedCounts(merged, entries);
    KeyOrders(normalize, query, merged, ranked[i], ranked[j]);
    TalliesCount(merged[ranked[i]], entries, ranked[i]);
    TalliesCount(merged[ranked[j]], entries, ranked[j]);
  }

  lemma MergedCounts(merged: map<string, Tally>, entries: seq<Entry>)
    requires Merges(merged, entries) && forall e :: e in entries ==> e.count >= 0
    ensures forall name :: name in merged ==> merged[name].count >= 0
  {
    forall name | name in merged ensures merged[name].count >= 0 {
      assert HasCount(entries, name, merged[name].count);
    }
  }

  lemma RankedInOrder(normalize: string -> string, query: string, entries: seq<Entry>, merged: map<string, Tally>,
                      ranked: seq<string>, n: nat)
    requires Merges(merged, entries) && Ranking(normalize, query, merged, ranked) && n <= |ranked|
    requires forall e :: e in entries ==> e.count >= 0
    ensures InOrder(normalize, query, entries, ranked[..n])
  {
    hide Precedes, Tallies, KeyOf, WordList.Before;
    var names := ranked[..n];
    assert forall k :: 0 <= k < n ==> ranked[k] in names by {
      assert forall k :: 0 <= k < n ==> names[k] == ranked[k];
    }
    forall i, j | 0 <= i < j < |names| ensures Precedes(normalize, query, entries, names[i], names[j]) {
      RankedPrecede(normalize, query, entries, merged, ranked, i, j);
    }
    forall i, e | 0 <= i < |names| && e in entries && e.name !in names
      ensures Precedes(normalize, query, entries, names[i], e.name)
    {
      assert e.name in merged && e.name in ranked;
      var j :| 0 <= j < |ranked| && ranked[j] == e.name;
      RankedPrecede(normalize, query, entries, merged, ranked, i, j);
    }
  }

  lemma SlicePrefix(items: seq<string>, most: int)
    ensures SliceTo(items, most) <= items
    ensures most >= 0 ==> |SliceTo(items, most)| <= most
    ensures |SliceTo(items, most)| < most ==> SliceTo(items, most) == items
  {
  }

  /** The listed lemmas are distinct, and each has the greatest count of its entries. */
  ghost predicate Counted(entries: seq<Entry>, names: seq<string>, freqs: map<string, int>) {
    && (forall i, j :: 0 <= i < j < |names| ==> names[i] != names[j])
    && (forall name :: name in freqs <==> name in names)
    && (forall name :: name in names ==> CountOf(entries, name, freqs[name]))
  }

  /**
   A word list has distinct lemmas of the entries, each with the greatest count of its entries, as many as the limit
   allows, and they are the first in this order.
   */
  lemma WordsInOrder(normalize: string -> string, query: string, entries: seq<Entry>, limit: Option<int>,
                     names: seq<string>, freqs: map<string, int>)
    requires ListsWords(normalize, query, entries, limit, names, freqs)
    requires forall e :: e in entries ==> e.count >= 0
    ensures InOrder(normalize, query, entries, names) && Counted(entries, names, freqs)
    ensures limit.Some? && limit.value >= 0 ==> |names| <= limit.value
    ensures (limit.None? || |names| < limit.value) ==> forall e :: e in entries ==> e.name in names
  {
    hide InOrder, WordList.Before, KeyOf, Tallies, CountOf, SliceTo;
    var merged: map<string, Tally>, ranked: seq<string> :|
      Merges(merged, entries) && Ranking(normalize, query, merged, ranked) && Cut(merged, ranked, limit, names, freqs);
    var n := |names|;
    if limit.Some? { SlicePrefix(ranked, limit.value); }
    assert ranked[..n] == names;
    RankedInOrder(normalize, query, entries, merged, ranked, n);
    forall name | name in names ensures CountOf(entries, name, freqs[name]) {
      TalliesCount(merged[name], entries, name);
    }
  }
}
