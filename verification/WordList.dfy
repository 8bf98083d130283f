/** Merging and ranking the lemmas of a word list. */
module WordList {
  import opened Outcomes
  import opened Splitting
  import opened EditDistance
  import opened TextOrder

  datatype Entry = Entry(name: string, count: int, orderWeight: int)

  datatype Tally = Tally(count: int, orderWeight: int)

  datatype RankedLemma = RankedLemma(
    fragment: int, dist: int, ratio: real, normLen: int, norm: string, name: string)

  function Max(x: int, y: int): int {
    if x >= y then x else y
  }

  // ----- Merging

  ghost predicate HasCount(entries: seq<Entry>, name: string, count: int) {
    exists e :: e in entries && e.name == name && e.count == count
  }

  ghost predicate HasWeight(entries: seq<Entry>, name: string, weight: int) {
    exists e :: e in entries && e.name == name && e.orderWeight == weight
  }

  /** A lemma's tally holds the greatest count and the greatest order weight of its entries. */
  ghost predicate Tallies(tally: Tally, entries: seq<Entry>, name: string) {
    && HasCount(entries, name, tally.count)
    && HasWeight(entries, name, tally.orderWeight)
    && forall e :: e in entries && e.name == name ==> e.count <= tally.count && e.orderWeight <= tally.orderWeight
  }

  /** Each lemma of the entries once, with its tally. */
  ghost predicate Merges(merged: map<string, Tally>, entries: seq<Entry>) {
    && (forall e :: e in entries ==> e.name in merged)
    && (forall name :: name in merged ==> Tallies(merged[name], entries, name))
  }

  function MergeOne(merged: map<string, Tally>, entry: Entry): map<string, Tally> {
    merged[entry.name :=
      if entry.name in merged
      then Tally(Max(merged[entry.name].count, entry.count), Max(merged[entry.name].orderWeight, entry.orderWeight))
      else Tally(entry.count, entry.orderWeight)]
  }

  /** `_merge_word_list` */
  method MergeWordList(entries: seq<Entry>) returns (merged: map<string, Tally>)
    ensures Merges(merged, entries)
  {
    merged := map[];
    for i := 0 to |entries|
      invariant Merges(merged, entries[..i])
    {
      hide Merges, Tallies;
      var entry := entries[i];
      assert entries[..i + 1] == entries[..i] + [entry];
      ghost var next := MergeOne(merged, entry);
      MergeOneKeeps(merged, entries[..i], entry);
      if entry.name in merged {
        var prev := merged[entry.name];
        merged := merged[entry.name :=
          Tally(Max(prev.count, entry.count), Max(prev.orderWeight, entry.orderWeight))];
      } else {
        merged := merged[entry.name := Tally(entry.count, entry.orderWeight)];
      }
      assert merged == next;
    }
    assert entries[..|entries|] == entries;
  }

  lemma MergeOneKeeps(merged: map<string, Tally>, entries: seq<Entry>, entry: Entry)
    requires Merges(merged, entries)
    ensures Merges(MergeOne(merged, entry), entries + [entry])
  {
    var after := MergeOne(merged, entry);
    assert forall e :: e in entries + [entry] <==> e in entries || e == entry;
    forall name | name in after ensures Tallies(after[name], entries + [entry], name) {
      if name in merged {
        OneMoreTallied(merged[name], entries, entry, name);
      } else {
        assert forall e :: e in entries ==> e.name != name;
        assert entry in entries + [entry];
      }
    }
  }

  lemma OneMoreTallied(tally: Tally, entries: seq<Entry>, entry: Entry, name: string)
    requires Tallies(tally, entries, name)
    ensures Tallies(if entry.name == name
                    then Tally(Max(tally.count, entry.count), Max(tally.orderWeight, entry.orderWeight))
                    else tally, entries + [entry], name)
  {
    var c :| c in entries && c.name == name && c.count == tally.count;
    var w :| w in entries && w.name == name && w.orderWeight == tally.orderWeight;
    assert c in entries + [entry] && w in entries + [entry] && entry in entries + [entry];
    assert forall e :: e in entries + [entry] <==> e in entries || e == entry;
  }

  lemma TallyUnique(tally: Tally, other: Tally, entries: seq<Entry>, permuted: seq<Entry>, name: string)
    requires Tallies(tally, entries, name) && Tallies(other, permuted, name)
    requires forall e :: e in entries <==> e in permuted
    ensures tally == other
  {
    var c :| c in entries && c.name == name && c.count == tally.count;
    var d :| d in permuted && d.name == name && d.count == other.count;
    var w :| w in entries && w.name == name && w.orderWeight == tally.orderWeight;
    var x :| x in permuted && x.name == name && x.orderWeight == other.orderWeight;
    assert c in permuted && d in entries && w in permuted && x in entries;
  }

  /** What merges a list is fixed by which entries it has, in whatever order. */
  lemma MergeUnique(merged: map<string, Tally>, other: map<string, Tally>, entries: seq<Entry>, permuted: seq<Entry>)
    requires Merges(merged, entries) && Merges(other, permuted)
    requires forall e :: e in entries <==> e in permuted
    ensures merged == other
  {
    forall name ensures name in merged <==> name in other {
      if name in merged { assert HasCount(entries, name, merged[name].count); }
      if name in other { assert HasCount(permuted, name, other[name].count); }
    }
    forall name | name in merged ensures merged[name] == other[name] {
      TallyUnique(merged[name], other[name], entries, permuted, name);
    }
  }

  // ----- The ranking key

  /** The dataclass order: field by field, strings by code point. */
  predicate Before(x: RankedLemma, y: RankedLemma) {
    if x.fragment != y.fragment then x.fragment < y.fragment
    else if x.dist != y.dist then x.dist < y.dist
    else if x.ratio != y.ratio then x.ratio < y.ratio
    else if x.normLen != y.normLen then x.normLen < y.normLen
    else if x.norm != y.norm then AtMost(x.norm, y.norm)
    else AtMost(x.name, y.name)
  }

  lemma BeforeTotal(x: RankedLemma, y: RankedLemma)
    ensures Before(x, y) || Before(y, x)
    ensures Before(x, y) && Before(y, x) ==> x == y
  {
    AtMostTotal(x.norm, y.norm);
    AtMostTotal(x.name, y.name);
  }

  lemma BeforeTransitive(x: RankedLemma, y: RankedLemma, z: RankedLemma)
    requires Before(x, y) && Before(y, z)
    ensures Before(x, z)
  {
    AtMostTotal(x.norm, y.norm);
    AtMostTotal(y.norm, z.norm);
    if AtMost(x.norm, y.norm) && AtMost(y.norm, z.norm) { AtMostTransitive(x.norm, y.norm, z.norm); }
    if AtMost(x.name, y.name) && AtMost(y.name, z.name) { AtMostTransitive(x.name, y.name, z.name); }
  }

  // ----- Sorting

  ghost predicate Ordered(ranked: seq<RankedLemma>) {
    forall i, j :: 0 <= i < j < |ranked| ==> Before(ranked[i], ranked[j])
  }

  function Place(x: RankedLemma, ranked: seq<RankedLemma>): (r: seq<RankedLemma>)
    ensures multiset(r) == multiset(ranked) + multiset{x}
  {
    if ranked == [] then [x]
    else if Before(x, ranked[0]) then
      assert [x] + ranked == [x] + ranked;
      [x] + ranked
    else
      assert ranked == [ranked[0]] + ranked[1..];
      [ranked[0]] + Place(x, ranked[1..])
  }

  lemma {:induction false} PlaceKeepsOrder(x: RankedLemma, ranked: seq<RankedLemma>)
    requires Ordered(ranked)
    ensures Ordered(Place(x, ranked))
  {
    if ranked != [] {
      if Before(x, ranked[0]) {
        forall i | 0 <= i < |ranked| ensures Before(x, ranked[i]) {
          if i > 0 { BeforeTransitive(x, ranked[0], ranked[i]); }
        }
      } else {
        PlaceKeepsOrder(x, ranked[1..]);
        BeforeTotal(x, ranked[0]);
        var tail := Place(x, ranked[1..]);
        forall t | t in tail ensures Before(ranked[0], t) {
          assert t in multiset(tail);
          assert t == x || t in ranked[1..];
        }
      }
    }
  }

  /** `ranked.sort()` */
  method SortRanked(ranked: seq<RankedLemma>) returns (sorted: seq<RankedLemma>)
    ensures multiset(sorted) == multiset(ranked)
    ensures Ordered(sorted)
  {
    sorted := [];
    for i := 0 to |ranked|
      invariant multiset(sorted) == multiset(ranked[..i])
      invariant Ordered(sorted)
    {
      assert ranked[..i + 1] == ranked[..i] + [ranked[i]];
      PlaceKeepsOrder(ranked[i], sorted);
      sorted := Place(ranked[i], sorted);
    }
    assert ranked[..|ranked|] == ranked;
  }

  // ----- Ranking

  function Penalty(name: string): int {
    if name != "" && (name[0] == '.' || name[|name| - 1] == '.') then 1 else 0
  }

  ghost function Total(merged: map<string, Tally>): int {
    if merged == map[] then 0
    else
      var name :| name in merged;
      merged[name].count + Total(merged - {name})
  }

  /** The total does not depend on the order in which it is added up. */
  lemma {:induction false} TotalTakes(merged: map<string, Tally>, name: string)
    requires name in merged
    ensures Total(merged) == merged[name].count + Total(merged - {name})
    decreases |merged|
  {
    var first :| first in merged && Total(merged) == merged[first].count + Total(merged - {first});
    if first != name {
      TotalTakes(merged - {first}, name);
      assert merged - {first} - {name} == merged - {name} - {first};
      TotalTakes(merged - {name}, first);
    }
  }

  function RatioOf(count: int, total: int): real {
    if total != 0 then count as real / total as real else 0.0
  }

  ghost function KeyOf(normalize: string -> string, query: string, merged: map<string, Tally>,
                       name: string): RankedLemma
    requires name in merged
  {
    RankedLemma(Penalty(name), Distance(normalize(name), normalize(query)),
                -RatioOf(merged[name].count, Total(merged)), |normalize(name)|, normalize(name), name)
  }

  /** A list of all the merged lemmas, each once, in strictly ascending key order. */
  ghost predicate Ranking(normalize: string -> string, query: string, merged: map<string, Tally>, names: seq<string>) {
    && (forall name :: name in merged <==> name in names)
    && (forall i, j :: 0 <= i < j < |names| ==>
          && names[i] != names[j]
          && Before(KeyOf(normalize, query, merged, names[i]), KeyOf(normalize, query, merged, names[j])))
  }

  /** Keys are told apart by their lemmas, so a ranking's order is strict and there is only one. */
  lemma {:induction false} RankingUnique(
    normalize: string -> string, query: string, merged: map<string, Tally>, names: seq<string>, other: seq<string>)
    requires Ranking(normalize, query, merged, names) && Ranking(normalize, query, merged, other)
    ensures names == other
  {
    SameLength(names, other);
    forall i | 0 <= i < |names| ensures names[i] == other[i] {
      RankedAlike(normalize, query, merged, names, other, i);
    }
  }

  lemma SameLength(names: seq<string>, other: seq<string>)
    requires forall i, j :: 0 <= i < j < |names| ==> names[i] != names[j]
    requires forall i, j :: 0 <= i < j < |other| ==> other[i] != other[j]
    requires forall name :: name in names <==> name in other
    ensures |names| == |other|
  {
    DistinctSize(names);
    DistinctSize(other);
    assert (set name | name in names) == (set name | name in other);
  }

  lemma {:induction false} DistinctSize(names: seq<string>)
    requires forall i, j :: 0 <= i < j < |names| ==> names[i] != names[j]
    ensures |set name | name in names| == |names|
  {
    if names != [] {
      var init, last := names[..|names| - 1], names[|names| - 1];
      DistinctSize(init);
      assert last !in init;
      assert (set name | name in names) == (set name | name in init) + {last};
    }
  }

  /** The least key not yet listed is the next one, in either ranking. */
  lemma {:induction false} RankedAlike(
    normalize: string -> string, query: string, merged: map<string, Tally>, names: seq<string>, other: seq<string>,
    i: nat)
    requires Ranking(normalize, query, merged, names) && Ranking(normalize, query, merged, other)
    requires i < |names| == |other|
    ensures names[i] == other[i]
    decreases i
  {
    forall k | 0 <= k < i ensures names[k] == other[k] {
      RankedAlike(normalize, query, merged, names, other, k);
    }
    assert names[i] in other && other[i] in names;
    var j :| 0 <= j < |other| && other[j] == names[i];
    var k :| 0 <= k < |names| && names[k] == other[i];
    assert j >= i && k >= i;
    BeforeTotal(KeyOf(normalize, query, merged, names[i]), KeyOf(normalize, query, merged, other[i]));
  }

  /** `_rank_word_list`, taking the dictionary's items in whatever order it holds them. */
  method RankWordList(normalize: string -> string, query: string, merged: map<string, Tally>)
    returns (names: seq<string>, freqs: map<string, int>)
    ensures Ranking(normalize, query, merged, names)
    ensures freqs == map name | name in merged :: merged[name].count
  {
    hide Keyed, Ordered;
    var ranked := KeysOf(normalize, query, merged);
    var sorted := SortRanked(ranked);
    names := seq(|sorted|, i requires 0 <= i < |sorted| => sorted[i].name);
    SortedIsRanking(normalize, query, merged, ranked, sorted, names);
    freqs := map name | name in merged :: merged[name].count;
  }

  method KeysOf(normalize: string -> string, query: string, merged: map<string, Tally>)
    returns (ranked: seq<RankedLemma>)
    ensures Keyed(normalize, query, merged, ranked, merged.Keys)
  {
    var target := normalize(query);
    var total := SumCounts(merged);
    ranked := [];
    var rest := merged.Keys;
    while rest != {}
      invariant rest <= merged.Keys
      invariant Keyed(normalize, query, merged, ranked, merged.Keys - rest)
    {
      hide Keyed;
      var name :| name in rest;
      var norm := normalize(name);
      var dist := Levenshtein(norm, target);
      var key := RankedLemma(Penalty(name), dist, -RatioOf(merged[name].count, total), |norm|, norm, name);
      KeyOneMore(normalize, query, merged, ranked, merged.Keys - rest, name);
      ranked := ranked + [key];
      assert merged.Keys - (rest - {name}) == merged.Keys - rest + {name};
      rest := rest - {name};
    }
    assert merged.Keys - {} == merged.Keys;
  }

  /** A list of the keys of some lemmas, each once. */
  ghost predicate Keyed(
    normalize: string -> string, query: string, merged: map<string, Tally>, ranked: seq<RankedLemma>,
    names: set<string>)
  {
    && names <= merged.Keys
    && (forall x :: x in multiset(ranked) <==> x.name in names && x == KeyOf(normalize, query, merged, x.name))
    && (forall x :: multiset(ranked)[x] <= 1)
  }

  lemma KeyOneMore(
    normalize: string -> string, query: string, merged: map<string, Tally>, ranked: seq<RankedLemma>,
    names: set<string>,
    name: string)
    requires Keyed(normalize, query, merged, ranked, names) && name in merged && name !in names
    ensures Keyed(normalize, query, merged, ranked + [KeyOf(normalize, query, merged, name)], names + {name})
  {
    var key := KeyOf(normalize, query, merged, name);
    assert multiset(ranked + [key]) == multiset(ranked) + multiset{key};
    assert key !in multiset(ranked);
  }

  lemma SortedIsRanking(
    normalize: string -> string, query: string, merged: map<string, Tally>, ranked: seq<RankedLemma>,
    sorted: seq<RankedLemma>, names: seq<string>)
    requires Keyed(normalize, query, merged, ranked, merged.Keys)
    requires multiset(sorted) == multiset(ranked) && Ordered(sorted)
    requires |names| == |sorted| && forall i :: 0 <= i < |sorted| ==> names[i] == sorted[i].name
    ensures Ranking(normalize, query, merged, names)
  {
    forall i | 0 <= i < |sorted|
      ensures names[i] in merged && sorted[i] == KeyOf(normalize, query, merged, names[i])
    {
      assert sorted[i] in multiset(sorted);
    }
    forall name | name in merged ensures name in names {
      var key := KeyOf(normalize, query, merged, name);
      assert key in multiset(sorted);
      var i :| 0 <= i < |sorted| && sorted[i] == key;
      assert names[i] == name;
    }
    forall i, j | 0 <= i < j < |names| ensures names[i] != names[j] {
      AtMostOnce(sorted, i, j);
    }
  }

  lemma AtMostOnce(sorted: seq<RankedLemma>, i: nat, j: nat)
    requires i < j < |sorted| && multiset(sorted)[sorted[i]] <= 1
    ensures sorted[i] != sorted[j]
  {
    assert sorted == sorted[..j] + sorted[j..];
    assert sorted[..j][i] in multiset(sorted[..j]);
    assert sorted[j..][0] in multiset(sorted[j..]);
  }

  method SumCounts(merged: map<string, Tally>) returns (total: int)
    ensures total == Total(merged)
  {
    total := 0;
    var rest := merged;
    while rest != map[]
      invariant total + Total(rest) == Total(merged)
      decreases |rest|
    {
      var name :| name in rest;
      TotalTakes(rest, name);
      total := total + rest[name].count;
      rest := rest - {name};
    }
  }

  /** `_parse_word_list`, from the extracted entries on. */
  method ParseWordList(normalize: string -> string, query: string, entries: seq<Entry>, limit: Option<int>)
    returns (names: seq<string>, freqs: map<string, int>)
    ensures ListsWords(normalize, query, entries, limit, names, freqs)
  {
    var merged := MergeWordList(entries);
    var ranked, counts := RankWordList(normalize, query, merged);
    names := if limit.Some? && |ranked| > limit.value then SliceTo(ranked, limit.value) else ranked;
    freqs := map name | name in counts && name in names :: counts[name];
    assert Cut(merged, ranked, limit, names, freqs);
  }

  /** The first `limit` lemmas of the merged entries' ranking, with their counts. */
  ghost predicate ListsWords(
    normalize: string -> string, query: string, entries: seq<Entry>, limit: Option<int>, names: seq<string>,
    freqs: map<string, int>)
  {
    exists merged, ranked ::
      Merges(merged, entries) && Ranking(normalize, query, merged, ranked) && Cut(merged, ranked, limit, names, freqs)
  }

  /** `ranked[:limit]`, and the counts of what is left. */
  ghost predicate Cut(
    merged: map<string, Tally>, ranked: seq<string>, limit: Option<int>, names: seq<string>, freqs: map<string, int>)
  {
    && names == (if limit.Some? then SliceTo(ranked, limit.value) else ranked)
    && freqs == map name | name in merged && name in names :: merged[name].count
  }

  /** The order of the entries does not matter: permuted entries give the same list and counts. */
  lemma WordListOrderIndependent(
    normalize: string -> string, query: string, entries: seq<Entry>, permuted: seq<Entry>, limit: Option<int>,
    names: seq<string>, freqs: map<string, int>, otherNames: seq<string>, otherFreqs: map<string, int>)
    requires multiset(entries) == multiset(permuted)
    requires ListsWords(normalize, query, entries, limit, names, freqs)
    requires ListsWords(normalize, query, permuted, limit, otherNames, otherFreqs)
    ensures names == otherNames && freqs == otherFreqs
  {
    hide Merges, Ranking;
    var merged: map<string, Tally>, ranked: seq<string> :|
      Merges(merged, entries) && Ranking(normalize, query, merged, ranked) && Cut(merged, ranked, limit, names, freqs);
    var other: map<string, Tally>, otherRanked: seq<string> :|
      Merges(other, permuted) && Ranking(normalize, query, other, otherRanked)
      && Cut(other, otherRanked, limit, otherNames, otherFreqs);
    forall e ensures e in entries <==> e in permuted {
      assert e in multiset(entries) <==> e in multiset(permuted);
    }
    MergeUnique(merged, other, entries, permuted);
    RankingUnique(normalize, query, merged, ranked, otherRanked);
  }
}
