/** Sampling cards for the message of the day evenly over the languages. */
module Sampling {
  import opened Splitting

  /** `content` stands for the rest of the card. */
  datatype Card = Card(language: string, query: string, score: int, content: string)

  const LANGUAGES: seq<string> := ["san", "grc", "lat"]

  /** The cards of a language, in their order. */
  function Of(cards: seq<Card>, language: string): (r: seq<Card>)
    ensures |r| <= |cards|
  {
    if cards == [] then []
    else
      var before := Of(cards[..|cards| - 1], language);
      var last := cards[|cards| - 1];
      if last.language == language then before + [last] else before
  }

  /** A ranking only puts cards in some order. */
  ghost predicate Ranks(rank: seq<Card> -> seq<Card>) {
    forall cards :: multiset(rank(cards)) == multiset(cards)
  }

  function Groups(cards: seq<Card>, rank: seq<Card> -> seq<Card>): (groups: seq<seq<Card>>)
    ensures |groups| == |LANGUAGES|
    ensures forall j :: 0 <= j < |groups| ==> groups[j] == rank(Of(cards, LANGUAGES[j]))
  {
    seq(|LANGUAGES|, j requires 0 <= j < |LANGUAGES| => rank(Of(cards, LANGUAGES[j])))
  }

  // ----- Dealing row by row

  function Cell(groups: seq<seq<Card>>, r: nat, j: nat): seq<Card>
    requires j < |groups|
  {
    if r < |groups[j]| then [groups[j][r]] else []
  }

  /** What has been dealt when `r` rows are complete, and the first `i` groups have had their turn in the next. */
  function Dealt(groups: seq<seq<Card>>, r: nat, i: nat): seq<Card>
    requires i <= |groups|
    decreases r, i
  {
    if i > 0 then Dealt(groups, r, i - 1) + Cell(groups, r, i - 1)
    else if r > 0 then Dealt(groups, r - 1, |groups|)
    else []
  }

  function Longest(groups: seq<seq<Card>>): (n: nat)
    ensures forall j :: 0 <= j < |groups| ==> |groups[j]| <= n
  {
    if groups == [] then 0
    else
      var last := |groups| - 1;
      var n := Longest(groups[..last]);
      assert forall j :: 0 <= j < last ==> groups[..last][j] == groups[j];
      if |groups[last]| > n then |groups[last]| else n
  }

  function DealtAll(groups: seq<seq<Card>>): seq<Card> {
    Dealt(groups, Longest(groups), 0)
  }

  /** A sample takes the cards in the order in which they are dealt. */
  function Sample(cards: seq<Card>, rank: seq<Card> -> seq<Card>, count: int): seq<Card> {
    First(DealtAll(Groups(cards, rank)), count)
  }

  function Min(a: nat, b: nat): nat {
    if a < b then a else b
  }

  /** How many cards of group `j` have been dealt. */
  function Turns(groups: seq<seq<Card>>, r: nat, i: nat, j: nat): nat
    requires j < |groups|
  {
    Min(|groups[j]|, if j < i then r + 1 else r)
  }

  lemma {:induction false} DealtGrows(groups: seq<seq<Card>>, r: nat, i: nat, s: nat, k: nat)
    requires i <= |groups| && k <= |groups| && (r < s || (r == s && i <= k))
    ensures Dealt(groups, r, i) <= Dealt(groups, s, k)
    decreases s, k
  {
    if r != s || i != k {
      if k > 0 {
        DealtGrows(groups, r, i, s, k - 1);
      } else {
        DealtGrows(groups, r, i, s - 1, |groups|);
      }
    }
  }

  // ----- The code

  /** What is left of the groups at a turn. */
  ghost predicate Left(rest: seq<seq<Card>>, groups: seq<seq<Card>>, r: nat, i: nat) {
    |rest| == |groups| && forall j :: 0 <= j < |groups| ==> rest[j] == groups[j][Turns(groups, r, i, j)..]
  }

  lemma TakesTurn(rest: seq<seq<Card>>, groups: seq<seq<Card>>, r: nat, i: nat)
    requires i < |groups| && Left(rest, groups, r, i)
    ensures rest[i] == [] ==> Left(rest, groups, r, i + 1) && Cell(groups, r, i) == []
    ensures rest[i] != [] ==> Left(rest[i := rest[i][1..]], groups, r, i + 1) && Cell(groups, r, i) == [rest[i][0]]
  {
  }

  lemma RowDone(rest: seq<seq<Card>>, groups: seq<seq<Card>>, r: nat)
    requires Left(rest, groups, r, |groups|)
    ensures Left(rest, groups, r + 1, 0) && Dealt(groups, r + 1, 0) == Dealt(groups, r, |groups|)
  {
  }

  /** A row that dealt nothing was past the longest group. */
  lemma {:induction false} EmptyRow(groups: seq<seq<Card>>, r: nat, i: nat)
    requires i <= |groups|
    ensures |Dealt(groups, r, 0)| <= |Dealt(groups, r, i)|
    ensures |Dealt(groups, r, i)| == |Dealt(groups, r, 0)| ==> forall j :: 0 <= j < i ==> |groups[j]| <= r
  {
    if i > 0 {
      EmptyRow(groups, r, i - 1);
    }
  }

  lemma {:induction false} LongestBelow(groups: seq<seq<Card>>, r: nat)
    requires forall j :: 0 <= j < |groups| ==> |groups[j]| <= r
    ensures Longest(groups) <= r
  {
    if groups != [] {
      LongestBelow(groups[..|groups| - 1], r);
    }
  }

  lemma {:induction false} NothingPastLongest(groups: seq<seq<Card>>, r: nat, i: nat)
    requires i <= |groups| && Longest(groups) <= r
    ensures Dealt(groups, r, i) == DealtAll(groups)
    decreases r, i
  {
    if i > 0 {
      NothingPastLongest(groups, r, i - 1);
    } else if r > Longest(groups) {
      NothingPastLongest(groups, r - 1, |groups|);
    }
  }

  lemma DealtIsPrefix(groups: seq<seq<Card>>, r: nat, i: nat)
    requires i <= |groups|
    ensures Dealt(groups, r, i) <= DealtAll(groups)
  {
    if r < Longest(groups) {
      DealtGrows(groups, r, i, Longest(groups), 0);
    } else {
      NothingPastLongest(groups, r, i);
    }
  }

  lemma StartsDealing(groups: seq<seq<Card>>)
    ensures Dealt(groups, 0, 0) == [] && Left(groups, groups, 0, 0)
  {
  }

  /** `_sample_balanced_cards` */
  method SampleBalancedCards(cards: seq<Card>, rank: seq<Card> -> seq<Card>, count: int) returns (selected: seq<Card>)
    ensures selected == Sample(cards, rank, count)
  {
    hide Dealt, Left, Longest, Cell, Of, DealtAll, Groups;
    ghost var all := Groups(cards, rank);
    StartsDealing(all);
    var groups := Groups(cards, rank);
    ghost var r: nat := 0;
    selected := [];
    while |selected| < count
      invariant selected == Dealt(all, r, 0) && Left(groups, all, r, 0) && |groups| == |all| == |LANGUAGES|
      invariant |selected| <= count || count <= 0 == |selected|
      decreases count - |selected|
    {
      var before := |selected|;
      var i := 0;
      while i < |LANGUAGES|
        invariant i <= |LANGUAGES| == |all| == |groups|
        invariant selected == Dealt(all, r, i) && Left(groups, all, r, i) && before <= |selected| < count
      {
        TakesTurn(groups, all, r, i);
        DealtOne(all, r, i);
        if groups[i] != [] {
          selected := selected + [groups[i][0]];
          groups := groups[i := groups[i][1..]];
          if |selected| >= count {
            DealtIsPrefix(all, r, i + 1);
            return;
          }
        }
        i := i + 1;
      }
      RowDone(groups, all, r);
      if |selected| == before {
        EmptyRow(all, r, |all|);
        LongestBelow(all, r);
        NothingPastLongest(all, r, |all|);
        return;
      }
      r := r + 1;
    }
    DealtIsPrefix(all, r, 0);
  }

  lemma DealtOne(groups: seq<seq<Card>>, r: nat, i: nat)
    requires i < |groups|
    ensures Dealt(groups, r, i + 1) == Dealt(groups, r, i) + Cell(groups, r, i)
  {
  }

  // ----- What a sample is

  lemma OfJoins(cards: seq<Card>, more: seq<Card>, language: string)
    requires |more| <= 1
    ensures Of(cards + more, language) == Of(cards, language) + Of(more, language)
  {
    if more == [] {
      assert cards + more == cards;
    } else {
      assert (cards + more)[..|cards|] == cards && more[..0] == [];
      assert Of(more, language) == if more[0].language == language then more else [];
    }
  }

  /** Group `j` holds cards of language `j` only. */
  ghost predicate Sorted(groups: seq<seq<Card>>) {
    |groups| == |LANGUAGES|
    && forall j, k :: 0 <= j < |groups| && 0 <= k < |groups[j]| ==> groups[j][k].language == LANGUAGES[j]
  }

  lemma LanguagesDiffer()
    ensures forall j, k :: 0 <= j < k < |LANGUAGES| ==> LANGUAGES[j] != LANGUAGES[k]
  {
    assert LANGUAGES[0][0] == 's' && LANGUAGES[1][0] == 'g' && LANGUAGES[2][0] == 'l';
  }

  lemma CellOf(groups: seq<seq<Card>>, r: nat, i: nat, j: nat)
    requires Sorted(groups) && i < |groups| && j < |groups|
    ensures Of(Cell(groups, r, i), LANGUAGES[j]) == if i == j then Cell(groups, r, i) else []
  {
    LanguagesDiffer();
    var cell := Cell(groups, r, i);
    if cell != [] {
      assert cell[..0] == [];
      assert Of(cell, LANGUAGES[j]) == if cell[0].language == LANGUAGES[j] then cell else [];
    }
  }

  /** At any turn, each language has been dealt the first cards of its group. */
  lemma {:induction false} DealtOf(groups: seq<seq<Card>>, r: nat, i: nat, j: nat)
    requires Sorted(groups) && i <= |groups| == |LANGUAGES| && j < |groups|
    ensures Of(Dealt(groups, r, i), LANGUAGES[j]) == groups[j][..Turns(groups, r, i, j)]
    decreases r, i
  {
    hide Of, Sorted;
    if i > 0 {
      DealtOf(groups, r, i - 1, j);
      OfJoins(Dealt(groups, r, i - 1), Cell(groups, r, i - 1), LANGUAGES[j]);
      CellOf(groups, r, i - 1, j);
      if i - 1 == j && r < |groups[j]| {
        assert groups[j][..r] + [groups[j][r]] == groups[j][..r + 1];
      }
    } else if r > 0 {
      DealtOf(groups, r - 1, |groups|, j);
    } else {
      assert groups[j][..0] == [];
      assert Of([], LANGUAGES[j]) == [] by { OfNothing(LANGUAGES[j]); }
    }
  }

  lemma OfNothing(language: string)
    ensures Of([], language) == []
  {
  }

  /** Every number of cards is reached at some turn. */
  lemma {:induction false} SomeTurn(groups: seq<seq<Card>>, r: nat, i: nat, m: nat) returns (s: nat, k: nat)
    requires i <= |groups| && m <= |Dealt(groups, r, i)|
    ensures k <= |groups| && Dealt(groups, s, k) == Dealt(groups, r, i)[..m]
    decreases r, i
  {
    if m == |Dealt(groups, r, i)| {
      s, k := r, i;
      assert Dealt(groups, r, i)[..m] == Dealt(groups, r, i);
    } else if i > 0 {
      s, k := SomeTurn(groups, r, i - 1, m);
      assert Dealt(groups, r, i)[..m] == Dealt(groups, r, i - 1)[..m];
    } else {
      s, k := SomeTurn(groups, r - 1, |groups|, m);
    }
  }

  lemma OfLanguage(cards: seq<Card>, language: string)
    ensures forall k :: 0 <= k < |Of(cards, language)| ==> Of(cards, language)[k].language == language
    ensures forall c :: multiset(Of(cards, language))[c] == if c.language == language then multiset(cards)[c] else 0
  {
    if cards != [] {
      OfLanguage(cards[..|cards| - 1], language);
      assert cards == cards[..|cards| - 1] + [cards[|cards| - 1]];
    }
  }

  lemma GroupsSorted(cards: seq<Card>, rank: seq<Card> -> seq<Card>)
    requires Ranks(rank)
    ensures Sorted(Groups(cards, rank))
  {
    hide Of;
    var groups: seq<seq<Card>> := Groups(cards, rank);
    forall j: nat, k: nat | 0 <= j < |groups| && 0 <= k < |groups[j]|
      ensures groups[j][k].language == LANGUAGES[j]
    {
      var mine := Of(cards, LANGUAGES[j]);
      OfLanguage(cards, LANGUAGES[j]);
      assert multiset(groups[j]) == multiset(mine);
      assert groups[j][k] in multiset(groups[j]);
      assert groups[j][k] in mine;
    }
  }

  /** Dealing everything gives each card of a supported language once, and no other card. */
  lemma DealtAllCards(cards: seq<Card>, rank: seq<Card> -> seq<Card>, c: Card)
    requires Ranks(rank)
    ensures multiset(DealtAll(Groups(cards, rank)))[c] == if c.language in LANGUAGES then multiset(cards)[c] else 0
  {
    hide Of, Dealt;
    var groups := Groups(cards, rank);
    var all := DealtAll(groups);
    GroupsSorted(cards, rank);
    if c.language in LANGUAGES {
      var j :| 0 <= j < |LANGUAGES| && LANGUAGES[j] == c.language;
      DealtOf(groups, Longest(groups), 0, j);
      assert groups[j][..|groups[j]|] == groups[j];
      OfLanguage(all, c.language);
      OfLanguage(cards, c.language);
      assert multiset(groups[j]) == multiset(Of(cards, c.language));
    } else {
      DealtSupported(groups, Longest(groups), 0);
      assert c !in all;
    }
  }

  lemma {:induction false} DealtSupported(groups: seq<seq<Card>>, r: nat, i: nat)
    requires Sorted(groups) && i <= |groups|
    ensures forall c :: c in Dealt(groups, r, i) ==> c.language in LANGUAGES
    decreases r, i
  {
    if i > 0 {
      DealtSupported(groups, r, i - 1);
      forall c | c in Cell(groups, r, i - 1) ensures c.language in LANGUAGES {
        assert c.language == LANGUAGES[i - 1];
      }
    } else if r > 0 {
      DealtSupported(groups, r - 1, |groups|);
    }
  }

  /**
   * Each language contributes the first cards of its ranking, no language more than one card less than
   * another unless all its cards are in.
   */
  lemma SampleIsBalanced(cards: seq<Card>, rank: seq<Card> -> seq<Card>, count: int, j: nat, k: nat)
    requires Ranks(rank) && j < |LANGUAGES| && k < |LANGUAGES|
    ensures var sample := Sample(cards, rank, count);
      var mine := Of(sample, LANGUAGES[j]); var ranking := rank(Of(cards, LANGUAGES[j]));
      mine <= ranking && (mine == ranking || |Of(sample, LANGUAGES[k])| <= |mine| + 1)
  {
    hide Of, Dealt, Longest;
    var groups := Groups(cards, rank);
    var all := DealtAll(groups);
    GroupsSorted(cards, rank);
    var sample := Sample(cards, rank, count);
    assert sample == all[..|sample|];
    var r, i := SomeTurn(groups, Longest(groups), 0, |sample|);
    DealtOf(groups, r, i, j);
    DealtOf(groups, r, i, k);
    assert groups[j][..|groups[j]|] == groups[j];
  }

  /** One card more leaves the sample as it was, and adds a card while there are any. */
  lemma SampleExtends(cards: seq<Card>, rank: seq<Card> -> seq<Card>, count: int)
    ensures Sample(cards, rank, count) <= Sample(cards, rank, count + 1)
    ensures |Sample(cards, rank, count)| == if count <= 0 then 0 else Min(count, |DealtAll(Groups(cards, rank))|)
  {
    hide DealtAll, Groups;
  }

  /**
   In the order Sanskrit, Greek, Latin: no later language is ahead of an earlier one that has cards left, and an
   earlier one is at most a card ahead of a later one that has.
   */
  lemma SampleTakesTurns(cards: seq<Card>, rank: seq<Card> -> seq<Card>, count: int)
    requires Ranks(rank)
    ensures var sample := Sample(cards, rank, count);
      var san, grc, lat := Of(sample, "san"), Of(sample, "grc"), Of(sample, "lat");
      && (san == rank(Of(cards, "san")) || (|san| >= |grc| && |san| >= |lat|))
      && (grc == rank(Of(cards, "grc")) || (|san| <= |grc| + 1 && |grc| >= |lat|))
      && (lat == rank(Of(cards, "lat")) || (|san| <= |lat| + 1 && |grc| <= |lat| + 1))
  {
    hide Of, Dealt, Longest;
    var groups := Groups(cards, rank);
    var all := DealtAll(groups);
    GroupsSorted(cards, rank);
    var sample := Sample(cards, rank, count);
    assert sample == all[..|sample|];
    var r, i := SomeTurn(groups, Longest(groups), 0, |sample|);
    assert LANGUAGES[0] == "san" && LANGUAGES[1] == "grc" && LANGUAGES[2] == "lat";
    forall j: nat | j < 3 ensures groups[j][..|groups[j]|] == groups[j] {
    }
    DealtOf(groups, r, i, 0);
    DealtOf(groups, r, i, 1);
    DealtOf(groups, r, i, 2);
  }

  /** The sample of everything has each card of these three languages as often as the pool, and no other. */
  lemma AllThreeLanguages(cards: seq<Card>, rank: seq<Card> -> seq<Card>, c: Card)
    requires Ranks(rank)
    ensures multiset(DealtAll(Groups(cards, rank)))[c] ==
      if c.language == "san" || c.language == "grc" || c.language == "lat" then multiset(cards)[c] else 0
  {
    hide DealtAll, Groups;
    DealtAllCards(cards, rank, c);
    assert LANGUAGES[0] == "san" && LANGUAGES[1] == "grc" && LANGUAGES[2] == "lat" && |LANGUAGES| == 3;
  }
}
