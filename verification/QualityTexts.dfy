/** Two texts at the ends of the range of learner quality, and what lead in rank outweighs them. */
module QualityTexts {
  import opened TextQuality
  import opened LemmaRanking

  // ----- Texts put together from pieces

  function Text(pieces: seq<string>): string {
    if pieces == [] then "" else pieces[0] + Text(pieces[1..])
  }

  predicate Lack(pieces: seq<string>, c: char) {
    forall i :: 0 <= i < |pieces| ==> c !in pieces[i]
  }

  lemma {:induction false} TextLacks(pieces: seq<string>, c: char)
    requires Lack(pieces, c)
    ensures c !in Text(pieces)
  {
    if pieces != [] {
      TextLacks(pieces[1..], c);
    }
  }

  lemma LacksPattern(pieces: seq<string>, sub: string, c: char)
    requires Lack(pieces, c) && c in sub
    ensures !Contains(Text(pieces), sub)
  {
    TextLacks(pieces, c);
    if Contains(Text(pieces), sub) {
      ContainsChar(Text(pieces), sub, c);
    }
  }

  lemma {:induction false} TextSplits(pieces: seq<string>, i: nat)
    requires i < |pieces|
    ensures Text(pieces) == Text(pieces[..i]) + pieces[i] + Text(pieces[i + 1..])
  {
    if i == 0 {
      assert pieces[..0] == [];
    } else {
      TextSplits(pieces[1..], i - 1);
      assert pieces[1..][..i - 1] == pieces[..i][1..] && pieces[1..][i..] == pieces[i + 1..];
    }
  }

  lemma ContainsPiece(pieces: seq<string>, i: nat)
    requires i < |pieces|
    ensures Contains(Text(pieces), pieces[i])
  {
    TextSplits(pieces, i);
    assert OccursAt(Text(pieces), pieces[i], |Text(pieces[..i])|);
  }

  /** The only `c` of the text is in piece `i`, and followed by something else than in the pattern. */
  lemma FollowedOtherwise(pieces: seq<string>, i: nat, before: string, c: char, after: string, sub: string, k: nat)
    requires i < |pieces| && pieces[i] == before + [c] + after && c !in before && c !in after
    requires forall j :: 0 <= j < |pieces| && j != i ==> c !in pieces[j]
    requires k + 1 < |sub| && sub[k] == c && after != "" && after[0] != sub[k + 1]
    ensures !Contains(Text(pieces), sub)
  {
    TextSplits(pieces, i);
    TextLacks(pieces[..i], c);
    TextLacks(pieces[i + 1..], c);
    var head, tail := Text(pieces[..i]) + before, after + Text(pieces[i + 1..]);
    assert Text(pieces) == head + [c] + tail;
    OnlyThere(head, c, tail, sub, k);
  }

  lemma OnlyThere(head: string, c: char, tail: string, sub: string, k: nat)
    requires c !in head && c !in tail && k + 1 < |sub| && sub[k] == c && tail != "" && tail[0] != sub[k + 1]
    ensures !Contains(head + [c] + tail, sub)
  {
    var text := head + [c] + tail;
    if i :| OccursAt(text, sub, i) {
      assert text[i..i + |sub|][k] == text[i + k] && text[i..i + |sub|][k + 1] == text[i + k + 1];
      assert i + k == |head|;
    }
  }

  lemma {:induction false} TextLengths(pieces: seq<string>, n: nat)
    requires forall i :: 0 <= i < |pieces| ==> |pieces[i]| <= n
    ensures |Text(pieces)| <= n * |pieces|
  {
    if pieces != [] {
      TextLengths(pieces[1..], n);
      assert n * |pieces| == n + n * (|pieces| - 1);
    }
  }

  // ----- Plain texts

  /** Printable ASCII without capitals, which casefolding leaves alone. */
  predicate PlainChar(c: char) {
    ' ' <= c <= '~' && !('A' <= c <= 'Z')
  }

  /** No two spaces stand together. */
  predicate SingleSpaced(s: string) {
    forall i :: 0 <= i < |s| - 1 && s[i] == ' ' ==> s[i + 1] != ' '
  }

  /** A text that casefolding and collapsing its spaces leave as it is, so that a bucket can have just it. */
  predicate Plain(text: string) {
    && text != "" && text[0] != ' ' && text[|text| - 1] != ' '
    && (forall c :: c in text ==> PlainChar(c)) && SingleSpaced(text)
  }

  lemma PlainIsCasefolded(text: string)
    requires Plain(text)
    ensures Casefolded(text)
  {
  }

  predicate PlainPiece(s: string) {
    s != "" && (forall c :: c in s ==> PlainChar(c)) && SingleSpaced(s)
  }

  /** Plain pieces that do not meet with two spaces. */
  predicate PlainPieces(pieces: seq<string>) {
    && (forall i :: 0 <= i < |pieces| ==> PlainPiece(pieces[i]))
    && (forall i :: 0 <= i < |pieces| - 1 && pieces[i + 1][0] == ' ' ==> pieces[i][|pieces[i]| - 1] != ' ')
  }

  lemma {:induction false} TextPlain(pieces: seq<string>)
    requires pieces != [] && PlainPieces(pieces)
    ensures var text, last := Text(pieces), pieces[|pieces| - 1];
      && PlainPiece(text) && text[0] == pieces[0][0] && text[|text| - 1] == last[|last| - 1]
  {
    hide PlainChar;
    if |pieces| == 1 {
      assert Text(pieces) == pieces[0] + Text([]) == pieces[0];
    } else {
      assert forall i :: 0 <= i < |pieces| - 1 ==> pieces[1..][i] == pieces[i + 1];
      TextPlain(pieces[1..]);
    }
  }

  /** A piece that is not a space by itself has none at its ends. */
  predicate SpaceOrWords(s: string) {
    PlainPiece(s) && (s == " " || (s[0] != ' ' && s[|s| - 1] != ' '))
  }

  /** Words and single spaces in turn are plain pieces. */
  lemma AlternatePlain(pieces: seq<string>)
    requires forall i :: 0 <= i < |pieces| ==> SpaceOrWords(pieces[i]) && (pieces[i] == " " <==> i % 2 == 1)
    ensures PlainPieces(pieces)
    ensures |pieces| % 2 == 1 ==>
              var last := pieces[|pieces| - 1]; pieces[0][0] != ' ' && last[|last| - 1] != ' '
  {
    hide PlainChar, SingleSpaced;
  }

  // ----- A text with every finding that demotes

  function Padding(): (s: string)
    ensures |s| == 180 && forall c :: c in s ==> c == 'm'
  {
    seq(180, _ => 'm')
  }

  function Cites(n: nat): (pieces: seq<string>)
    ensures |pieces| == n && forall i :: 0 <= i < n ==> pieces[i] == "cic. "
  {
    if n == 0 then [] else ["cic. "] + Cites(n - 1)
  }

  const MARKS: seq<string> := ["(cf.", " ", "[agt.", " ", "as used in comp", " ", "see p.", " ", "base of the cases"]

  function Demoted(): (pieces: seq<string>)
    ensures |pieces| == 17
    ensures forall i :: 0 <= i < 9 ==> pieces[7 + i] == MARKS[i]
    ensures forall i :: 0 <= i < 17 ==> pieces[i] in {"i. ", "cic. ", Padding()} || pieces[i] in MARKS
  {
    ["i. "] + Cites(6) + MARKS + [Padding()]
  }

  const DEMOTED_TOOLS := {"dico", "diogenes"}

  lemma MarkPieces(i: nat)
    requires i < 9
    ensures var s := MARKS[i]; 'r' !in s && 'v' !in s && 'y' !in s
  {
  }

  lemma MarkLetters(i: nat)
    requires i < 9
    ensures (i != 4 ==> 'd' !in MARKS[i]) && (i != 8 ==> 'h' !in MARKS[i])
  {
  }

  lemma DemotedPieces(i: nat)
    requires i < 17
    ensures var s := Demoted()[i];
      && 'r' !in s && 'v' !in s && 'y' !in s
      && (i != 11 ==> 'd' !in s) && (i != 15 ==> 'h' !in s)
  {
    hide Padding;
    if 7 <= i < 16 {
      MarkPieces(i - 7);
      MarkLetters(i - 7);
    } else {
      assert i < 7 ==> Demoted()[i] == if i == 0 then "i. " else "cic. ";
      assert i == 16 ==> Demoted()[i] == Padding();
    }
  }

  lemma DemotedHasMark(i: nat)
    requires i < 9
    ensures Contains(Text(Demoted()), MARKS[i])
  {
    hide Contains, Text;
    assert Demoted()[7 + i] == MARKS[i];
    hide Demoted;
    ContainsPiece(Demoted(), 7 + i);
  }

  lemma DemotedIsNotThou()
    ensures !Contains(Text(Demoted()), "thou")
  {
    hide Contains, Text;
    var pieces := Demoted();
    forall i | 0 <= i < 17 && i != 15 ensures 'h' !in pieces[i] {
      DemotedPieces(i);
    }
    assert pieces[7 + 8] == MARKS[8] == "base of t" + ['h'] + "e cases";
    hide Demoted;
    FollowedOtherwise(pieces, 15, "base of t", 'h', "e cases", "thou", 1);
  }

  lemma DemotedIsNotInd()
    ensures !Contains(Text(Demoted()), "ind.")
  {
    hide Contains, Text;
    var pieces := Demoted();
    forall i | 0 <= i < 17 && i != 11 ensures 'd' !in pieces[i] {
      DemotedPieces(i);
    }
    assert pieces[7 + 4] == MARKS[4] == "as use" + ['d'] + " in comp";
    hide Demoted;
    FollowedOtherwise(pieces, 11, "as use", 'd', " in comp", "ind.", 2);
  }

  lemma DemotedMarks()
    ensures var text := Text(Demoted());
      && Contains(text, "(cf.") && Contains(text, "[agt.")
      && Contains(text, "as used in comp") && Contains(text, "base of the cases")
      && !Contains(text, "thou") && !Contains(text, "ind.")
  {
    hide Contains, Text, Demoted;
    DemotedHasMark(0);
    DemotedHasMark(2);
    DemotedHasMark(4);
    DemotedHasMark(8);
    DemotedIsNotThou();
    DemotedIsNotInd();
  }

  lemma PieceSeesPage(classes: Classes, pieces: seq<string>, i: nat)
    requires Sane(classes) && 0 < i < |pieces| && pieces[i - 1] == " " && pieces[i] == "see p."
    ensures SeePage(classes, Text(pieces))
  {
    TextSplits(pieces, i);
    TextSplits(pieces[..i], i - 1);
    var before, tail := Text(pieces[..i]), Text(pieces[i + 1..]);
    assert pieces[..i][i..] == [] && pieces[..i][i - 1] == " ";
    assert before == Text(pieces[..i][..i - 1]) + " ";
    hide Text;
    SeesPageThere(classes, Text(pieces[..i][..i - 1]), tail);
  }

  lemma SeesPageThere(classes: Classes, head: string, tail: string)
    requires Sane(classes)
    ensures SeePage(classes, head + " " + "see p." + tail)
  {
    var text := head + " " + "see p." + tail;
    var i := |head| + 1;
    assert text[i - 1] == ' ' && text[i..i + 3] == "see" && text[i + 3..i + 4] == " ";
    assert text[i + 4..] == "p." + tail;
    assert SeePageAt(classes, text, i, i + 4);
  }

  lemma DemotedSeesPage(classes: Classes)
    requires Sane(classes)
    ensures SeePage(classes, Text(Demoted()))
  {
    hide Text, SeePage;
    assert Demoted()[12] == MARKS[5] && Demoted()[13] == MARKS[6];
    hide Demoted;
    PieceSeesPage(classes, Demoted(), 13);
  }

  lemma MarkerNeedsLetter(s: string)
    requires s != "" && (s[0] == ' ' || s[0] == '.' || s[0] == 'i')
    ensures MarkerLength(s) == 0
  {
  }

  lemma NoMarker(classes: Classes, inWord: bool, c: char, rest: string)
    requires c == ' ' || c == '.' || c == 'i'
    ensures Markers(classes, inWord, [c] + rest) == Markers(classes, classes.isWord(c), rest)
  {
    assert ([c] + rest)[1..] == rest;
    MarkerNeedsLetter([c] + rest);
    hide MarkerLength;
  }

  lemma OneMarker(classes: Classes, rest: string)
    requires Sane(classes)
    ensures Markers(classes, false, "cic." + rest) == 1 + Markers(classes, false, rest)
  {
    var s := "cic." + rest;
    assert Starts(s, "cic.") && s[4..] == rest;
    assert MarkerLength(s) == 4;
    hide MarkerLength;
  }

  lemma MarkerNext(classes: Classes, rest: string)
    requires Sane(classes)
    ensures Markers(classes, false, "cic. " + rest) == 1 + Markers(classes, false, rest)
  {
    hide Markers;
    assert "cic. " + rest == "cic." + ([' '] + rest);
    OneMarker(classes, [' '] + rest);
    NoMarker(classes, false, ' ', rest);
  }

  lemma MarkersBehindNumeral(classes: Classes, rest: string)
    requires Sane(classes)
    ensures Markers(classes, false, "i. " + rest) == Markers(classes, false, rest)
  {
    hide Markers;
    assert "i. " + rest == ['i'] + (['.'] + ([' '] + rest));
    NoMarker(classes, false, 'i', ['.'] + ([' '] + rest));
    NoMarker(classes, classes.isWord('i'), '.', [' '] + rest);
    NoMarker(classes, false, ' ', rest);
  }

  lemma {:induction false} CitedMarkers(classes: Classes, n: nat, rest: string)
    requires Sane(classes)
    ensures Markers(classes, false, Text(Cites(n)) + rest) == n + Markers(classes, false, rest)
  {
    hide Markers;
    if n == 0 {
      assert Text(Cites(0)) + rest == rest;
    } else {
      CitedMarkers(classes, n - 1, rest);
      assert Cites(n)[1..] == Cites(n - 1);
      assert Text(Cites(n)) + rest == "cic. " + (Text(Cites(n - 1)) + rest);
      MarkerNext(classes, Text(Cites(n - 1)) + rest);
    }
  }

  lemma {:induction false} TextJoins(first: seq<string>, second: seq<string>)
    ensures Text(first + second) == Text(first) + Text(second)
  {
    if first == [] {
      assert first + second == second;
    } else {
      assert (first + second)[1..] == first[1..] + second;
      TextJoins(first[1..], second);
    }
  }

  lemma CitedText(classes: Classes, n: nat, others: seq<string>)
    requires Sane(classes)
    ensures var text := Text(["i. "] + Cites(n) + others);
      Markers(classes, false, text) >= n && RomanPrefixTo(text, 1)
  {
    hide Markers, Cites;
    TextJoins(["i. "] + Cites(n), others);
    TextJoins(["i. "], Cites(n));
    assert ["i. "][1..] == [] && Text(["i. "]) == "i. ";
    hide Text;
    var rest := Text(Cites(n)) + Text(others);
    assert Text(["i. "] + Cites(n) + others) == "i. " + rest;
    MarkersBehindNumeral(classes, rest);
    CitedMarkers(classes, n, Text(others));
  }

  lemma DemotedIsCited(classes: Classes)
    requires Sane(classes)
    ensures Markers(classes, false, Text(Demoted())) >= 6
    ensures |Text(Demoted())| >= 180
    ensures exists n :: RomanPrefixTo(Text(Demoted()), n)
  {
    hide Markers, Text, Cites, Padding, RomanPrefixTo;
    assert Demoted() == ["i. "] + Cites(6) + (MARKS + [Padding()]);
    CitedText(classes, 6, MARKS + [Padding()]);
    TextSplits(Demoted(), 16);
  }

  lemma DemotedIsNoLabel(classes: Classes)
    requires Sane(classes)
    ensures !SectionLabel(classes, Text(Demoted()))
  {
    hide SectionLabel, Demoted, Text, Contains;
    DemotedMarks();
    ContainsChar(Text(Demoted()), "(cf.", '(');
    if SectionLabel(classes, Text(Demoted())) { LabelText(classes, Text(Demoted())); }
  }

  lemma DemotedLacks(sub: string, c: char)
    requires c in {'r', 'v', 'y'} && c in sub
    ensures !Contains(Text(Demoted()), sub)
  {
    hide Contains, Text;
    var pieces := Demoted();
    forall i | 0 <= i < |pieces| ensures c !in pieces[i] {
      DemotedPieces(i);
    }
    hide Demoted;
    LacksPattern(pieces, sub, c);
  }

  lemma DemotedHasNoMerit(classes: Classes)
    ensures var text := Text(Demoted());
      && !Contains(text, "you") && !Contains(text, "restraint of the mind") && !Contains(text, "positive duties")
      && !Contains(text, "agreement, contract, promise, vow") && !Observance(text) && !RuleOfNecessity(text)
      && !Pronoun(text) && !Auspicious(text, DEMOTED_TOOLS) && !VerbClass(classes, text, DEMOTED_TOOLS)
  {
    hide Contains, Text, Demoted;
    DemotedMarks();
    DemotedLacks("you", 'y');
    DemotedLacks("restraint of the mind", 'r');
    DemotedLacks("positive duties", 'v');
    DemotedLacks("agreement, contract, promise, vow", 'r');
    DemotedLacks("voluntary penance", 'v');
    DemotedLacks("religious observance", 'r');
    DemotedLacks("rule or law", 'r');
    DemotedLacks("2nd personal pron", 'r');
    DemotedLacks("second personal pron", 'r');
    DemotedLacks("part.", 'r');
    DemotedLacks("particle", 'r');
  }

  lemma MarkPlain(i: nat)
    requires i < 9
    ensures SpaceOrWords(MARKS[i]) && (MARKS[i] == " " <==> i % 2 == 1)
  {
  }

  lemma MarksPlain()
    ensures PlainPieces(MARKS) && MARKS[0][0] != ' ' && MARKS[8][|MARKS[8]| - 1] != ' '
  {
    hide SpaceOrWords, PlainPieces;
    forall i | 0 <= i < |MARKS| ensures SpaceOrWords(MARKS[i]) && (MARKS[i] == " " <==> i % 2 == 1) {
      MarkPlain(i);
    }
    AlternatePlain(MARKS);
  }

  lemma {:induction false} CitesPlain(n: nat)
    ensures PlainPieces(Cites(n))
  {
    assert "cic. "[0] == 'c' && PlainPiece("cic. ");
  }

  lemma PlainJoin(first: seq<string>, second: seq<string>)
    requires PlainPieces(first) && PlainPieces(second)
    requires first != [] && second != [] && second[0][0] != ' '
    ensures PlainPieces(first + second)
  {
    hide PlainPiece;
  }

  lemma DemotedPlain()
    ensures Plain(Text(Demoted()))
  {
    hide Text, PlainPieces, Cites, PlainChar;
    MarksPlain();
    CitesPlain(6);
    EndsPlain();
    PlainJoin(["i. "], Cites(6));
    PlainJoin(["i. "] + Cites(6), MARKS);
    PlainJoin(["i. "] + Cites(6) + MARKS, [Padding()]);
    TextPlain(Demoted());
  }

  lemma EndsPlain()
    ensures PlainPieces(["i. "]) && PlainPieces([Padding()])
  {
  }

  /** The text gets all the demerits there can be. */
  lemma DemotedQuality(classes: Classes)
    requires Sane(classes)
    ensures Plain(Text(Demoted())) && QualityOf(classes, Text(Demoted()), DEMOTED_TOOLS) == 290
  {
    hide Contains, Text, Demoted, Markers, HeaderFragment, SectionLabel, SeePage, Casefolded, Plain, RomanPrefixTo,
         Observance, RuleOfNecessity, Pronoun, Auspicious, VerbClass;
    DemotedPlain();
    PlainIsCasefolded(Text(Demoted()));
    NoHeader(Text(Demoted()));
    DemotedMarks();
    DemotedSeesPage(classes);
    DemotedIsCited(classes);
    DemotedIsNoLabel(classes);
    DemotedHasNoMerit(classes);
  }

  // ----- A text with merits only

  const PROMOTED: seq<string> :=
    ["cl.1 to celebrate", " ", "2nd personal pron", " ", "you", " ", "ind.", " ", "welfare"]
  const PROMOTED_TOOLS := {"cdsl"}

  lemma PromotedPieces(i: nat)
    requires i < 9
    ensures var s := PROMOTED[i]; 'g' !in s && 'h' !in s && 'm' !in s && '(' !in s
  {
  }

  lemma PromotedSmall(i: nat)
    requires i < 9
    ensures var s := PROMOTED[i]; |s| <= 17 && (i != 2 ==> 's' !in s)
  {
  }

  lemma PromotedLacks(sub: string, c: char)
    requires c in {'g', 'h', 'm', '('} && c in sub
    ensures !Contains(Text(PROMOTED), sub)
  {
    hide Contains, Text;
    var pieces := PROMOTED;
    forall i | 0 <= i < |pieces| ensures c !in pieces[i] {
      PromotedPieces(i);
    }
    LacksPattern(pieces, sub, c);
  }

  lemma ContainsAt(text: string, sub: string, i: int)
    requires OccursAt(text, sub, i)
    ensures Contains(text, sub)
  {
  }

  lemma PromotedStart()
    ensures var text := Text(PROMOTED);
      OccursAt(text, "cl.", 0) && OccursAt(text, " to ", 4) && OccursAt(text, "celebrate", 8) && text[3] == '1'
  {
    var first := PROMOTED[0];
    assert Text(PROMOTED) == first + Text(PROMOTED[1..]);
    assert first[..3] == "cl." && first[4..8] == " to " && first[8..17] == "celebrate";
    assert forall i, j :: 0 <= i <= j <= 17 ==> Text(PROMOTED)[i..j] == first[i..j];
  }

  lemma PromotedMerits(classes: Classes)
    requires Sane(classes)
    ensures var text := Text(PROMOTED);
      && |text| < 160 && ShortSing(text) && Pronoun(text) && Auspicious(text, PROMOTED_TOOLS)
      && VerbClass(classes, text, PROMOTED_TOOLS)
  {
    var pieces := PROMOTED;
    hide Contains, Text;
    forall i | 0 <= i < |pieces| ensures |pieces[i]| <= 17 {
      PromotedSmall(i);
    }
    TextLengths(pieces, 17);
    PromotedStart();
    ContainsAt(Text(pieces), " to ", 4);
    ContainsAt(Text(pieces), "celebrate", 8);
    assert VerbClassAt(classes, Text(pieces), 0, 3);
    ContainsPiece(pieces, 2);
    ContainsPiece(pieces, 4);
    ContainsPiece(pieces, 6);
    ContainsPiece(pieces, 8);
  }

  lemma PromotedSeesNoPage(classes: Classes)
    ensures !SeePage(classes, Text(PROMOTED))
  {
    var pieces := PROMOTED;
    hide Contains, Text;
    forall i | 0 <= i < |pieces| && i != 2 ensures 's' !in pieces[i] {
      PromotedSmall(i);
    }
    FollowedOtherwise(pieces, 2, "2nd per", 's', "onal pron", "see", 0);
    SeePageNeedsSee(classes, Text(pieces));
  }

  lemma SeePageNeedsSee(classes: Classes, text: string)
    ensures SeePage(classes, text) ==> Contains(text, "see")
  {
  }

  lemma PromotedIsNoLabel(classes: Classes)
    requires Sane(classes)
    ensures !SectionLabel(classes, Text(PROMOTED))
  {
    hide SectionLabel, Contains, Text;
    PromotedStart();
    ContainsAt(Text(PROMOTED), "celebrate", 8);
    ContainsPiece(PROMOTED, 4);
    ContainsChar(Text(PROMOTED), "celebrate", 'e');
    ContainsChar(Text(PROMOTED), "you", 'o');
    if SectionLabel(classes, Text(PROMOTED)) { LabelText(classes, Text(PROMOTED)); }
  }

  lemma PromotedPlain()
    ensures Plain(Text(PROMOTED))
  {
    hide Text, PlainPieces;
    PromotedPiecesPlain();
    TextPlain(PROMOTED);
  }

  lemma PromotedPiecePlain(i: nat)
    requires i < 9
    ensures SpaceOrWords(PROMOTED[i]) && (PROMOTED[i] == " " <==> i % 2 == 1)
  {
  }

  lemma PromotedPiecesPlain()
    ensures PlainPieces(PROMOTED) && PROMOTED[0][0] != ' ' && PROMOTED[8][|PROMOTED[8]| - 1] != ' '
  {
    hide SpaceOrWords, PlainPieces;
    forall i | 0 <= i < |PROMOTED| ensures SpaceOrWords(PROMOTED[i]) && (PROMOTED[i] == " " <==> i % 2 == 1) {
      PromotedPiecePlain(i);
    }
    AlternatePlain(PROMOTED);
  }

  /** The text gets all the merits there can be. */
  lemma PromotedQuality(classes: Classes)
    requires Sane(classes)
    ensures Plain(Text(PROMOTED)) && QualityOf(classes, Text(PROMOTED), PROMOTED_TOOLS) == -325
  {
    hide Contains, Text, Markers, HeaderFragment, SectionLabel, SeePage, Casefolded, Plain, RomanPrefixTo, Observance,
         RuleOfNecessity, Pronoun, Auspicious, VerbClass, ShortSing;
    PromotedPlain();
    PlainIsCasefolded(Text(PROMOTED));
    NoHeader(Text(PROMOTED));
    PromotedMerits(classes);
    PromotedSeesNoPage(classes);
    PromotedIsNoLabel(classes);
    PromotedLacks("also considered by native grammarians", 'g');
    PromotedLacks("base of the cases", 'h');
    PromotedLacks("as used in comp", 'm');
    PromotedLacks("(see ", '(');
  }

  // ----- What lead decides

  /** A lead of this many places decides, whatever the texts and the sources are. */
  ghost predicate Decides(classes: Classes, rank: nat, lead: nat) {
    forall text, tools, otherText, otherTools :: Casefolded(text) && Casefolded(otherText) ==>
      EffectiveRank(rank, QualityOf(classes, text, tools))
      < EffectiveRank(rank + lead, QualityOf(classes, otherText, otherTools))
  }

  /** Two plain texts more than make up for a lead of this many places. */
  ghost predicate Overturned(classes: Classes, rank: nat, lead: nat) {
    exists text, tools, otherText, otherTools :: Plain(text) && Plain(otherText) &&
      EffectiveRank(rank, QualityOf(classes, text, tools))
      > EffectiveRank(rank + lead, QualityOf(classes, otherText, otherTools))
  }

  /** A lead in rank decides exactly if it is seven places or more; below, two plain texts overturn it. */
  lemma LeadDecides(classes: Classes, rank: nat, lead: nat)
    requires Sane(classes) && rank + lead < RANKING_MISSING
    ensures Decides(classes, rank, lead) <==> lead >= 7
    ensures Overturned(classes, rank, lead) <==> lead < 7
  {
    hide QualityOf, Text, Demoted, Casefolded, Sane, Plain;
    if lead >= 7 {
      forall text, tools, otherText, otherTools | Casefolded(text) && Casefolded(otherText)
        ensures EffectiveRank(rank, QualityOf(classes, text, tools))
              < EffectiveRank(rank + lead, QualityOf(classes, otherText, otherTools))
      {
        QualityRange(classes, text, tools);
        QualityRange(classes, otherText, otherTools);
      }
      forall text | Plain(text) ensures Casefolded(text) {
        PlainIsCasefolded(text);
      }
    } else {
      DemotedQuality(classes);
      PromotedQuality(classes);
      PlainIsCasefolded(Text(Demoted()));
      PlainIsCasefolded(Text(PROMOTED));
      assert EffectiveRank(rank, QualityOf(classes, Text(Demoted()), DEMOTED_TOOLS))
             > EffectiveRank(rank + lead, QualityOf(classes, Text(PROMOTED), PROMOTED_TOOLS));
    }
  }
}
