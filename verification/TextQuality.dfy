/** What the learner-quality heuristics find in the text of a bucket, and which findings go together. */
module TextQuality {
  import opened Json

  /** Python's classes `\w` and `\d`, as far as the patterns use them. */
  datatype Classes = Classes(isWord: char -> bool, isDigit: char -> bool)

  ghost predicate Sane(classes: Classes) {
    && !classes.isWord(' ') && !classes.isWord('.') && classes.isDigit('1')
    && forall c :: classes.isDigit(c) ==> !('a' <= c <= 'z') && c != '.' && c != '(' && c != '['
  }

  /** The text of a bucket is casefolded, which leaves no capital letter. */
  predicate Casefolded(text: string) {
    forall c :: c in text ==> !('A' <= c <= 'Z')
  }

  ghost predicate Contains(text: string, sub: string) {
    exists i :: OccursAt(text, sub, i)
  }

  predicate OccursAt(text: string, sub: string, i: int) {
    0 <= i <= |text| - |sub| && text[i..i + |sub|] == sub
  }

  predicate Spaces(s: string) {
    forall c :: c in s ==> IsSpace(c)
  }

  // ----- The patterns; collapsing runs of spaces beforehand makes no difference to them

  predicate HeaderChar(c: char) {
    'A' <= c <= 'Z' || c == '-'
    || c in {'\U{0100}', '\U{0112}', '\U{012A}', '\U{014C}', '\U{016A}', '\U{0232}', '\U{00C6}', '\U{0152}'}
  }

  /** `_looks_like_dictionary_header_fragment` */
  ghost predicate HeaderFragment(text: string) {
    var s := Strip(text);
    exists n, m ::
      2 <= n <= 19 && n <= m <= |s| && 'A' <= s[0] <= 'Z' && (forall i :: 0 <= i < n ==> HeaderChar(s[i]))
      && Spaces(s[n..m]) && s[m..] in {"", ".", ",", ";", ":"}
  }

  predicate RomanDigit(c: char) {
    c in {'i', 'v', 'x', 'l', 'c', 'd', 'm'}
  }

  predicate LabelBase(classes: Classes, s: string) {
    s != ""
    && (|| (forall c :: c in s ==> RomanDigit(c))
        || (|s| == 1 && 'a' <= s[0] <= 'z')
        || (forall c :: c in s ==> classes.isDigit(c)))
  }

  predicate LabelSuffix(s: string) {
    s == "" || s == "lit" || s == "lit." || s == "fig" || s == "fig." || s == "transf" || s == "transf."
  }

  /** `_looks_like_section_label_only` */
  ghost predicate SectionLabel(classes: Classes, text: string) {
    exists base, gap, suffix ::
      Strip(text) == base + "." + gap + suffix && LabelBase(classes, base) && Spaces(gap) && LabelSuffix(suffix)
  }

  predicate Starts(s: string, start: string) {
    |start| <= |s| && s[..|start|] == start
  }

  /** The length of the author's abbreviation at the start, with its full stop; zero if there is none. */
  function MarkerLength(s: string): (n: nat)
    ensures n <= |s| && (n > 0 ==> s[n - 1] == '.')
  {
    if Starts(s, "cic.") || Starts(s, "liv.") || Starts(s, "ter.") || Starts(s, "hor.") || Starts(s, "sen.") then 4
    else if Starts(s, "caes.") || Starts(s, "verg.") || Starts(s, "virg.") || Starts(s, "lucr.") then 5
    else if Starts(s, "plaut.") then 6
    else if Starts(s, "tac.") then 4
    else if Starts(s, "ov.") then 3
    else 0
  }

  /** How many abbreviations stand at word boundaries; `inWord` says whether a word character comes before. */
  function Markers(classes: Classes, inWord: bool, s: string): nat
    decreases |s|
  {
    if s == "" then 0
    else
      var n := MarkerLength(s);
      if !inWord && n > 0 then 1 + Markers(classes, classes.isWord('.'), s[n..])
      else Markers(classes, classes.isWord(s[0]), s[1..])
  }

  /** `_looks_like_citation_heavy_example_fragment` */
  ghost predicate CitationHeavy(classes: Classes, text: string) {
    var markers := Markers(classes, false, text);
    && |text| >= 180 && markers >= 3
    && ((!Contains(text, " to ") && !Contains(text, " of ") && !Contains(text, " a ")) || markers >= 6)
  }

  ghost predicate Grammarians(text: string) {
    Contains(text, "also considered by native grammarians") || Contains(text, "base of the cases")
  }

  ghost predicate Compound(text: string) {
    Contains(text, "as used in comp") && !Contains(text, "you") && !Contains(text, "thou")
  }

  predicate SeePageAt(classes: Classes, text: string, i: int, m: int) {
    && OccursAt(text, "see", i) && (i == 0 || !classes.isWord(text[i - 1]))
    && i + 3 < m <= |text| && Spaces(text[i + 3..m]) && ("p." <= text[m..] || "pp." <= text[m..])
  }

  ghost predicate SeePage(classes: Classes, text: string) {
    exists i, m :: SeePageAt(classes, text, i, m)
  }

  /** `_looks_like_bare_cross_reference` */
  ghost predicate CrossReference(classes: Classes, text: string) {
    SeePage(classes, text)
    || (Contains(text, "(see ") && |text| < 240
        && !Contains(text, ";") && !Contains(text, " | ") && !Contains(text, " cf. ") && !Contains(text, " rv.")
        && !Contains(text, " mbh.") && !Contains(text, " mn.")
        && !Contains(text, " \U{015B}br.") && !Contains(text, " vs."))
  }

  ghost predicate ShortSing(text: string) {
    |text| < 160
    && (|| Contains(text, "sing of") || Contains(text, " to sing")
        || Contains(text, " chant") || Contains(text, "celebrate"))
  }

  ghost predicate Observance(text: string) {
    Contains(text, "voluntary penance") || Contains(text, "religious observance")
  }

  ghost predicate RuleOfNecessity(text: string) {
    Contains(text, "rule or law") && (Contains(text, "necessity") || Contains(text, "obligation"))
  }

  /** `_pronoun_quality_adjustment` */
  ghost predicate Pronoun(text: string) {
    && (Contains(text, "2nd personal pron") || Contains(text, "second personal pron"))
    && (Contains(text, "you") || Contains(text, "thou") || Contains(text, "acc. tv") || Contains(text, "accusative"))
  }

  /** `_auspicious_particle_adjustment` */
  ghost predicate Auspicious(text: string, tools: set<string>) {
    && ("dico" in tools || "cdsl" in tools)
    && (Contains(text, "part.") || Contains(text, "particle") || Contains(text, "ind."))
    && (|| Contains(text, "blessing") || Contains(text, "welfare") || Contains(text, "happiness")
        || Contains(text, "bonheur")
        || Contains(text, "bien-\U{00EA}tre") || Contains(text, "prosperity")
        || Contains(text, "prosp\U{00E9}rit\U{00E9}"))
  }

  ghost predicate Agent(text: string, tools: set<string>) {
    "dico" in tools && (Contains(text, "[agt.") || Contains(text, " ifc."))
  }

  predicate VerbClassAt(classes: Classes, text: string, i: int, m: int) {
    && OccursAt(text, "cl.", i) && (i == 0 || !classes.isWord(text[i - 1]))
    && i + 3 <= m < |text| && Spaces(text[i + 3..m]) && classes.isDigit(text[m])
  }

  ghost predicate VerbClass(classes: Classes, text: string, tools: set<string>) {
    "cdsl" in tools && (exists i, m :: VerbClassAt(classes, text, i, m)) && Contains(text, " to ")
  }

  predicate RomanPrefixTo(text: string, n: int) {
    0 < n < |text| - 1 && (forall i :: 0 <= i < n ==> RomanDigit(text[i])) && text[n] == '.' && IsSpace(text[n + 1])
  }

  ghost predicate RomanSection(text: string, tools: set<string>) {
    "diogenes" in tools && (exists n :: RomanPrefixTo(text, n)) && Contains(text, "(cf.")
  }

  // ----- Which findings go together

  lemma ContainsChar(text: string, sub: string, c: char)
    requires Contains(text, sub) && c in sub
    ensures c in text
  {
    var i :| OccursAt(text, sub, i);
    var k :| 0 <= k < |sub| && sub[k] == c;
    assert text[i + k] == text[i..i + |sub|][k];
  }

  lemma {:induction false} StripLeftParts(s: string) returns (lead: string)
    ensures s == lead + StripLeft(s) && Spaces(lead)
  {
    if s != "" && IsSpace(s[0]) {
      var rest := StripLeftParts(s[1..]);
      lead := [s[0]] + rest;
    } else {
      lead := "";
    }
  }

  lemma {:induction false} StripRightParts(s: string) returns (trail: string)
    ensures s == StripRight(s) + trail && Spaces(trail)
  {
    if s != "" && IsSpace(s[|s| - 1]) {
      var rest := StripRightParts(s[..|s| - 1]);
      trail := rest + [s[|s| - 1]];
    } else {
      trail := "";
    }
  }

  lemma StripParts(s: string) returns (lead: string, trail: string)
    ensures s == lead + Strip(s) + trail && Spaces(lead) && Spaces(trail)
  {
    lead := StripLeftParts(s);
    trail := StripRightParts(StripLeft(s));
  }

  /** A capital letter is needed for a header, and a casefolded text has none. */
  lemma NoHeader(text: string)
    requires Casefolded(text)
    ensures !HeaderFragment(text)
  {
    var lead, trail := StripParts(text);
    assert Strip(text) != "" ==> Strip(text)[0] in text;
  }

  function Dots(s: string): nat {
    if s == "" then 0 else (if s[0] == '.' then 1 else 0) + Dots(s[1..])
  }

  lemma {:induction false} DotsJoin(s: string, t: string)
    ensures Dots(s + t) == Dots(s) + Dots(t)
  {
    if s == "" {
      assert s + t == t;
    } else {
      assert (s + t)[0] == s[0] && (s + t)[1..] == s[1..] + t;
      DotsJoin(s[1..], t);
    }
  }

  lemma {:induction false} NoDots(s: string)
    requires '.' !in s
    ensures Dots(s) == 0
  {
    if s != "" {
      NoDots(s[1..]);
    }
  }

  lemma {:induction false} MarkersAtMostDots(classes: Classes, inWord: bool, s: string)
    ensures Markers(classes, inWord, s) <= Dots(s)
    decreases |s|
  {
    hide MarkerLength;
    if s != "" {
      var n := MarkerLength(s);
      if !inWord && n > 0 {
        MarkersAtMostDots(classes, classes.isWord('.'), s[n..]);
        assert s == s[..n - 1] + ("." + s[n..]);
        DotsJoin(s[..n - 1], "." + s[n..]);
        assert ("." + s[n..])[1..] == s[n..];
      } else {
        MarkersAtMostDots(classes, classes.isWord(s[0]), s[1..]);
      }
    }
  }

  predicate LabelChar(classes: Classes, first: char, c: char) {
    || c in {'i', 'v', 'x', 'l', 'c', 'd', 'm', 't', 'f', 'g', 'r', 'a', 'n', 's', '.'}
    || IsSpace(c) || classes.isDigit(c) || c == first
  }

  lemma SuffixChars(s: string)
    requires LabelSuffix(s)
    ensures forall c :: c in s ==> c in {'l', 'i', 't', 'f', 'g', 'r', 'a', 'n', 's', '.'}
    ensures Dots(s) <= 1
  {
    if s != "" {
      var n := |s| - 1;
      assert '.' !in s[..n];
      NoDots(s[..n]);
      assert s == s[..n] + [s[n]];
      DotsJoin(s[..n], [s[n]]);
      assert [s[n]][1..] == "";
    }
  }

  lemma BaseChars(classes: Classes, base: string)
    requires Sane(classes) && LabelBase(classes, base)
    ensures base != "" && ('a' <= base[0] <= 'z' || classes.isDigit(base[0]))
    ensures forall c :: c in base ==> LabelChar(classes, base[0], c)
    ensures Dots(base) == 0
  {
    assert base[0] in base;
    NoDots(base);
  }

  lemma SpaceChars(s: string)
    requires Spaces(s)
    ensures Dots(s) == 0
  {
    NoDots(s);
  }

  lemma JoinedDots(lead: string, base: string, gap: string, suffix: string, trail: string)
    requires Dots(lead) == Dots(base) == Dots(gap) == Dots(trail) == 0
    ensures Dots(lead + (base + "." + gap + suffix) + trail) == 1 + Dots(suffix)
  {
    DotsJoin(lead + (base + "." + gap + suffix), trail);
    DotsJoin(lead, base + "." + gap + suffix);
    DotsJoin(base + "." + gap, suffix);
    DotsJoin(base + ".", gap);
    DotsJoin(base, ".");
    assert "."[1..] == "";
  }

  /** A section label has few kinds of characters, with one other letter at most, and two full stops at most. */
  lemma LabelChars(classes: Classes, text: string) returns (first: char)
    requires Sane(classes) && SectionLabel(classes, text)
    ensures 'a' <= first <= 'z' || classes.isDigit(first)
    ensures forall c :: c in text ==> LabelChar(classes, first, c)
    ensures Dots(text) <= 2
  {
    var lead, trail := StripParts(text);
    var base, gap, suffix :|
      Strip(text) == base + "." + gap + suffix && LabelBase(classes, base) && Spaces(gap) && LabelSuffix(suffix);
    hide LabelBase, LabelSuffix, Strip, Dots, Sane;
    first := base[0];
    BaseChars(classes, base);
    SuffixChars(suffix);
    SpaceChars(lead);
    SpaceChars(gap);
    SpaceChars(trail);
    JoinedDots(lead, base, gap, suffix, trail);
  }

  /** So it has no bracket, and not two of the letters that neither numerals nor the suffixes have. */
  lemma LabelText(classes: Classes, text: string)
    requires Sane(classes) && SectionLabel(classes, text)
    ensures '(' !in text && !('e' in text && 'o' in text) && !('e' in text && 'p' in text) && Dots(text) <= 2
  {
    hide SectionLabel;
    var first := LabelChars(classes, text);
    assert !LabelChar(classes, first, '(');
    assert LabelChar(classes, first, 'e') ==> first == 'e';
    assert LabelChar(classes, first, 'o') ==> first == 'o';
    assert LabelChar(classes, first, 'p') ==> first == 'p';
    hide LabelChar;
  }

  lemma GrammariansLetters(text: string)
    ensures Grammarians(text) ==> 'e' in text && 'o' in text
  {
    hide Contains;
    if Contains(text, "base of the cases") {
      ContainsChar(text, "base of the cases", 'e');
      ContainsChar(text, "base of the cases", 'o');
    }
    if Contains(text, "also considered by native grammarians") {
      ContainsChar(text, "also considered by native grammarians", 'e');
      ContainsChar(text, "also considered by native grammarians", 'o');
    }
  }

  lemma CompoundLetters(text: string)
    ensures Compound(text) ==> 'e' in text && 'o' in text
  {
    hide Contains;
    if Contains(text, "as used in comp") {
      ContainsChar(text, "as used in comp", 'e');
      ContainsChar(text, "as used in comp", 'o');
    }
  }

  lemma ReferenceLetters(classes: Classes, text: string, tools: set<string>)
    ensures CrossReference(classes, text) ==> '(' in text || ('e' in text && 'p' in text)
    ensures RomanSection(text, tools) ==> '(' in text
  {
    hide Contains;
    if Contains(text, "(see ") { ContainsChar(text, "(see ", '('); }
    if Contains(text, "(cf.") { ContainsChar(text, "(cf.", '('); }
    if SeePage(classes, text) {
      var i, m :| SeePageAt(classes, text, i, m);
      assert text[i..i + 3][1] == text[i + 1] && text[m..][0] == text[m];
    }
  }

  /** A text that is only a section label has none of the other findings that demote, but for the agent's. */
  lemma LabelStandsAlone(classes: Classes, text: string, tools: set<string>)
    requires Sane(classes) && SectionLabel(classes, text)
    ensures !CitationHeavy(classes, text) && !Grammarians(text) && !Compound(text) && !CrossReference(classes, text)
    ensures !RomanSection(text, tools)
  {
    MarkersAtMostDots(classes, false, text);
    LabelText(classes, text);
    GrammariansLetters(text);
    CompoundLetters(text);
    ReferenceLetters(classes, text, tools);
    hide Contains, Grammarians, Compound, CrossReference, RomanSection, Markers, Dots, SectionLabel;
  }

  lemma ShortIsNotCitationHeavy(classes: Classes, text: string)
    ensures !(ShortSing(text) && CitationHeavy(classes, text))
  {
  }
}
