/** The encounters of the book: where each starts, which pages it spans, and which one a page belongs to. */
module Encounters {
  import opened Outcomes

  // ----- Sections of the book

  datatype Section =
    | FrontMatter
    | FirstExperience
    | ReadingSheets
    | SecondExperience
    | ThirdExperience
    | FourthExperience
    | FifthExperience
    | Bibliography
    | Indexes

  datatype PageRange = PageRange(start: int, end: Option<int>, section: Section)

  const SECTION_PAGE_RANGES := [
    PageRange(787, None, Indexes),
    PageRange(776, None, Bibliography),
    PageRange(155, Some(200), ReadingSheets),
    PageRange(651, None, FifthExperience),
    PageRange(455, None, FourthExperience),
    PageRange(251, None, ThirdExperience),
    PageRange(201, None, SecondExperience),
    PageRange(49, None, FirstExperience)
  ]

  function SectionIn(ranges: seq<PageRange>, number: int): Section {
    if ranges == [] then FrontMatter
    else if number >= ranges[0].start && (ranges[0].end.None? || number <= ranges[0].end.value) then ranges[0].section
    else SectionIn(ranges[1..], number)
  }

  /** `classify_page_section`, which does not look at the text. */
  function Classify(number: int): Section {
    SectionIn(SECTION_PAGE_RANGES, number)
  }

  /** The first matching range makes each section one interval of pages. */
  lemma SectionsAreIntervals(number: int)
    ensures Classify(number) ==
      if number < 49 then FrontMatter
      else if number < 155 then FirstExperience
      else if number < 201 then ReadingSheets
      else if number < 251 then SecondExperience
      else if number < 455 then ThirdExperience
      else if number < 651 then FourthExperience
      else if number < 776 then FifthExperience
      else if number < 787 then Bibliography
      else Indexes
  {
    var r := SECTION_PAGE_RANGES;
    assert r[1..][1..] == r[2..] && r[2..][1..] == r[3..] && r[3..][1..] == r[4..];
    assert r[4..][1..] == r[5..] && r[5..][1..] == r[6..] && r[6..][1..] == r[7..] && r[7..][1..] == [];
    assert SectionIn(r, number) == if number >= 787 then Indexes else SectionIn(r[1..], number);
    assert SectionIn(r[1..], number) == if number >= 776 then Bibliography else SectionIn(r[2..], number);
    assert SectionIn(r[2..], number) == if 155 <= number <= 200 then ReadingSheets else SectionIn(r[3..], number);
    assert SectionIn(r[3..], number) == if number >= 651 then FifthExperience else SectionIn(r[4..], number);
    assert SectionIn(r[4..], number) == if number >= 455 then FourthExperience else SectionIn(r[5..], number);
    assert SectionIn(r[5..], number) == if number >= 251 then ThirdExperience else SectionIn(r[6..], number);
    assert SectionIn(r[6..], number) == if number >= 201 then SecondExperience else SectionIn(r[7..], number);
    assert SectionIn(r[7..], number) == if number >= 49 then FirstExperience else FrontMatter;
  }

  function Experience(section: Section): Option<nat> {
    match section
    case FirstExperience => Some(1)
    case SecondExperience => Some(2)
    case ThirdExperience => Some(3)
    case FourthExperience => Some(4)
    case FifthExperience => Some(5)
    case _ => None
  }

  // ----- Where encounters start

  datatype Page = Page(number: int, text: string)

  datatype Roman = I | II | III | IV | V

  function Arabic(r: Roman): nat {
    match r
    case I => 1
    case II => 2
    case III => 3
    case IV => 4
    case V => 5
  }

  datatype RunningHead = RunningHead(roman: Roman, encounter: nat, heading: string, title: string)

  /** What the two patterns find on a page: a title line, or else any number of running heads. */
  datatype Headings = TitleLine(encounter: nat, heading: string, title: string) | Running(heads: seq<RunningHead>)

  datatype Start = Start(number: int, experience: nat, encounter: nat, heading: string, title: string)

  function HeadStart(page: Page, head: RunningHead): Start {
    Start(page.number, Arabic(head.roman), head.encounter, head.heading, head.title)
  }

  /** `_page_encounter_starts`, for pages of the sections that hold encounters; other pages have none. */
  function StartsOn(page: Page, scan: Page -> Headings): (starts: seq<Start>)
    ensures forall i :: 0 <= i < |starts| ==> starts[i].number == page.number && Experience(Classify(page.number)).Some?
  {
    var experience := Experience(Classify(page.number));
    if experience.None? then []
    else
      var found := scan(page);
      if found.TitleLine? then [Start(page.number, experience.value, found.encounter, found.heading, found.title)]
      else seq(|found.heads|, i requires 0 <= i < |found.heads| => HeadStart(page, found.heads[i]))
  }

  function AllStarts(pages: seq<Page>, scan: Page -> Headings): seq<Start> {
    if pages == [] then [] else AllStarts(pages[..|pages| - 1], scan) + StartsOn(pages[|pages| - 1], scan)
  }

  predicate HasKey(starts: seq<Start>, experience: nat, encounter: nat) {
    exists i :: 0 <= i < |starts| && starts[i].experience == experience && starts[i].encounter == encounter
  }

  /** Of the starts with the same experience and encounter, only the first. */
  function FirstOnly(starts: seq<Start>): seq<Start> {
    if starts == [] then []
    else
      var before := starts[..|starts| - 1];
      var last := starts[|starts| - 1];
      if HasKey(before, last.experience, last.encounter) then FirstOnly(before) else FirstOnly(before) + [last]
  }

  function StartsOf(pages: seq<Page>, scan: Page -> Headings): seq<Start> {
    FirstOnly(AllStarts(pages, scan))
  }

  // ----- Which pages they span

  function Numbers(pages: seq<Page>): set<int> {
    set i | 0 <= i < |pages| :: pages[i].number
  }

  function LastPage(pages: seq<Page>): (last: int)
    ensures forall i :: 0 <= i < |pages| ==> pages[i].number <= last
  {
    if pages == [] then 0
    else if |pages| == 1 then pages[0].number
    else
      var n := |pages| - 1;
      var before := LastPage(pages[..n]);
      assert forall i :: 0 <= i < n ==> pages[..n][i] == pages[i];
      if pages[n].number > before then pages[n].number else before
  }

  /** A page of the given section, the one to which a span may be continued. */
  predicate Continues(numbers: set<int>, section: Section, number: int) {
    number in numbers && Classify(number) == section
  }

  /** The last page of the unbroken run of pages of the section from `number` on. */
  function SpanEnd(numbers: set<int>, section: Section, number: int, last: int): (end: int)
    ensures number <= end
    ensures forall n :: number < n <= end ==> Continues(numbers, section, n)
    ensures end + 1 <= last ==> !Continues(numbers, section, end + 1)
    decreases last - number
  {
    if number + 1 <= last && Continues(numbers, section, number + 1) then SpanEnd(numbers, section, number + 1, last)
    else number
  }

  datatype Encounter =
    Encounter(id: string, experience: nat, encounter: nat, pageStart: int, pageEnd: int, heading: string, title: string)

  function Digit(n: nat): char
    requires n < 10
  {
    "0123456789"[n]
  }

  function Decimal(n: nat): string {
    if n < 10 then [Digit(n)] else Decimal(n / 10) + [Digit(n % 10)]
  }

  function EncounterId(experience: nat, encounter: nat): string {
    Decimal(experience) + "." + Decimal(encounter)
  }

  function Min(a: int, b: int): int {
    if a < b then a else b
  }

  function Max(a: int, b: int): int {
    if a > b then a else b
  }

  function EncounterAt(starts: seq<Start>, i: nat, numbers: set<int>, last: int): Encounter
    requires i < |starts|
  {
    var s := starts[i];
    var next := if i + 1 < |starts| then starts[i + 1].number else last + 1;
    var sectionEnd := SpanEnd(numbers, Classify(s.number), s.number, last);
    Encounter(EncounterId(s.experience, s.encounter), s.experience, s.encounter, s.number,
              Max(s.number, Min(next - 1, sectionEnd)), s.heading, s.title)
  }

  function EncountersOf(pages: seq<Page>, scan: Page -> Headings): (encounters: seq<Encounter>)
    ensures |encounters| == |StartsOf(pages, scan)|
    ensures forall i :: 0 <= i < |encounters| ==>
      encounters[i] == EncounterAt(StartsOf(pages, scan), i, Numbers(pages), LastPage(pages))
  {
    var starts := StartsOf(pages, scan);
    seq(|starts|, i requires 0 <= i < |starts| => EncounterAt(starts, i, Numbers(pages), LastPage(pages)))
  }

  // ----- The code

  /** `_section_span_end` */
  method SectionSpanEnd(numbers: set<int>, start: int, last: int) returns (end: int)
    ensures end == SpanEnd(numbers, Classify(start), start, last)
  {
    var section := Classify(start);
    end := start;
    while end + 1 <= last
      invariant SpanEnd(numbers, section, end, last) == SpanEnd(numbers, section, start, last)
      decreases last - end
    {
      hide Classify;
      if end + 1 !in numbers || Classify(end + 1) != section {
        break;
      }
      end := end + 1;
    }
  }

  lemma FirstOnlyGrows(starts: seq<Start>, s: Start)
    ensures FirstOnly(starts + [s])
            == FirstOnly(starts) + if HasKey(starts, s.experience, s.encounter) then [] else [s]
  {
    assert (starts + [s])[..|starts|] == starts;
  }

  lemma HasKeyGrows(starts: seq<Start>, s: Start, experience: nat, encounter: nat)
    ensures HasKey(starts + [s], experience, encounter)
       <==> HasKey(starts, experience, encounter) || (s.experience == experience && s.encounter == encounter)
  {
    var more := starts + [s];
    if HasKey(starts, experience, encounter) {
      var i :| 0 <= i < |starts| && starts[i].experience == experience && starts[i].encounter == encounter;
      assert more[i] == starts[i];
    }
    if s.experience == experience && s.encounter == encounter {
      assert more[|starts|] == s;
    }
  }

  ghost predicate SeenAre(seen: set<(nat, nat)>, starts: seq<Start>) {
    forall experience: nat, encounter: nat :: (experience, encounter) in seen <==> HasKey(starts, experience, encounter)
  }

  /** After collecting from `all`: the first start of each key, and the keys. */
  ghost predicate Collected(starts: seq<Start>, seen: set<(nat, nat)>, all: seq<Start>) {
    starts == FirstOnly(all) && SeenAre(seen, all)
  }

  lemma CollectedGrows(starts: seq<Start>, seen: set<(nat, nat)>, all: seq<Start>, s: Start)
    requires Collected(starts, seen, all)
    ensures var key := (s.experience, s.encounter);
      if key in seen then Collected(starts, seen, all + [s]) else Collected(starts + [s], seen + {key}, all + [s])
  {
    hide FirstOnly, HasKey;
    FirstOnlyGrows(all, s);
    forall experience: nat, encounter: nat
      ensures HasKey(all + [s], experience, encounter)
         <==> (experience, encounter) in seen || (experience, encounter) == (s.experience, s.encounter)
    {
      HasKeyGrows(all, s, experience, encounter);
    }
  }

  lemma AllStartsGrows(pages: seq<Page>, i: nat, scan: Page -> Headings)
    requires i < |pages|
    ensures AllStarts(pages[..i + 1], scan) == AllStarts(pages[..i], scan) + StartsOn(pages[i], scan)
  {
    assert pages[..i + 1][..i] == pages[..i];
  }

  /** The first loop of `detect_encounters`. */
  method CollectStarts(pages: seq<Page>, scan: Page -> Headings) returns (starts: seq<Start>)
    ensures starts == StartsOf(pages, scan)
  {
    hide StartsOn, Classify, Collected, AllStarts;
    starts := [];
    var seen: set<(nat, nat)> := {};
    NothingCollected(pages, scan);
    for i := 0 to |pages|
      invariant Collected(starts, seen, AllStarts(pages[..i], scan))
    {
      ghost var all := AllStarts(pages[..i], scan);
      var found := StartsOn(pages[i], scan);
      assert all + found[..0] == all;
      for j := 0 to |found|
        invariant Collected(starts, seen, all + found[..j])
      {
        var s := found[j];
        CollectedGrows(starts, seen, all + found[..j], s);
        assert all + found[..j + 1] == (all + found[..j]) + [s];
        if (s.experience, s.encounter) in seen {
          continue;
        }
        seen := seen + {(s.experience, s.encounter)};
        starts := starts + [s];
      }
      assert found[..|found|] == found;
      AllStartsGrows(pages, i, scan);
    }
    assert pages[..|pages|] == pages;
    CollectedStarts(starts, seen, pages, scan);
  }

  lemma NothingCollected(pages: seq<Page>, scan: Page -> Headings)
    ensures Collected([], {}, AllStarts(pages[..0], scan))
  {
    assert pages[..0] == [];
  }

  lemma CollectedStarts(starts: seq<Start>, seen: set<(nat, nat)>, pages: seq<Page>, scan: Page -> Headings)
    requires Collected(starts, seen, AllStarts(pages, scan))
    ensures starts == StartsOf(pages, scan)
  {
  }

  /** `detect_encounters` */
  method DetectEncounters(pages: seq<Page>, scan: Page -> Headings) returns (encounters: seq<Encounter>)
    ensures encounters == EncountersOf(pages, scan)
  {
    hide StartsOf, Classify;
    var starts := CollectStarts(pages, scan);
    var last := LastPage(pages);
    var numbers := Numbers(pages);
    encounters := [];
    for i := 0 to |starts|
      invariant |encounters| == i
      invariant forall k :: 0 <= k < i ==> encounters[k] == EncounterAt(starts, k, numbers, last)
    {
      var s := starts[i];
      var next := if i + 1 < |starts| then starts[i + 1].number else last + 1;
      var sectionEnd := SectionSpanEnd(numbers, s.number, last);
      var pageEnd := Min(next - 1, sectionEnd);
      encounters := encounters + [Encounter(EncounterId(s.experience, s.encounter), s.experience, s.encounter, s.number,
                                            Max(s.number, pageEnd), s.heading, s.title)];
    }
  }

  predicate Covers(e: Encounter, number: int) {
    e.pageStart <= number <= e.pageEnd
  }

  /** `_encounter_id_for_page`, returning the encounter. */
  function Lookup(number: int, encounters: seq<Encounter>): Option<Encounter> {
    if encounters == [] then None
    else if Covers(encounters[0], number) then Some(encounters[0])
    else Lookup(number, encounters[1..])
  }

  // ----- Identity

  lemma {:induction false} DecimalInjective(m: nat, n: nat)
    requires Decimal(m) == Decimal(n)
    ensures m == n
  {
    hide Decimal, Digit;
    LastDigit(m);
    LastDigit(n);
    DigitInjective(m % 10, n % 10);
    if m >= 10 && n >= 10 {
      DecimalInjective(m / 10, n / 10);
    }
  }

  lemma LastDigit(n: nat)
    ensures var d := Decimal(n); d != "" && d[|d| - 1] == Digit(n % 10)
    ensures n >= 10 ==> Decimal(n)[..|Decimal(n)| - 1] == Decimal(n / 10) && |Decimal(n)| >= 2
    ensures n < 10 ==> |Decimal(n)| == 1
  {
  }

  lemma DigitInjective(i: nat, j: nat)
    requires i < 10 && j < 10 && Digit(i) == Digit(j)
    ensures i == j
  {
  }

  /** An id is one digit, a dot, and a number; it determines both numbers. */
  lemma IdInjective(e: nat, n: nat, f: nat, m: nat)
    requires 1 <= e <= 5 && 1 <= f <= 5 && EncounterId(e, n) == EncounterId(f, m)
    ensures e == f && n == m
  {
    var x, y := EncounterId(e, n), EncounterId(f, m);
    assert Decimal(e) == [Digit(e)] && Decimal(f) == [Digit(f)];
    assert x[0] == Digit(e) && y[0] == Digit(f);
    DigitInjective(e, f);
    hide Decimal;
    assert x[2..] == Decimal(n) && y[2..] == Decimal(m);
    DecimalInjective(n, m);
  }

  predicate DistinctKeys(starts: seq<Start>) {
    forall i, j :: 0 <= i < j < |starts| ==>
      starts[i].experience != starts[j].experience || starts[i].encounter != starts[j].encounter
  }

  lemma {:induction false} FirstOnlyDistinct(starts: seq<Start>)
    ensures DistinctKeys(FirstOnly(starts))
  {
    if starts != [] {
      var before, last := starts[..|starts| - 1], starts[|starts| - 1];
      FirstOnlyDistinct(before);
      FirstOnlyKeys(before);
      if !HasKey(before, last.experience, last.encounter) {
        LaterDistinct(FirstOnly(before), last);
      }
    }
  }

  lemma LaterDistinct(starts: seq<Start>, s: Start)
    requires DistinctKeys(starts) && !HasKey(starts, s.experience, s.encounter)
    ensures DistinctKeys(starts + [s])
  {
  }

  lemma {:induction false} FirstOnlyKeys(starts: seq<Start>)
    ensures forall experience: nat, encounter: nat :: HasKey(FirstOnly(starts), experience, encounter) ==>
      HasKey(starts, experience, encounter)
  {
    if starts != [] {
      hide HasKey;
      var before, last := starts[..|starts| - 1], starts[|starts| - 1];
      FirstOnlyKeys(before);
      assert starts == before + [last];
      forall experience: nat, encounter: nat | HasKey(FirstOnly(starts), experience, encounter)
        ensures HasKey(starts, experience, encounter)
      {
        HasKeyGrows(before, last, experience, encounter);
        HasKeyGrows(FirstOnly(before), last, experience, encounter);
      }
    }
  }

  predicate SameId(e: Encounter, f: Encounter) {
    e.id == f.id
  }

  /** Starts are on pages of the book, in sections that hold encounters. */
  predicate OnPages(starts: seq<Start>, numbers: set<int>) {
    forall i :: 0 <= i < |starts| ==>
      starts[i].number in numbers && Experience(Classify(starts[i].number)).Some? && 1 <= starts[i].experience <= 5
  }

  predicate Ordered(starts: seq<Start>) {
    forall i, j :: 0 <= i < j < |starts| ==> starts[i].number <= starts[j].number
  }

  predicate PagesOrdered(pages: seq<Page>) {
    forall i, j :: 0 <= i < j < |pages| ==> pages[i].number <= pages[j].number
  }

  lemma StartsOnPages(page: Page, scan: Page -> Headings, numbers: set<int>)
    requires page.number in numbers
    ensures OnPages(StartsOn(page, scan), numbers)
  {
  }

  lemma {:induction false} AllStartsOnPages(pages: seq<Page>, scan: Page -> Headings, numbers: set<int>)
    requires Numbers(pages) <= numbers
    ensures OnPages(AllStarts(pages, scan), numbers)
  {
    if pages != [] {
      hide OnPages, StartsOn;
      var n := |pages| - 1;
      assert forall i :: 0 <= i < n ==> pages[..n][i] == pages[i];
      assert Numbers(pages[..n]) <= Numbers(pages);
      assert pages[n].number in Numbers(pages);
      AllStartsOnPages(pages[..n], scan, numbers);
      StartsOnPages(pages[n], scan, numbers);
      OnPagesJoins(AllStarts(pages[..n], scan), StartsOn(pages[n], scan), numbers);
    } else {
      assert AllStarts(pages, scan) == [];
    }
  }

  lemma OnPagesJoins(before: seq<Start>, after: seq<Start>, numbers: set<int>)
    requires OnPages(before, numbers) && OnPages(after, numbers)
    ensures OnPages(before + after, numbers)
  {
    hide Classify, Experience;
  }

  lemma {:induction false} AllStartsOrdered(pages: seq<Page>, scan: Page -> Headings)
    requires PagesOrdered(pages)
    ensures Ordered(AllStarts(pages, scan))
    ensures pages != [] ==> forall i :: 0 <= i < |AllStarts(pages, scan)| ==>
      AllStarts(pages, scan)[i].number <= pages[|pages| - 1].number
  {
    if pages != [] {
      hide StartsOn, Classify;
      var n := |pages| - 1;
      AllStartsOrdered(pages[..n], scan);
      if n == 0 {
        assert pages[..n] == [] && AllStarts(pages[..n], scan) == [];
      } else {
        assert pages[..n][n - 1] == pages[n - 1];
      }
    }
  }

  lemma {:induction false} FirstOnlyKeeps(starts: seq<Start>, numbers: set<int>)
    ensures OnPages(starts, numbers) ==> OnPages(FirstOnly(starts), numbers)
    ensures Ordered(starts) ==> Ordered(FirstOnly(starts))
    ensures forall i :: 0 <= i < |FirstOnly(starts)| ==> FirstOnly(starts)[i] in starts
  {
    if starts != [] {
      hide HasKey, Classify, Experience;
      var n := |starts| - 1;
      FirstOnlyKeeps(starts[..n], numbers);
      assert starts[n] in starts;
      assert forall s :: s in starts[..n] ==> s in starts;
      assert forall s :: s in starts[..n] && Ordered(starts) ==> s.number <= starts[n].number;
    }
  }

  // ----- What the spans are

  /** All pages from `from` to `to` are there, and in one section. */
  predicate Unbroken(numbers: set<int>, from: int, to: int) {
    forall n :: from <= n <= to ==> Continues(numbers, Classify(from), n)
  }

  lemma StartsFacts(pages: seq<Page>, scan: Page -> Headings)
    ensures OnPages(StartsOf(pages, scan), Numbers(pages)) && DistinctKeys(StartsOf(pages, scan))
    ensures PagesOrdered(pages) ==> Ordered(StartsOf(pages, scan))
  {
    hide OnPages, Ordered, PagesOrdered, Classify, AllStarts, FirstOnly;
    AllStartsOnPages(pages, scan, Numbers(pages));
    FirstOnlyKeeps(AllStarts(pages, scan), Numbers(pages));
    FirstOnlyDistinct(AllStarts(pages, scan));
    if PagesOrdered(pages) {
      AllStartsOrdered(pages, scan);
    }
  }

  /**
   * Whatever the order of the pages: a span is a non-empty unbroken run of pages of one experience,
   * starting where the encounter starts, and no two encounters share an id.
   */
  lemma SpansAreUnbroken(pages: seq<Page>, scan: Page -> Headings)
    ensures var es := EncountersOf(pages, scan);
      && (forall i :: 0 <= i < |es| ==>
            es[i].pageStart <= es[i].pageEnd && Experience(Classify(es[i].pageStart)).Some?
            && Unbroken(Numbers(pages), es[i].pageStart, es[i].pageEnd))
      && (forall i, j :: 0 <= i < j < |es| ==> !SameId(es[i], es[j]))
  {
    hide Classify, Experience, StartsOf, EncounterId, Numbers;
    StartsFacts(pages, scan);
    var starts, es := StartsOf(pages, scan), EncountersOf(pages, scan);
    forall i, j | 0 <= i < j < |es|
      ensures !SameId(es[i], es[j])
    {
      if SameId(es[i], es[j]) {
        IdInjective(starts[i].experience, starts[i].encounter, starts[j].experience, starts[j].encounter);
      }
    }
  }

  /** With pages in order, a span ends before the next starts, unless both start on that very page. */
  lemma SpansMeetOnlyWhereBothStart(pages: seq<Page>, scan: Page -> Headings)
    requires PagesOrdered(pages)
    ensures var es := EncountersOf(pages, scan);
      forall i, j :: 0 <= i < j < |es| ==>
        es[i].pageEnd < es[j].pageStart || (es[i].pageStart == es[i].pageEnd == es[j].pageStart)
  {
    hide Classify, StartsOf, EncounterId, Numbers, OnPages, DistinctKeys, Continues, PagesOrdered;
    StartsFacts(pages, scan);
    var starts := StartsOf(pages, scan);
    forall i, j | 0 <= i < j < |starts|
      ensures var e := EncountersOf(pages, scan)[i];
        e.pageEnd < starts[j].number || (e.pageStart == e.pageEnd == starts[j].number)
    {
      assert starts[i].number <= starts[i + 1].number <= starts[j].number;
    }
  }

  /** A span goes on as long as the run is unbroken and no other encounter has started. */
  lemma SpansAreMaximal(pages: seq<Page>, scan: Page -> Headings, i: nat, n: int)
    requires i < |EncountersOf(pages, scan)|
    requires var es := EncountersOf(pages, scan);
      es[i].pageStart <= n && Unbroken(Numbers(pages), es[i].pageStart, n)
      && (i + 1 < |es| ==> n < es[i + 1].pageStart)
    ensures n <= EncountersOf(pages, scan)[i].pageEnd
  {
    hide Classify, StartsOf, EncounterId;
    var start := StartsOf(pages, scan)[i].number;
    assert n in Numbers(pages) by { assert Continues(Numbers(pages), Classify(start), n); }
    assert n <= LastPage(pages);
    var end := SpanEnd(Numbers(pages), Classify(start), start, LastPage(pages));
    assert end < n ==> Continues(Numbers(pages), Classify(start), end + 1);
  }

  // ----- Which encounter a page belongs to

  lemma {:induction false} LookupFirst(number: int, es: seq<Encounter>) returns (k: nat)
    ensures Lookup(number, es).None? ==> k == |es|
    ensures Lookup(number, es).Some? ==> k < |es| && Lookup(number, es) == Some(es[k]) && Covers(es[k], number)
    ensures forall i :: 0 <= i < k ==> !Covers(es[i], number)
  {
    hide Covers;
    if es == [] || Covers(es[0], number) {
      k := 0;
    } else {
      var rest := LookupFirst(number, es[1..]);
      k := rest + 1;
      assert forall i :: 1 <= i < |es| ==> es[i] == es[1..][i - 1];
    }
  }

  /** Some encounter starts at or before the page, and the run from there to the page is unbroken. */
  predicate Belongs(number: int, numbers: set<int>, es: seq<Encounter>) {
    exists i :: 0 <= i < |es| && es[i].pageStart <= number && Unbroken(numbers, es[i].pageStart, number)
  }

  /**
   * With pages in order, a page has an encounter exactly if it belongs to one. It is then the first of
   * those that start on the page, if any does, and otherwise the only one that spans it.
   */
  lemma LookupIsExact(number: int, pages: seq<Page>, scan: Page -> Headings)
    requires PagesOrdered(pages)
    ensures var es := EncountersOf(pages, scan); var found := Lookup(number, es);
      && (found.Some? <==> Belongs(number, Numbers(pages), es))
      && (found.Some? ==> found.value in es && Covers(found.value, number))
      && (found.Some? ==> forall i :: 0 <= i < |es| && Covers(es[i], number) ==>
            es[i] == found.value || (es[i].pageStart == found.value.pageStart == number))
      && forall i :: (0 <= i < |es| && es[i].pageStart == number
                      && forall j :: 0 <= j < i ==> es[j].pageStart != number) ==> found == Some(es[i])
  {
    hide Classify, StartsOf, Numbers, PagesOrdered, Unbroken, EncountersOf, Belongs;
    SpansAreUnbroken(pages, scan);
    SpansMeetOnlyWhereBothStart(pages, scan);
    var es := EncountersOf(pages, scan);
    var k := LookupFirst(number, es);
    if k < |es| {
      UnbrokenPart(Numbers(pages), es[k].pageStart, es[k].pageEnd, number);
      OneBelongs(number, Numbers(pages), es, k);
    } else if Belongs(number, Numbers(pages), es) {
      BelongsIsCovered(number, pages, scan);
    }
  }

  lemma OneBelongs(number: int, numbers: set<int>, es: seq<Encounter>, k: nat)
    requires k < |es| && es[k].pageStart <= number && Unbroken(numbers, es[k].pageStart, number)
    ensures Belongs(number, numbers, es)
  {
  }

  lemma UnbrokenPart(numbers: set<int>, from: int, to: int, number: int)
    requires Unbroken(numbers, from, to) && from <= number <= to
    ensures Unbroken(numbers, from, number) && Unbroken(numbers, number, to)
  {
    hide Classify;
    assert Continues(numbers, Classify(from), number);
    assert forall n :: number <= n <= to ==> Continues(numbers, Classify(from), n);
  }

  /** The last encounter to start at or before a page that belongs to any covers it. */
  lemma BelongsIsCovered(number: int, pages: seq<Page>, scan: Page -> Headings)
    requires PagesOrdered(pages) && Belongs(number, Numbers(pages), EncountersOf(pages, scan))
    ensures exists i :: 0 <= i < |EncountersOf(pages, scan)| && Covers(EncountersOf(pages, scan)[i], number)
  {
    hide Classify, Numbers, PagesOrdered, Unbroken, EncountersOf, Covers;
    var es := EncountersOf(pages, scan);
    var k :| 0 <= k < |es| && es[k].pageStart <= number && Unbroken(Numbers(pages), es[k].pageStart, number);
    var i := LastBefore(number, pages, scan, k);
  }

  lemma {:induction false} LastBefore(number: int, pages: seq<Page>, scan: Page -> Headings, k: nat) returns (i: nat)
    requires PagesOrdered(pages) && k < |EncountersOf(pages, scan)|
    requires EncountersOf(pages, scan)[k].pageStart <= number
    requires Unbroken(Numbers(pages), EncountersOf(pages, scan)[k].pageStart, number)
    ensures i < |EncountersOf(pages, scan)| && Covers(EncountersOf(pages, scan)[i], number)
    decreases |EncountersOf(pages, scan)| - k
  {
    hide Classify, Numbers, PagesOrdered, Unbroken, EncountersOf;
    var es := EncountersOf(pages, scan);
    if k + 1 < |es| && es[k + 1].pageStart <= number {
      StartsOrdered(pages, scan, k);
      UnbrokenPart(Numbers(pages), es[k].pageStart, number, es[k + 1].pageStart);
      i := LastBefore(number, pages, scan, k + 1);
    } else {
      SpansAreMaximal(pages, scan, k, number);
      i := k;
    }
  }

  lemma StartsOrdered(pages: seq<Page>, scan: Page -> Headings, k: nat)
    requires PagesOrdered(pages) && k + 1 < |EncountersOf(pages, scan)|
    ensures EncountersOf(pages, scan)[k].pageStart <= EncountersOf(pages, scan)[k + 1].pageStart
  {
    hide Classify, Numbers, PagesOrdered, OnPages, StartsOf, SpanEnd;
    StartsFacts(pages, scan);
  }
}
