/** What the encounters are, told by the headings on the pages and the page numbers alone. */
module EncounterFacts {
  import opened Outcomes
  import opened Encounters

  /** The decimal number that the digits stand for. */
  function Reading(digits: string): int {
    if digits == "" then 0
    else
      var last := |digits| - 1;
      10 * Reading(digits[..last]) + (digits[last] as int - '0' as int)
  }

  /** The number in decimal, with no zero before it. */
  ghost predicate Writes(digits: string, n: nat) {
    && digits != "" && (forall i :: 0 <= i < |digits| ==> '0' <= digits[i] <= '9')
    && (|digits| > 1 ==> digits[0] != '0') && Reading(digits) == n
  }

  lemma DigitReads(n: nat)
    requires n < 10
    ensures Digit(n) as int == '0' as int + n
  {
  }

  lemma {:induction false} DecimalWrites(n: nat)
    ensures Writes(Decimal(n), n)
    ensures n > 0 ==> Decimal(n)[0] != '0'
  {
    hide Digit;
    DigitReads(n % 10);
    if n < 10 {
      assert [Digit(n)][..0] == "" && Reading("") == 0;
      assert Reading([Digit(n)]) == n;
    } else {
      DecimalWrites(n / 10);
      var digits := Decimal(n);
      assert digits[..|digits| - 1] == Decimal(n / 10) && digits[|digits| - 1] == Digit(n % 10);
      assert digits[0] == Decimal(n / 10)[0];
    }
  }

  /** The experience to which the pages of this number belong, by the page ranges. */
  ghost predicate OnExperience(number: int, experience: int) {
    || (experience == 1 && 49 <= number < 155)
    || (experience == 2 && 201 <= number < 251)
    || (experience == 3 && 251 <= number < 455)
    || (experience == 4 && 455 <= number < 651)
    || (experience == 5 && 651 <= number < 776)
  }

  lemma ExperienceOfPage(number: int)
    ensures forall experience :: OnExperience(number, experience) <==> Experience(Classify(number)) == Some(experience)
  {
    hide Classify;
    SectionsAreIntervals(number);
  }

  predicate RomanIs(roman: Roman, n: int) {
    || (roman == I && n == 1) || (roman == II && n == 2) || (roman == III && n == 3) || (roman == IV && n == 4)
    || (roman == V && n == 5)
  }

  /** A title line, or one of the running heads, of a page of an experience; a title line belongs to its experience. */
  ghost predicate Headed(page: Page, scan: Page -> Headings, experience: nat, encounter: nat, heading: string,
                         title: string) {
    exists n :: OnExperience(page.number, n) &&
      if scan(page).TitleLine? then
        experience == n && scan(page) == TitleLine(encounter, heading, title)
      else
        exists k :: 0 <= k < |scan(page).heads| && HeadIs(scan(page).heads[k], experience, encounter, heading, title)
  }

  predicate HeadIs(head: RunningHead, experience: nat, encounter: nat, heading: string, title: string) {
    RomanIs(head.roman, experience) && head.encounter == encounter && head.heading == heading && head.title == title
  }

  lemma StartsOnPage(page: Page, scan: Page -> Headings, s: Start)
    ensures s in StartsOn(page, scan) <==>
      s.number == page.number && Headed(page, scan, s.experience, s.encounter, s.heading, s.title)
  {
    hide Classify;
    ExperienceOfPage(page.number);
    var experience := Experience(Classify(page.number));
    if experience.Some? {
      assert OnExperience(page.number, experience.value);
      if scan(page).Running? {
        var heads := scan(page).heads;
        forall k | 0 <= k < |heads| ensures HeadStart(page, heads[k]) in StartsOn(page, scan) {
          assert StartsOn(page, scan)[k] == HeadStart(page, heads[k]);
        }
        forall k | 0 <= k < |heads|
          ensures HeadStart(page, heads[k]) == s <==>
            s.number == page.number && HeadIs(heads[k], s.experience, s.encounter, s.heading, s.title)
        {
        }
      }
    }
  }

  lemma {:induction false} StartsOnPages(pages: seq<Page>, scan: Page -> Headings, s: Start)
    ensures s in AllStarts(pages, scan) <==> exists page :: page in pages && s in StartsOn(page, scan)
  {
    hide StartsOn;
    if pages != [] {
      var n := |pages| - 1;
      StartsOnPages(pages[..n], scan, s);
      assert forall page :: page in pages <==> page == pages[n] || page in pages[..n];
    }
  }

  lemma {:induction false} FirstOnlyPart(starts: seq<Start>, s: Start)
    ensures s in FirstOnly(starts) ==> s in starts
  {
    hide HasKey;
    if starts != [] {
      FirstOnlyPart(starts[..|starts| - 1], s);
    }
  }

  /** Each start has one kept with its numbers. */
  lemma {:induction false} FirstOnlyHas(starts: seq<Start>, experience: nat, encounter: nat)
    requires HasKey(starts, experience, encounter)
    ensures HasKey(FirstOnly(starts), experience, encounter)
  {
    var n := |starts| - 1;
    var before, last := starts[..n], starts[n];
    assert forall k :: 0 <= k < n ==> before[k] == starts[k];
    var i :| 0 <= i < |starts| && starts[i].experience == experience && starts[i].encounter == encounter;
    if HasKey(before, experience, encounter) {
      FirstOnlyHas(before, experience, encounter);
      var k :| 0 <= k < |FirstOnly(before)| && FirstOnly(before)[k].experience == experience
               && FirstOnly(before)[k].encounter == encounter;
      assert FirstOnly(starts)[k] == FirstOnly(before)[k];
    } else {
      assert i == n;
      assert FirstOnly(starts)[|FirstOnly(before)|] == last;
    }
  }

  /** The id is the two numbers in decimal, with a dot between. */
  ghost predicate IdOf(id: string, experience: nat, encounter: nat) {
    exists a, b :: Writes(a, experience) && Writes(b, encounter) && id == a + "." + b
  }

  /** An encounter of the pages: it has the heading of the page on which it starts, and is named after its numbers. */
  ghost predicate IsHeaded(pages: seq<Page>, scan: Page -> Headings, e: Encounter) {
    && IdOf(e.id, e.experience, e.encounter)
    && exists page :: page in pages && page.number == e.pageStart
                      && Headed(page, scan, e.experience, e.encounter, e.heading, e.title)
  }

  lemma EncounterIsHeaded(pages: seq<Page>, scan: Page -> Headings, e: Encounter)
    requires e in EncountersOf(pages, scan)
    ensures IsHeaded(pages, scan, e)
  {
    hide StartsOn, AllStarts, FirstOnly, Headed, Decimal, Writes, SpanEnd, Classify;
    var starts, es := StartsOf(pages, scan), EncountersOf(pages, scan);
    var i :| 0 <= i < |es| && es[i] == e;
    var s := starts[i];
    FirstOnlyPart(AllStarts(pages, scan), s);
    StartsOnPages(pages, scan, s);
    var page :| page in pages && s in StartsOn(page, scan);
    StartsOnPage(page, scan, s);
    DecimalWrites(s.experience);
    DecimalWrites(s.encounter);
  }

  /** Every heading on a page has an encounter with its numbers. */
  lemma HeadingHasEncounter(pages: seq<Page>, scan: Page -> Headings, page: Page, experience: nat, encounter: nat,
                            heading: string, title: string)
    requires page in pages && Headed(page, scan, experience, encounter, heading, title)
    ensures exists e :: e in EncountersOf(pages, scan) && e.experience == experience && e.encounter == encounter
  {
    hide StartsOn, AllStarts, FirstOnly, Headed, SpanEnd, Classify, EncounterId;
    var s := Start(page.number, experience, encounter, heading, title);
    var all, starts, es := AllStarts(pages, scan), StartsOf(pages, scan), EncountersOf(pages, scan);
    StartsOnPage(page, scan, s);
    StartsOnPages(pages, scan, s);
    var n :| 0 <= n < |all| && all[n] == s;
    FirstOnlyHas(all, experience, encounter);
    var i :| 0 <= i < |starts| && starts[i].experience == experience && starts[i].encounter == encounter;
    assert es[i] in es;
  }
}
