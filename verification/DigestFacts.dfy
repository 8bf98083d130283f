/** What a digest and its draft show of an encounter payload, field by field. */
module DigestFacts {
  import opened Outcomes
  import opened Json
  import opened Splitting
  import opened Validator
  import opened Briefing

  // ----- Lists without repeats, and parts of lists

  /** The nonempty strings of `all`, each once, in the order in which they first occur. */
  ghost predicate EachOnce(once: seq<string>, all: seq<string>) {
    (forall s :: s in once <==> s in all && s != "") && FirstOrder(once, all)
  }

  /** No string twice, and each before those that first occur after it. */
  ghost predicate FirstOrder(once: seq<string>, all: seq<string>) {
    && (forall i, j :: 0 <= i < j < |once| ==> once[i] != once[j])
    && (forall i, j :: 0 <= i < j < |once| ==> OccursBefore(all, once[i], once[j]))
  }

  ghost predicate OccursBefore(all: seq<string>, first: string, second: string) {
    exists k :: 0 <= k < |all| && all[k] == first && second !in all[..k]
  }

  /** How many of `n` items Python's `items[:most]` keeps. */
  function KeptOf(n: nat, most: int): nat {
    if most >= 0 then (if most < n then most else n) else if n + most > 0 then n + most else 0
  }

  lemma {:induction false} DedupedInOrder(seen: set<string>, values: seq<string>, before: seq<string>)
    requires forall s :: s in seen <==> s in before && s != ""
    ensures FirstOrder(DedupeAfter(seen, values), before + values)
    decreases |values|
  {
    if values != [] {
      hide FirstOrder;
      var first, rest := values[0], values[1..];
      assert before + values == (before + [first]) + rest;
      if first != "" && first !in seen {
        DedupedInOrder(seen + {first}, rest, before + [first]);
        var tail := DedupeAfter(seen + {first}, rest);
        assert (before + values)[|before|] == first && (before + values)[..|before|] == before;
        FirstOfAll(first, tail, before + values, |before|);
      } else {
        DedupedInOrder(seen, rest, before + [first]);
      }
    } else {
      assert DedupeAfter(seen, values) == [];
    }
  }

  lemma FirstOfAll(first: string, tail: seq<string>, all: seq<string>, k: nat)
    requires FirstOrder(tail, all) && k < |all| && all[k] == first
    requires forall s :: s in tail ==> s != first && s !in all[..k]
    ensures FirstOrder([first] + tail, all)
  {
    hide OccursBefore;
    var once := [first] + tail;
    forall i, j | 0 <= i < j < |once| ensures once[i] != once[j] && OccursBefore(all, once[i], once[j]) {
      assert once[j] == tail[j - 1] && tail[j - 1] in tail;
      if i == 0 {
        StandsBefore(all, k, tail[j - 1]);
      } else {
        assert once[i] == tail[i - 1];
      }
    }
  }

  lemma StandsBefore(all: seq<string>, k: nat, second: string)
    requires k < |all| && second !in all[..k]
    ensures OccursBefore(all, all[k], second)
  {
  }

  lemma DedupeEachOnce(values: seq<string>)
    ensures EachOnce(Dedupe(values), values)
  {
    DedupedInOrder({}, values, []);
    assert [] + values == values;
    assert Dedupe(values) == DedupeAfter({}, values);
  }

  lemma SliceKeeps<T>(items: seq<T>, most: int)
    ensures |SliceTo(items, most)| == KeptOf(|items|, most)
    ensures forall i :: 0 <= i < |SliceTo(items, most)| ==> SliceTo(items, most)[i] == items[i]
  {
  }

  // ----- A displayed meaning

  function DetailOf(item: Fields): Fields {
    Mapping(Get(item, SourceDetailSummary))
  }

  /** The status of a translation, from what the meaning names. */
  ghost predicate StatusShown(lower: string -> string, item: Fields, status: string) {
    if StringList(Get(item, TranslationSources)) != [] || "translation" in StringList(Get(item, Sources)) then
      status == "translation-derived"
    else if exists lang :: lang in StringList(Get(item, SourceLangs)) && lower(lang) != "en" then
      status == "source-language"
    else
      status == "english-or-unknown"
  }

  ghost predicate LanguageShown(item: Fields, status: string, language: string) {
    var langs := StringList(Get(item, SourceLangs));
    if langs != [] then language == langs[0]
    else language == if status == "translation-derived" then "unknown-source" else "en"
  }

  /** References are those listed, and those of the details that pass for one. */
  ghost predicate RefsShown(isRef: string -> bool, item: Fields, refs: seq<string>) {
    var listed, detail := StringList(Get(item, SourceRefs)), StringList(Get(DetailOf(item), SourceRefs));
    && (forall s :: s in refs <==> s in listed || (s in detail && isRef(s)))
    && FirstOrder(refs, listed + detail)
  }

  /** The row says what the displayed meaning says. */
  ghost predicate ShowsMeaning(text: TextTools, item: Fields, row: Fields) {
    && String(Get(row, BucketId)) == String(Get(item, BucketId))
    && String(Get(row, Gloss)) == String(Get(item, DisplayGloss))
    && StringList(Get(row, Sources)) == StringList(Get(item, Sources))
    && IntOf(Get(row, WitnessCount)) == IntOf(Get(item, WitnessCount))
    && String(Get(row, Confidence)) == String(Get(item, ConfidenceLabel))
    && StringList(Get(row, TranslationSources)) == StringList(Get(item, TranslationSources))
    && StringList(Get(row, Examples)) == StringList(Get(DetailOf(item), Examples))
    && StringList(Get(row, CrossRefs)) == StringList(Get(DetailOf(item), CrossRefs))
    && StatusShown(text.lower, item, String(Get(row, TranslationStatus)))
    && LanguageShown(item, String(Get(row, TranslationStatus)), String(Get(row, SourceGlossLanguage)))
    && RefsShown(text.isDetailRef, item, StringList(Get(row, SourceRefs)))
  }

  lemma StatusReads(text: TextTools, item: Fields)
    ensures StatusShown(text.lower, item, TranslationStatusOf(text, item)) && Trimmed(TranslationStatusOf(text, item))
    ensures LanguageShown(item, TranslationStatusOf(text, item), SourceGlossLanguageOf(text, item))
    ensures Trimmed(SourceGlossLanguageOf(text, item))
  {
    hide StringList;
    var langs := StringList(Get(item, SourceLangs));
    if langs != [] { assert langs[0] in langs; }
  }

  lemma {:induction false} FilterHas(keep: string -> bool, values: seq<string>, s: string)
    ensures s in Filter(keep, values) <==> s in values && keep(s)
  {
    if values != [] {
      FilterHas(keep, values[1..], s);
    }
  }

  /** Whatever stands first among the kept values stands first among all. */
  lemma {:induction false} FilterBefore(keep: string -> bool, listed: seq<string>, values: seq<string>, first: string,
                                        second: string)
    requires OccursBefore(listed + Filter(keep, values), first, second)
    requires second in listed || keep(second)
    ensures OccursBefore(listed + values, first, second)
    decreases |values|
  {
    var kept := Filter(keep, values);
    var k :| 0 <= k < |listed + kept| && (listed + kept)[k] == first && second !in (listed + kept)[..k];
    if k < |listed| {
      assert (listed + values)[k] == first && (listed + values)[..k] == (listed + kept)[..k];
    } else {
      var i := k - |listed|;
      assert (listed + kept)[..k] == listed + kept[..i];
      FilterBeforeIn(keep, values, k - |listed|, second);
      var n :| 0 <= n < |values| && values[n] == kept[k - |listed|] && second !in values[..n];
      assert (listed + values)[|listed| + n] == first;
      assert (listed + values)[..|listed| + n] == listed + values[..n];
    }
  }

  lemma {:induction false} FilterBeforeIn(keep: string -> bool, values: seq<string>, k: nat, second: string)
    requires k < |Filter(keep, values)| && second !in Filter(keep, values)[..k] && keep(second)
    ensures exists n :: 0 <= n < |values| && values[n] == Filter(keep, values)[k] && second !in values[..n]
  {
    var kept, rest := Filter(keep, values), Filter(keep, values[1..]);
    if keep(values[0]) && k == 0 {
      assert values[0] == kept[0] && values[..0] == [];
    } else {
      var i := if keep(values[0]) then k - 1 else k;
      assert kept[k] == rest[i];
      if keep(values[0]) {
        assert kept == [values[0]] + rest;
        assert kept[..k] == [values[0]] + rest[..i];
      } else {
        assert kept == rest;
      }
      FilterBeforeIn(keep, values[1..], i, second);
      var n :| 0 <= n < |values[1..]| && values[1..][n] == rest[i] && second !in values[1..][..n];
      assert values[n + 1] == kept[k] && values[..n + 1] == [values[0]] + values[1..][..n];
    }
  }

  lemma RefsRead(text: TextTools, item: Fields)
    ensures RefsShown(text.isDetailRef, item, StringList(Get(DisplayMeaning(text, item), SourceRefs)))
  {
    hide StringList, String, Filter, Dedupe, OccursBefore, StrList, TranslationStatusOf, SourceGlossLanguageOf;
    var listed, detail := StringList(Get(item, SourceRefs)), StringList(Get(DetailOf(item), SourceRefs));
    var all := listed + Filter(text.isDetailRef, detail);
    var refs := Dedupe(all);
    DedupeEachOnce(all);
    forall s ensures s in all <==> s in listed || (s in detail && text.isDetailRef(s)) {
      FilterHas(text.isDetailRef, detail, s);
    }
    assert forall s :: s in all ==> s != "" && Trimmed(s);
    StringsOfTrimmed(refs);
    assert StringList(StrList(refs)) == refs;
    forall i, j | 0 <= i < j < |refs| ensures OccursBefore(listed + detail, refs[i], refs[j]) {
      assert refs[i] in refs && refs[j] in refs;
      FilterBefore(text.isDetailRef, listed, detail, refs[i], refs[j]);
    }
  }

  lemma DisplayMeaningShows(text: TextTools, item: Fields)
    ensures ShowsMeaning(text, item, DisplayMeaning(text, item))
  {
    hide StringList, String, Filter, Dedupe, StrList, TranslationStatusOf, SourceGlossLanguageOf, RefsShown,
         StatusShown, LanguageShown, Trimmed;
    var row := DisplayMeaning(text, item);
    RefsRead(text, item);
    StatusReads(text, item);
    StringOfTrimmed(TranslationStatusOf(text, item));
    StringOfTrimmed(SourceGlossLanguageOf(text, item));
    StringAgain(Get(item, BucketId));
    StringAgain(Get(item, DisplayGloss));
    StringAgain(Get(item, ConfidenceLabel));
    StringListAgain(Get(item, Sources));
    StringListAgain(Get(item, TranslationSources));
    StringListAgain(Get(DetailOf(item), Examples));
    StringListAgain(Get(DetailOf(item), CrossRefs));
  }

  // ----- A bucket

  function ToolsOf(witnesses: seq<Fields>): seq<string> {
    seq(|witnesses|, i requires 0 <= i < |witnesses| => String(Get(witnesses[i], SourceTool)))
  }

  function RefsOf(witnesses: seq<Fields>): seq<string> {
    seq(|witnesses|, i requires 0 <= i < |witnesses| => String(Get(Mapping(Get(witnesses[i], Evidence)), SourceRef)))
  }

  /** A source of translation that the witness names. */
  ghost predicate NamesTranslation(attestation: Fields, source: string) {
    var evidence := Mapping(Get(attestation, Evidence));
    || (String(Get(attestation, SourceTool)) == "translation" && source == String(Get(evidence, SourceTool)))
    || (String(Get(evidence, SourceTool)) == "translation" && source == String(Get(evidence, SourceDictionary)))
    || (String(Get(evidence, TranslationId)) != "" && source == String(Get(evidence, SourceTool)))
  }

  ghost predicate NoLanguage(witnesses: seq<Fields>) {
    forall i :: 0 <= i < |witnesses| ==> LanguageOf(witnesses[i]) == ""
  }

  /** The language of the first witness that has one: of its gloss, or else of its source. */
  ghost predicate WitnessLanguage(witnesses: seq<Fields>, language: string) {
    if NoLanguage(witnesses) then language == ""
    else exists i :: 0 <= i < |witnesses| && LanguageOf(witnesses[i]) == language && language != ""
                     && NoLanguage(witnesses[..i])
  }

  function LanguageOf(attestation: Fields): string {
    var evidence := Mapping(Get(attestation, Evidence));
    if String(Get(evidence, GlossLang)) != "" then String(Get(evidence, GlossLang))
    else String(Get(evidence, SourceLang))
  }

  ghost predicate BucketStatusShown(lower: string -> string, witnesses: seq<Fields>, status: string) {
    if exists w, source :: w in witnesses && source != "" && NamesTranslation(w, source) then
      status == "translation-derived"
    else if exists language :: WitnessLanguage(witnesses, language) && language != "" && lower(language) != "en" then
      status == "source-language"
    else
      status == "english-or-unknown"
  }

  /** The first language named by a witness, that of its source before that of its gloss. */
  ghost predicate FirstNamed(witnesses: seq<Fields>, language: string) {
    exists i :: 0 <= i < |witnesses| && LanguageOf(witnesses[i]) != "" && NoLanguage(witnesses[..i])
                && language == SourceLanguageOf(witnesses[i])
  }

  function SourceLanguageOf(attestation: Fields): string {
    var evidence := Mapping(Get(attestation, Evidence));
    if String(Get(evidence, SourceLang)) != "" then String(Get(evidence, SourceLang))
    else String(Get(evidence, GlossLang))
  }

  ghost predicate BucketLanguageShown(witnesses: seq<Fields>, status: string, language: string) {
    if NoLanguage(witnesses) then language == if status == "translation-derived" then "unknown-source" else "en"
    else FirstNamed(witnesses, language)
  }

  /** The row says what the bucket and its witnesses say. */
  ghost predicate ShowsBucket(text: TextTools, item: Fields, row: Fields) {
    var witnesses := MappingList(Get(item, Witnesses));
    && String(Get(row, BucketId)) == String(Get(item, BucketId))
    && String(Get(row, Gloss)) ==
         String(Get(item, if Truthy(Get(item, DisplayGloss)) then DisplayGloss else NormalizedGloss))
    && EachOnce(StringList(Get(row, Sources)), ToolsOf(witnesses))
    && IntOf(Get(row, WitnessCount)) == |witnesses|
    && String(Get(row, Confidence)) == String(Get(item, ConfidenceLabel))
    && (forall source :: source in StringList(Get(row, TranslationSources)) <==>
          source != "" && exists w :: w in witnesses && NamesTranslation(w, source))
    && StringList(Get(row, Examples)) == [] && StringList(Get(row, CrossRefs)) == []
    && BucketStatusShown(text.lower, witnesses, String(Get(row, TranslationStatus)))
    && BucketLanguageShown(witnesses, String(Get(row, TranslationStatus)), String(Get(row, SourceGlossLanguage)))
    && EachOnce(StringList(Get(row, SourceRefs)), RefsOf(witnesses))
  }

  lemma {:induction false} OverSingles(witnesses: seq<Fields>, value: Fields -> seq<string>, one: Fields -> string)
    requires forall w :: value(w) == [one(w)]
    ensures Over(witnesses, value) == seq(|witnesses|, i requires 0 <= i < |witnesses| => one(witnesses[i]))
  {
    var lists := seq(|witnesses|, i requires 0 <= i < |witnesses| => value(witnesses[i]));
    if witnesses != [] {
      OverSingles(witnesses[1..], value, one);
      assert lists[1..] == seq(|witnesses[1..]|, i requires 0 <= i < |witnesses[1..]| => value(witnesses[1..][i]));
    }
  }

  lemma TrimmedList(values: seq<string>)
    requires forall s :: s in values ==> s != "" && Trimmed(s)
    ensures StringList(StrList(values)) == values
  {
    StringsOfTrimmed(values);
  }

  lemma BucketToolsShown(item: Fields)
    ensures var witnesses := MappingList(Get(item, Witnesses));
      EachOnce(StringList(StrList(Dedupe(Over(witnesses, ToolOf)))), ToolsOf(witnesses))
  {
    hide String, StringList, StrList, Dedupe, Over, EachOnce, MappingList;
    var witnesses := MappingList(Get(item, Witnesses));
    OverSingles(witnesses, ToolOf, w => String(Get(w, SourceTool)));
    assert Over(witnesses, ToolOf) == ToolsOf(witnesses);
    DedupeEachOnce(ToolsOf(witnesses));
    TrimmedList(Dedupe(ToolsOf(witnesses)));
  }

  lemma BucketRefsShown(item: Fields)
    ensures var witnesses := MappingList(Get(item, Witnesses));
      EachOnce(StringList(StrList(Dedupe(Over(witnesses, RefOf)))), RefsOf(witnesses))
  {
    hide String, StringList, StrList, Dedupe, Over, EachOnce, MappingList;
    var witnesses := MappingList(Get(item, Witnesses));
    OverSingles(witnesses, RefOf, w => String(Get(Mapping(Get(w, Evidence)), SourceRef)));
    assert Over(witnesses, RefOf) == RefsOf(witnesses);
    DedupeEachOnce(RefsOf(witnesses));
    TrimmedList(Dedupe(RefsOf(witnesses)));
  }

  lemma BucketTranslationsShown(item: Fields)
    ensures var witnesses := MappingList(Get(item, Witnesses));
      var listed := StringList(StrList(BucketTranslationSources(item)));
      && (forall source :: source in listed <==>
            source != "" && exists w :: w in witnesses && NamesTranslation(w, source))
      && (listed == [] <==> BucketTranslationSources(item) == [])
  {
    hide String, StringList, StrList, Dedupe, Over, MappingList;
    var witnesses := MappingList(Get(item, Witnesses));
    var all := Over(witnesses, WitnessTranslationSources);
    forall source ensures source in all <==> exists w :: w in witnesses && source in WitnessTranslationSources(w) {
      OverHas(witnesses, WitnessTranslationSources, source);
    }
    forall w, source
      ensures source in WitnessTranslationSources(w) <==> NamesTranslation(w, source)
    {
    }
    forall source | source in all ensures Trimmed(source) {
      var w :| w in witnesses && source in WitnessTranslationSources(w);
    }
    TrimmedList(Dedupe(all));
  }

  lemma WitnessLanguageLater(item: Fields, rest: seq<Fields>, language: string)
    requires LanguageOf(item) == "" && WitnessLanguage(rest, language)
    ensures WitnessLanguage([item] + rest, language)
  {
    hide LanguageOf;
    var all := [item] + rest;
    assert forall i :: 0 <= i < |rest| ==> all[i + 1] == rest[i];
    if NoLanguage(rest) {
      assert NoLanguage(all);
    } else {
      var i :| 0 <= i < |rest| && LanguageOf(rest[i]) == language && language != "" && NoLanguage(rest[..i]);
      assert all[..i + 1] == [item] + rest[..i];
      assert LanguageOf(all[i + 1]) == language && NoLanguage(all[..i + 1]);
    }
  }

  lemma WitnessLanguageNow(item: Fields, rest: seq<Fields>)
    requires LanguageOf(item) != ""
    ensures WitnessLanguage([item] + rest, LanguageOf(item))
  {
    hide LanguageOf;
    var all := [item] + rest;
    assert all[0] == item && all[..0] == [];
  }

  lemma {:induction false} FirstLanguageReads(witnesses: seq<Fields>)
    ensures WitnessLanguage(witnesses, FirstLanguage(witnesses))
  {
    if witnesses != [] {
      hide String, WitnessLanguage;
      assert witnesses == [witnesses[0]] + witnesses[1..];
      if LanguageOf(witnesses[0]) == "" {
        FirstLanguageReads(witnesses[1..]);
        WitnessLanguageLater(witnesses[0], witnesses[1..], FirstLanguage(witnesses[1..]));
      } else {
        WitnessLanguageNow(witnesses[0], witnesses[1..]);
      }
    }
  }

  lemma BucketStatusReads(text: TextTools, item: Fields)
    ensures BucketStatusShown(text.lower, MappingList(Get(item, Witnesses)), BucketTranslationStatus(text, item))
    ensures Trimmed(BucketTranslationStatus(text, item))
  {
    hide String, StringList, StrList, BucketTranslationSources, WitnessLanguage, NamesTranslation, FirstLanguage,
         MappingList;
    var witnesses := MappingList(Get(item, Witnesses));
    BucketTranslationsShown(item);
    FirstLanguageReads(witnesses);
    var listed := StringList(StrList(BucketTranslationSources(item)));
    if listed != [] {
      assert listed[0] in listed;
    }
    if w, source :| w in witnesses && source != "" && NamesTranslation(w, source) {
      assert source in listed;
    }
    forall language | WitnessLanguage(witnesses, language) ensures language == FirstLanguage(witnesses) {
      OneLanguage(witnesses, language, FirstLanguage(witnesses));
    }
    StatusesTrimmed();
  }

  lemma StatusesTrimmed()
    ensures Trimmed("translation-derived") && Trimmed("source-language") && Trimmed("english-or-unknown")
  {
  }

  lemma OneLanguage(witnesses: seq<Fields>, language: string, other: string)
    requires WitnessLanguage(witnesses, language) && WitnessLanguage(witnesses, other)
    ensures language == other
  {
    hide String, LanguageOf;
    if !NoLanguage(witnesses) {
      var i :|
        0 <= i < |witnesses| && LanguageOf(witnesses[i]) == language && language != "" && NoLanguage(witnesses[..i]);
      var j :| 0 <= j < |witnesses| && LanguageOf(witnesses[j]) == other && other != "" && NoLanguage(witnesses[..j]);
    }
  }

  function LanguagesOf(attestation: Fields): seq<string> {
    [String(Get(EvidenceOf(attestation), SourceLang)), String(Get(EvidenceOf(attestation), GlossLang))]
  }

  lemma OverFirst(witnesses: seq<Fields>, value: Fields -> seq<string>)
    requires witnesses != []
    ensures Over(witnesses, value) == value(witnesses[0]) + Over(witnesses[1..], value)
  {
    var lists := seq(|witnesses|, i requires 0 <= i < |witnesses| => value(witnesses[i]));
    assert lists[1..] == seq(|witnesses[1..]|, i requires 0 <= i < |witnesses[1..]| => value(witnesses[1..][i]));
  }

  lemma DedupeSteps(values: seq<string>)
    requires values != []
    ensures values[0] == "" ==> Dedupe(values) == Dedupe(values[1..])
    ensures values[0] != "" ==> Dedupe(values) != [] && Dedupe(values)[0] == values[0]
  {
  }

  lemma DedupeTwo(first: string, second: string, rest: seq<string>)
    ensures var once := Dedupe([first, second] + rest);
      && (first != "" ==> once != [] && once[0] == first)
      && (first == "" && second != "" ==> once != [] && once[0] == second)
      && (first == "" && second == "" ==> once == Dedupe(rest))
  {
    var all := [first, second] + rest;
    assert all[0] == first && all[1..] == [second] + rest;
    DedupeSteps(all);
    DedupeSteps([second] + rest);
    assert ([second] + rest)[1..] == rest;
  }

  ghost predicate FirstListed(witnesses: seq<Fields>, listed: seq<string>) {
    if NoLanguage(witnesses) then listed == [] else listed != [] && FirstNamed(witnesses, listed[0])
  }

  lemma FirstListedNow(item: Fields, rest: seq<Fields>, listed: seq<string>)
    requires LanguageOf(item) != "" && listed != [] && listed[0] == SourceLanguageOf(item)
    ensures FirstListed([item] + rest, listed)
  {
    hide LanguageOf, SourceLanguageOf;
    var all := [item] + rest;
    assert all[0] == item && all[..0] == [];
  }

  lemma FirstListedLater(item: Fields, rest: seq<Fields>, listed: seq<string>)
    requires LanguageOf(item) == "" && FirstListed(rest, listed)
    ensures FirstListed([item] + rest, listed)
  {
    hide LanguageOf, SourceLanguageOf;
    var all := [item] + rest;
    assert forall i :: 0 <= i < |rest| ==> all[i + 1] == rest[i];
    if NoLanguage(rest) {
      assert NoLanguage(all);
    } else {
      var i :| 0 <= i < |rest| && LanguageOf(rest[i]) != "" && NoLanguage(rest[..i])
               && listed[0] == SourceLanguageOf(rest[i]);
      assert all[..i + 1] == [item] + rest[..i];
      assert LanguageOf(all[i + 1]) != "" && NoLanguage(all[..i + 1]);
    }
  }

  lemma LanguageParts(item: Fields)
    ensures var languages := LanguagesOf(item);
      && languages == [languages[0], languages[1]]
      && (LanguageOf(item) == "" <==> languages[0] == "" && languages[1] == "")
      && SourceLanguageOf(item) == if languages[0] != "" then languages[0] else languages[1]
  {
    hide String;
  }

  lemma {:induction false} LanguagesListed(witnesses: seq<Fields>)
    ensures FirstListed(witnesses, Dedupe(Over(witnesses, LanguagesOf)))
  {
    if witnesses != [] {
      hide String, Dedupe, Over, FirstListed, LanguageOf, SourceLanguageOf, LanguagesOf;
      LanguageParts(witnesses[0]);
      OverFirst(witnesses, LanguagesOf);
      var languages := LanguagesOf(witnesses[0]);
      DedupeTwo(languages[0], languages[1], Over(witnesses[1..], LanguagesOf));
      LanguagesListed(witnesses[1..]);
      assert witnesses == [witnesses[0]] + witnesses[1..];
      var listed := Dedupe(Over(witnesses, LanguagesOf));
      if LanguageOf(witnesses[0]) == "" {
        FirstListedLater(witnesses[0], witnesses[1..], listed);
      } else {
        FirstListedNow(witnesses[0], witnesses[1..], listed);
      }
    } else {
      assert Over(witnesses, LanguagesOf) == [];
    }
  }

  lemma BucketLanguageReads(text: TextTools, item: Fields)
    ensures BucketLanguageShown(MappingList(Get(item, Witnesses)), BucketTranslationStatus(text, item),
                                BucketGlossLanguage(text, item))
    ensures Trimmed(BucketGlossLanguage(text, item))
  {
    hide String, Dedupe, NoLanguage, FirstNamed, MappingList, BucketTranslationStatus;
    var witnesses := MappingList(Get(item, Witnesses));
    LanguagesListed(witnesses);
    SameOver(witnesses, LanguagesOf, attestation =>
      [String(Get(EvidenceOf(attestation), SourceLang)), String(Get(EvidenceOf(attestation), GlossLang))]);
    var listed := Dedupe(Over(witnesses, LanguagesOf));
    forall s | s in listed ensures Trimmed(s) {
      OverHas(witnesses, LanguagesOf, s);
    }
    if listed != [] { assert listed[0] in listed; }
  }

  lemma SameOver(rows: seq<Fields>, value: Fields -> seq<string>, other: Fields -> seq<string>)
    requires forall row :: value(row) == other(row)
    ensures Over(rows, value) == Over(rows, other)
  {
    assert seq(|rows|, i requires 0 <= i < |rows| => value(rows[i]))
        == seq(|rows|, i requires 0 <= i < |rows| => other(rows[i]));
  }

  lemma BucketMeaningShows(text: TextTools, item: Fields)
    ensures ShowsBucket(text, item, BucketMeaning(text, item))
  {
    hide StringList, String, Dedupe, Over, StrList, BucketTranslationStatus, BucketGlossLanguage,
         BucketTranslationSources, EachOnce, BucketStatusShown, BucketLanguageShown, Trimmed, MappingList,
         NamesTranslation;
    BucketToolsShown(item);
    BucketRefsShown(item);
    BucketTranslationsShown(item);
    BucketStatusReads(text, item);
    BucketLanguageReads(text, item);
    StringOfTrimmed(BucketTranslationStatus(text, item));
    StringOfTrimmed(BucketGlossLanguage(text, item));
    StringAgain(Get(item, BucketId));
    StringAgain(Get(item, DisplayGloss));
    StringAgain(Get(item, NormalizedGloss));
    StringAgain(Get(item, ConfidenceLabel));
    NothingListed();
  }

  lemma NothingListed()
    ensures StringList(StrList([])) == []
  {
  }

  // ----- The meanings of a digest

  function Displayed(payload: Fields): seq<Fields> {
    MappingList(Get(Mapping(Get(payload, Display)), MeaningsKey))
  }

  function BucketsOf(payload: Fields): seq<Fields> {
    MappingList(Get(payload, Buckets))
  }

  /** One row for each displayed meaning, or for each bucket when none is displayed. */
  ghost predicate MeaningsShown(text: TextTools, payload: Fields, rows: seq<Fields>) {
    if Displayed(payload) != [] then
      && |rows| == |Displayed(payload)|
      && forall i :: 0 <= i < |rows| ==> ShowsMeaning(text, Displayed(payload)[i], rows[i])
    else
      && |rows| == |BucketsOf(payload)|
      && forall i :: 0 <= i < |rows| ==> ShowsBucket(text, BucketsOf(payload)[i], rows[i])
  }

  lemma MeaningsAreShown(text: TextTools, payload: Fields)
    ensures MeaningsShown(text, payload, MeaningsOf(text, payload))
  {
    hide ShowsMeaning, ShowsBucket, DisplayMeaning, BucketMeaning;
    forall item { DisplayMeaningShows(text, item); }
    forall item { BucketMeaningShows(text, item); }
  }

  lemma DigestMeanings(text: TextTools, payload: Fields, limits: Limits)
    ensures var rows, all := MappingList(Get(DigestOf(text, payload, limits), MeaningsKey)), MeaningsOf(text, payload);
      && MeaningsShown(text, payload, all)
      && |rows| == KeptOf(|all|, limits.maxMeanings) && (forall i :: 0 <= i < |rows| ==> rows[i] == all[i])
  {
    hide MeaningsOf, SliceTo, FormsOf, MorphologyForForms, DecompositionRows, PhrasePairsOf, DedupePhrases, UsageRow,
         MorphologyRow, EachRow, Over, Dedupe, String, StringList, StrList, ObjList, MappingList, MeaningsShown;
    MeaningsAreShown(text, payload);
    SliceKeeps(MeaningsOf(text, payload), limits.maxMeanings);
    ObjectsOfRows(SliceTo(MeaningsOf(text, payload), limits.maxMeanings));
  }

  /** The rows show the first so many items. */
  ghost predicate ShowsFirst(rows: seq<Fields>, items: seq<Fields>, most: int, shows: (Fields, Fields) -> bool) {
    |rows| == KeptOf(|items|, most) && forall i :: 0 <= i < |rows| ==> shows(items[i], rows[i])
  }

  lemma FirstShown(text: TextTools, payload: Fields, all: seq<Fields>, rows: seq<Fields>, most: int)
    requires MeaningsShown(text, payload, all) && |rows| == KeptOf(|all|, most)
    requires forall i :: 0 <= i < |rows| ==> rows[i] == all[i]
    ensures Displayed(payload) != [] ==>
      ShowsFirst(rows, Displayed(payload), most, (item, row) => ShowsMeaning(text, item, row))
    ensures Displayed(payload) == [] ==>
      ShowsFirst(rows, BucketsOf(payload), most, (item, row) => ShowsBucket(text, item, row))
  {
    hide ShowsMeaning, ShowsBucket, Displayed, BucketsOf;
  }

  /**
   The digest keeps as many of the displayed meanings as the limit allows, in order, and each row says what its
   meaning says; when none is displayed, the same of the buckets.
   */
  lemma DigestShowsMeanings(text: TextTools, payload: Fields, limits: Limits)
    ensures var rows := MappingList(Get(DigestOf(text, payload, limits), MeaningsKey));
      var shown := MappingList(Get(Mapping(Get(payload, Display)), MeaningsKey));
      if shown != [] then ShowsFirst(rows, shown, limits.maxMeanings, (item, row) => ShowsMeaning(text, item, row))
      else ShowsFirst(rows, MappingList(Get(payload, Buckets)), limits.maxMeanings,
                      (item, row) => ShowsBucket(text, item, row))
  {
    hide ShowsMeaning, ShowsBucket, MappingList, DigestOf, MeaningsOf, MeaningsShown, ShowsFirst, KeptOf;
    DigestMeanings(text, payload, limits);
    FirstShown(text, payload, MeaningsOf(text, payload), MappingList(Get(DigestOf(text, payload, limits), MeaningsKey)),
               limits.maxMeanings);
  }

  // ----- Forms, and the analyses on them

  /** The text without the white space around it. */
  ghost predicate TrimsTo(text: string, trimmed: string) {
    exists a, b :: 0 <= a <= b <= |text| && trimmed == text[a..b]
      && (forall i :: 0 <= i < a || b <= i < |text| ==> IsSpace(text[i]))
      && (trimmed != "" ==> !IsSpace(trimmed[0]) && !IsSpace(trimmed[|trimmed| - 1]))
  }

  lemma {:induction false} StripLeftCuts(s: string) returns (a: nat)
    ensures a <= |s| && StripLeft(s) == s[a..] && forall i :: 0 <= i < a ==> IsSpace(s[i])
  {
    a := 0;
    if s != "" && IsSpace(s[0]) {
      var k := StripLeftCuts(s[1..]);
      a := k + 1;
      assert forall i :: 0 < i < a ==> s[i] == s[1..][i - 1];
    }
  }

  lemma {:induction false} StripRightCuts(s: string) returns (b: nat)
    ensures b <= |s| && StripRight(s) == s[..b] && forall i :: b <= i < |s| ==> IsSpace(s[i])
  {
    b := |s|;
    if s != "" && IsSpace(s[|s| - 1]) {
      var n := |s| - 1;
      b := StripRightCuts(s[..n]);
      assert s[..n][..b] == s[..b];
      assert forall i :: b <= i < n ==> s[i] == s[..n][i];
    }
  }

  lemma StripTrimsTo(s: string)
    ensures TrimsTo(s, Strip(s))
  {
    var a := StripLeftCuts(s);
    var b := StripRightCuts(s[a..]);
    StripTrims(s);
    assert s[a..][..b] == s[a..a + b];
    assert forall i :: a + b <= i < |s| ==> s[i] == s[a..][i - a];
    assert Strip(s) == s[a..a + b];
  }

  /** What stands behind the last colon and before the next number sign, trimmed. */
  ghost predicate CleansTo(value: string, form: string) {
    exists i, j :: 0 <= i <= j <= |value| && (i == 0 || value[i - 1] == ':') && ':' !in value[i..]
      && '#' !in value[i..j] && (j == |value| || value[j] == '#') && TrimsTo(value[i..j], form)
  }

  lemma {:induction false} AfterLastCuts(s: string, c: char) returns (i: nat)
    ensures i <= |s| && AfterLast(s, c) == s[i..] && (i == 0 || s[i - 1] == c) && c !in s[i..]
  {
    if s == "" || s[|s| - 1] == c {
      i := |s|;
    } else {
      var n := |s| - 1;
      i := AfterLastCuts(s[..n], c);
      assert s[i..] == s[..n][i..] + [s[n]];
    }
  }

  lemma {:induction false} HeadCuts(s: string, c: char)
    ensures var h := Head(s, c); |h| <= |s| && h == s[..|h|] && c !in h && (|h| == |s| || s[|h|] == c)
  {
    if s != "" && s[0] != c {
      HeadCuts(s[1..], c);
    }
  }

  lemma CleanFormCuts(value: string)
    ensures CleansTo(value, CleanForm(value))
  {
    hide AfterLast, Head, Strip, TrimsTo;
    var i := AfterLastCuts(value, ':');
    var body := Head(AfterLast(value, ':'), '#');
    HeadCuts(AfterLast(value, ':'), '#');
    var j := i + |body|;
    assert value[i..][..|body|] == value[i..j];
    StripTrimsTo(body);
  }

  ghost predicate Cleaned(values: seq<string>, forms: seq<string>) {
    |forms| == |values| && forall i :: 0 <= i < |values| ==> CleansTo(values[i], forms[i])
  }

  lemma {:induction false} CleanFormsCut(values: seq<string>)
    ensures Cleaned(values, CleanForms(values))
  {
    if values != [] {
      hide CleanForm, CleansTo;
      CleanFormsCut(values[1..]);
      CleanFormCuts(values[0]);
      assert forall i :: 0 < i < |values| ==> values[i] == values[1..][i - 1];
    }
  }

  function HeaderForms(payload: Fields): seq<string> {
    StringList(Get(Mapping(Get(Mapping(Get(payload, Display)), Header)), Forms))
  }

  /** The forms of a digest: the header's, each once, or else those of the anchors. */
  ghost predicate FormsShown(payload: Fields, forms: seq<string>) {
    if HeaderForms(payload) != [] then
      exists cleaned :: Cleaned(HeaderForms(payload), cleaned) && EachOnce(forms, cleaned)
    else
      Cleaned(StringList(Get(payload, LexemeAnchors)), forms)
  }

  lemma FormsAreShown(payload: Fields)
    ensures FormsShown(payload, FormsOf(payload))
  {
    hide CleanForms, Dedupe, EachOnce, Cleaned, StringList;
    var names := HeaderForms(payload);
    CleanFormsCut(names);
    CleanFormsCut(StringList(Get(payload, LexemeAnchors)));
    DedupeEachOnce(CleanForms(names));
    CleanedNone(names);
  }

  lemma CleanedNone(values: seq<string>)
    ensures CleanForms(values) == [] <==> values == []
  {
  }

  /** The row says what the analysis says. */
  ghost predicate ShowsAnalysis(item: Fields, row: Fields) {
    && String(Get(row, Form)) == String(Get(item, Form))
    && String(Get(row, Lemma)) == String(Get(item, Lemma))
    && String(Get(row, Analysis)) == String(Get(item, Analysis))
    && String(Get(row, Source)) == String(Get(item, Source))
    && String(Get(row, FosterDisplay)) == String(Get(item, FosterDisplay))
    && String(Get(row, DisplayText)) == String(Get(item, DisplayText))
  }

  lemma MorphologyRowShows(item: Fields)
    ensures ShowsAnalysis(item, MorphologyRow(item))
  {
    hide String;
    StringAgain(Get(item, Form));
    StringAgain(Get(item, Lemma));
    StringAgain(Get(item, Analysis));
    StringAgain(Get(item, Source));
    StringAgain(Get(item, FosterDisplay));
    StringAgain(Get(item, DisplayText));
  }

  ghost predicate PickedThere(items: seq<Fields>, row: Fields, place: nat, wanted: string -> bool) {
    place < |items| && wanted(String(Get(items[place], Form))) && ShowsAnalysis(items[place], row)
  }

  /** `places` are the places of the items with such a form, in order, and each row says what the item there says. */
  ghost predicate PickedAt(items: seq<Fields>, rows: seq<Fields>, places: seq<nat>, wanted: string -> bool) {
    && |places| == |rows|
    && (forall i, j :: 0 <= i < j < |places| ==> places[i] < places[j])
    && (forall k :: 0 <= k < |places| ==> PickedThere(items, rows[k], places[k], wanted))
    && (forall n: nat :: n < |items| && wanted(String(Get(items[n], Form))) ==> n in places)
  }

  ghost predicate Picked(items: seq<Fields>, rows: seq<Fields>, wanted: string -> bool) {
    exists places :: PickedAt(items, rows, places, wanted)
  }

  function Shifted(places: seq<nat>): (r: seq<nat>)
    ensures |r| == |places| && forall i :: 0 <= i < |places| ==> r[i] == places[i] + 1
  {
    seq(|places|, i requires 0 <= i < |places| => places[i] + 1)
  }

  lemma PickLater(item: Fields, rest: seq<Fields>, rows: seq<Fields>, places: seq<nat>, wanted: string -> bool)
    requires PickedAt(rest, rows, places, wanted) && !wanted(String(Get(item, Form)))
    ensures PickedAt([item] + rest, rows, Shifted(places), wanted)
  {
    hide String, ShowsAnalysis, Get;
    PicksShift(item, rest, rows, places, wanted);
  }

  lemma PickFirst(item: Fields, rest: seq<Fields>, row: Fields, rows: seq<Fields>, places: seq<nat>,
                  wanted: string -> bool)
    requires PickedAt(rest, rows, places, wanted) && wanted(String(Get(item, Form))) && ShowsAnalysis(item, row)
    ensures PickedAt([item] + rest, [row] + rows, [0] + Shifted(places), wanted)
  {
    hide String, ShowsAnalysis, Get, PickedThere;
    PicksShift(item, rest, rows, places, wanted);
    var items, shifted := [item] + rest, Shifted(places);
    var all, shown := [0] + shifted, [row] + rows;
    PickedNow(items, row, wanted);
    forall k | 0 <= k < |all| ensures PickedThere(items, shown[k], all[k], wanted) {
      assert k > 0 ==> all[k] == shifted[k - 1] && shown[k] == rows[k - 1];
    }
    forall n: nat | n < |items| && wanted(String(Get(items[n], Form))) ensures n in all {
      assert n > 0 ==> n in shifted;
    }
    assert forall i, j :: 0 <= i < j < |all| ==> all[i] < all[j];
  }

  lemma PickedNow(items: seq<Fields>, row: Fields, wanted: string -> bool)
    requires items != [] && wanted(String(Get(items[0], Form))) && ShowsAnalysis(items[0], row)
    ensures PickedThere(items, row, 0, wanted)
  {
  }

  lemma PicksShift(item: Fields, rest: seq<Fields>, rows: seq<Fields>, places: seq<nat>, wanted: string -> bool)
    requires PickedAt(rest, rows, places, wanted)
    ensures forall k :: 0 <= k < |places| ==> PickedThere([item] + rest, rows[k], Shifted(places)[k], wanted)
    ensures forall n: nat :: 0 < n < |rest| + 1 && wanted(String(Get(([item] + rest)[n], Form))) ==>
      n in Shifted(places)
  {
    hide String, ShowsAnalysis, Get;
    var items, shifted := [item] + rest, Shifted(places);
    forall k | 0 <= k < |places| ensures PickedThere(items, rows[k], shifted[k], wanted) {
      assert PickedThere(rest, rows[k], places[k], wanted);
      assert items[shifted[k]] == rest[places[k]];
    }
    forall n: nat | 0 < n < |items| && wanted(String(Get(items[n], Form))) ensures n in shifted {
      assert rest[n - 1] == items[n];
      var k :| 0 <= k < |places| && places[k] == n - 1;
      assert shifted[k] == n;
    }
  }

  lemma {:induction false} SelectPicks(items: seq<Fields>, wanted: string -> bool) returns (places: seq<nat>)
    ensures PickedAt(items, Select(EachRow(items, MorphologyRow), row => wanted(String(Get(row, Form)))), places,
                     wanted)
  {
    hide String, ShowsAnalysis, MorphologyRow, PickedThere, Get;
    var rows := EachRow(items, MorphologyRow);
    if items == [] {
      places := [];
      assert rows == [];
    } else {
      hide PickedAt;
      var rest := items[1..];
      assert rows[1..] == EachRow(rest, MorphologyRow) && rows[0] == MorphologyRow(items[0]);
      var later := SelectPicks(rest, wanted);
      MorphologyRowShows(items[0]);
      FormShown(items[0]);
      assert items == [items[0]] + rest;
      var keep := (row: Fields) => wanted(String(Get(row, Form)));
      var picked := Select(EachRow(rest, MorphologyRow), keep);
      if wanted(String(Get(items[0], Form))) {
        PickFirst(items[0], rest, rows[0], picked, later, wanted);
        places := [0] + Shifted(later);
      } else {
        PickLater(items[0], rest, picked, later, wanted);
        places := Shifted(later);
      }
    }
  }

  lemma FormShown(item: Fields)
    ensures String(Get(MorphologyRow(item), Form)) == String(Get(item, Form))
  {
    hide String;
    StringAgain(Get(item, Form));
  }

  function AnalysesOf(payload: Fields): seq<Fields> {
    MappingList(Get(Mapping(Get(payload, Display)), Analysis))
  }

  lemma {:induction false} SelectAll(items: seq<Fields>)
    ensures Select(items, _ => true) == items
  {
    if items != [] {
      SelectAll(items[1..]);
      assert items == [items[0]] + items[1..];
    }
  }

  lemma SelectSame(items: seq<Fields>, keep: Fields -> bool, other: Fields -> bool)
    requires forall item :: keep(item) == other(item)
    ensures Select(items, keep) == Select(items, other)
  {
    if items != [] {
      SelectSame(items[1..], keep, other);
    }
  }

  /** With forms, the morphology is on them and the decomposition is not; without, all analyses are morphology. */
  lemma DigestShowsAnalyses(text: TextTools, payload: Fields, limits: Limits) returns (forms: seq<string>)
    ensures FormsShown(payload, forms)
    ensures var digest := DigestOf(text, payload, limits); var items := AnalysesOf(payload);
      && (forall form :: form in StringList(Get(digest, Forms)) <==> form in forms && form != "")
      && Picked(items, MappingList(Get(digest, Morphology)), form => forms == [] || form in forms)
      && Picked(items, MappingList(Get(digest, WordDecomposition)), form => forms != [] && form !in forms)
  {
    hide String, StringList, FormsOf, FormsShown, PickedAt, MorphologyRow, MeaningsOf, PhrasePairsOf, DedupePhrases,
         UsageRow, Over, Dedupe, StrList, ObjList, MappingList, EachRow, Select, SliceTo;
    forms := FormsOf(payload);
    FormsAreShown(payload);
    StringsOfTrimmed(forms);
    var items := AnalysesOf(payload);
    var rows := EachRow(items, MorphologyRow);
    ObjectsOfRows(MorphologyForForms(rows, forms));
    ObjectsOfRows(DecompositionRows(rows, forms));
    var on := SelectPicks(items, form => forms == [] || form in forms);
    var off := SelectPicks(items, form => forms != [] && form !in forms);
    MorphologySelected(rows, forms);
  }

  lemma MorphologySelected(rows: seq<Fields>, forms: seq<string>)
    ensures MorphologyForForms(rows, forms) == Select(rows, row =>
      (form => forms == [] || form in forms)(String(Get(row, Form))))
    ensures DecompositionRows(rows, forms) == Select(rows, row =>
      (form => forms != [] && form !in forms)(String(Get(row, Form))))
  {
    hide String, Get;
    var on := (row: Fields) => (form => forms == [] || form in forms)(String(Get(row, Form)));
    var off := (row: Fields) => (form => forms != [] && form !in forms)(String(Get(row, Form)));
    if forms == [] {
      SelectAll(rows);
      SelectSame(rows, on, _ => true);
      SelectNone(rows, off);
    } else {
      SelectSame(rows, on, row => String(Get(row, Form)) in forms);
      SelectSame(rows, off, row => String(Get(row, Form)) !in forms);
    }
  }

  lemma SelectNone(items: seq<Fields>, keep: Fields -> bool)
    requires forall item :: !keep(item)
    ensures Select(items, keep) == []
  {
    if items != [] {
      SelectNone(items[1..], keep);
    }
  }

  // ----- Usages

  /** Author and title with a comma between, if there are both, and the citation behind. */
  ghost predicate LabelShown(item: Fields, shown: string) {
    var author, title := String(Get(item, Author)), String(Get(item, Title));
    var citation := String(Get(item, CitationPath));
    var work := if author == "" then title else if title == "" then author else author + ", " + title;
    if citation == "" then shown == work else TrimsTo(work + " " + citation, shown)
  }

  ghost predicate ShowsUsage(item: Fields, row: Fields) {
    && String(Get(row, WorkId)) == String(Get(item, WorkId))
    && String(Get(row, CitationPath)) == String(Get(item, CitationPath))
    && String(Get(row, Snippet)) == String(Get(item, if Truthy(Get(item, Snippet)) then Snippet else Text))
    && LabelShown(item, String(Get(row, Label)))
  }

  lemma WorkTrimmed(author: string, title: string)
    requires Trimmed(author) && Trimmed(title)
    ensures author != "" && title != "" ==> Trimmed(author + ", " + title)
    ensures author == "" ==> author + title == title
    ensures title == "" ==> author + title == author
  {
    var work := author + ", " + title;
    if author != "" && title != "" {
      assert work[0] == author[0] && work[|work| - 1] == title[|title| - 1];
    }
  }

  lemma UsageRowShows(item: Fields)
    ensures ShowsUsage(item, UsageRow(item))
  {
    hide String, Strip, TrimsTo, Trimmed;
    var author, title := String(Get(item, Author)), String(Get(item, Title));
    var citation := String(Get(item, CitationPath));
    StringAgain(Get(item, WorkId));
    StringAgain(Get(item, CitationPath));
    StringAgain(Get(item, Snippet));
    StringAgain(Get(item, Text));
    WorkTrimmed(author, title);
    var work := if author != "" && title != "" then author + ", " + title else author + title;
    StripTrimsTo(work + " " + citation);
    StripTrims(work + " " + citation);
    StringOfTrimmed(if citation != "" then Strip(work + " " + citation) else work);
  }

  lemma DigestShowsUsages(text: TextTools, payload: Fields, limits: Limits)
    ensures ShowsFirst(MappingList(Get(DigestOf(text, payload, limits), ReaderUsages)),
                       MappingList(Get(Mapping(Get(payload, ReaderSearch)), Items)), limits.maxReaderUsages,
                       (item, row) => ShowsUsage(item, row))
  {
    hide MeaningsOf, SliceTo, FormsOf, MorphologyForForms, DecompositionRows, PhrasePairsOf, DedupePhrases, UsageRow,
         MorphologyRow, Over, Dedupe, String, StringList, StrList, ObjList, MappingList, ShowsUsage;
    var items := MappingList(Get(Mapping(Get(payload, ReaderSearch)), Items));
    var kept := SliceTo(items, limits.maxReaderUsages);
    SliceKeeps(items, limits.maxReaderUsages);
    ObjectsOfRows(EachRow(kept, UsageRow));
    forall item { UsageRowShows(item); }
  }

  // ----- Phrase pairs

  ghost predicate FirstPair(text: string, first: char, second: char, i: int) {
    && 0 <= i < |text| - 1 && text[i] == first && text[i + 1] == second
    && forall j :: 0 <= j < i ==> !(text[j] == first && text[j + 1] == second)
  }

  ghost predicate NoPair(text: string, first: char, second: char) {
    forall j :: 0 <= j < |text| - 1 ==> !(text[j] == first && text[j + 1] == second)
  }

  lemma {:induction false} FindPairFinds(s: string, first: char, second: char, i: nat)
    requires forall j :: 0 <= j < i && j < |s| - 1 ==> !(s[j] == first && s[j + 1] == second)
    ensures var found := FindPair(s, first, second, i);
      if found.Some? then FirstPair(s, first, second, found.value) else NoPair(s, first, second)
    decreases |s| - i
  {
    if i + 1 < |s| && !(s[i] == first && s[i + 1] == second) {
      FindPairFinds(s, first, second, i + 1);
    }
  }

  /** The example is cut at its first `=>`, or else at its first `->`, and the parts are trimmed. */
  ghost predicate SplitsTo(example: string, phrase: string, gloss: string) {
    if i :| FirstPair(example, '=', '>', i) then TrimsTo(example[..i], phrase) && TrimsTo(example[i + 2..], gloss)
    else if i :| FirstPair(example, '-', '>', i) then TrimsTo(example[..i], phrase) && TrimsTo(example[i + 2..], gloss)
    else TrimsTo(example, phrase) && gloss == ""
  }

  lemma SplitPhraseSplits(example: string)
    ensures SplitsTo(example, SplitPhrase(example).0, SplitPhrase(example).1)
  {
    hide FindPair, Strip, TrimsTo;
    FindPairFinds(example, '=', '>', 0);
    FindPairFinds(example, '-', '>', 0);
    forall s { StripTrimsTo(s); }
  }

  /** An example that is no more than a citation gives no pair. */
  ghost predicate OnlyCites(text: TextTools, example: string) {
    NoPair(example, '=', '>') && NoPair(example, '-', '>') && text.citesOnly(Strip(example))
  }

  function FirstOf(values: seq<string>): string {
    if |values| > 0 then values[0] else ""
  }

  /** The pair is the example, with the first source and the first reference of its meaning. */
  ghost predicate ShowsPair(meaning: Fields, example: string, pair: Fields) {
    && SplitsTo(example, String(Get(pair, Phrase)), String(Get(pair, Gloss)))
    && String(Get(pair, Source)) == FirstOf(StringList(Get(meaning, Sources)))
    && String(Get(pair, SourceRef)) == FirstOf(StringList(Get(meaning, SourceRefs)))
  }

  ghost predicate PairOf(text: TextTools, meanings: seq<Fields>, meaning: Fields, example: string) {
    meaning in meanings && example in StringList(Get(meaning, Examples)) && !OnlyCites(text, example)
  }

  ghost predicate IsPair(text: TextTools, meanings: seq<Fields>, pair: Fields) {
    exists meaning, example :: PairOf(text, meanings, meaning, example) && ShowsPair(meaning, example, pair)
  }

  ghost predicate HasPair(meaning: Fields, example: string, pairs: seq<Fields>) {
    (exists pair :: pair in pairs && ShowsPair(meaning, example, pair)) || exists gloss :: SplitsTo(example, "", gloss)
  }

  /** The pairs are the examples of these meanings, but for bare citations and empty phrases, each pair once. */
  ghost predicate PairsShown(text: TextTools, meanings: seq<Fields>, pairs: seq<Fields>) {
    && (forall pair :: pair in pairs ==> String(Get(pair, Phrase)) != "" && IsPair(text, meanings, pair))
    && (forall meaning, example :: PairOf(text, meanings, meaning, example) ==> HasPair(meaning, example, pairs))
    && (forall i, j :: 0 <= i < j < |pairs| ==> !PhraseMatches(pairs[i], pairs[j]))
  }

  lemma OnlyCitesMeans(text: TextTools, example: string)
    ensures OnlyCites(text, example) <==> CitationOnly(text, example)
  {
    hide FindPair, Strip;
    FindPairFinds(example, '=', '>', 0);
    FindPairFinds(example, '-', '>', 0);
  }

  lemma {:induction false} PhraseRowsHave(text: TextTools, examples: seq<string>, source: string, ref: string,
                                          row: Fields)
    ensures row in PhraseRowsOf(text, examples, source, ref) <==>
      exists example :: example in examples && !CitationOnly(text, example) && row == PhraseRow(example, source, ref)
  {
    hide PhraseRow, CitationOnly;
    if examples != [] {
      PhraseRowsHave(text, examples[1..], source, ref, row);
      assert forall example :: example in examples <==> example == examples[0] || example in examples[1..];
    }
  }

  function RowOf(meaning: Fields, example: string): Fields {
    PhraseRow(example, FirstOf(StringList(Get(meaning, Sources))), FirstOf(StringList(Get(meaning, SourceRefs))))
  }

  ghost predicate IsRow(text: TextTools, meanings: seq<Fields>, row: Fields) {
    exists meaning, example :: PairOf(text, meanings, meaning, example) && row == RowOf(meaning, example)
  }

  lemma {:induction false} PhrasePairsHave(text: TextTools, meanings: seq<Fields>, row: Fields)
    ensures row in PhrasePairsOf(text, meanings) <==> IsRow(text, meanings, row)
  {
    hide PhraseRow, CitationOnly, OnlyCites, StringList, PhraseRowsOf;
    if meanings != [] {
      var first, rest := meanings[0], meanings[1..];
      var examples := StringList(Get(first, Examples));
      PhrasePairsHave(text, rest, row);
      var source, ref := Leading(StringList(Get(first, Sources))), Leading(StringList(Get(first, SourceRefs)));
      PhraseRowsHave(text, examples, source, ref, row);
      forall example { OnlyCitesMeans(text, example); }
      if example :| example in examples && !CitationOnly(text, example) && row == RowOf(first, example) {
        assert PairOf(text, meanings, first, example);
      }
      if meaning, example :| PairOf(text, rest, meaning, example) && row == RowOf(meaning, example) {
        assert PairOf(text, meanings, meaning, example);
      }
      if meaning, example :| PairOf(text, meanings, meaning, example) && row == RowOf(meaning, example) {
        assert meaning != first ==> PairOf(text, rest, meaning, example);
      }
    }
  }

  lemma RowShowsPair(meaning: Fields, example: string)
    ensures ShowsPair(meaning, example, RowOf(meaning, example))
  {
    hide String, StringList, FindPair, SplitsTo, Strip;
    SplitPhraseSplits(example);
    SplitPartsTrimmed(example);
    StringOfTrimmed(SplitPhrase(example).0);
    StringOfTrimmed(SplitPhrase(example).1);
    StringOfTrimmed(FirstOf(StringList(Get(meaning, Sources))));
    StringOfTrimmed(FirstOf(StringList(Get(meaning, SourceRefs))));
  }

  lemma SplitPartsTrimmed(example: string)
    ensures Trimmed(SplitPhrase(example).0) && Trimmed(SplitPhrase(example).1)
  {
    hide Strip, FindPair, Trimmed;
    forall s { StripTrims(s); }
    NothingTrimmed();
  }

  lemma NothingTrimmed()
    ensures Trimmed("")
  {
  }

  ghost predicate KeyIn(rows: seq<Fields>, key: (string, string, string, string)) {
    exists row :: row in rows && PhraseKey(row) == key
  }

  lemma KeyInMore(row: Fields, rows: seq<Fields>, key: (string, string, string, string))
    ensures KeyIn([row] + rows, key) <==> PhraseKey(row) == key || KeyIn(rows, key)
  {
    hide PhraseKey;
    if KeyIn(rows, key) {
      var other :| other in rows && PhraseKey(other) == key;
      assert other in [row] + rows;
    }
    assert row in [row] + rows;
  }

  /** The keys of the pairs are those of the rows, but for seen ones and empty phrases. */
  lemma {:induction false} DedupedKeys(seen: set<(string, string, string, string)>, rows: seq<Fields>,
                                       key: (string, string, string, string))
    ensures KeyIn(DedupePhrases(seen, rows), key) <==> key.0 != "" && key !in seen && KeyIn(rows, key)
    decreases |rows|
  {
    if rows != [] {
      hide KeyIn, PhraseKey, CleanPhrase;
      var first := PhraseKey(rows[0]);
      CleanPhraseKey(rows[0]);
      assert rows == [rows[0]] + rows[1..];
      KeyInMore(rows[0], rows[1..], key);
      if first.0 != "" && first !in seen {
        DedupedKeys(seen + {first}, rows[1..], key);
        KeyInMore(CleanPhrase(first), DedupePhrases(seen + {first}, rows[1..]), key);
      } else {
        DedupedKeys(seen, rows[1..], key);
      }
    }
  }

  ghost predicate DistinctKeys(pairs: seq<Fields>) {
    forall i, j :: 0 <= i < j < |pairs| ==> PhraseKey(pairs[i]) != PhraseKey(pairs[j])
  }

  lemma OneMoreKey(pair: Fields, tail: seq<Fields>)
    requires DistinctKeys(tail) && !KeyIn(tail, PhraseKey(pair))
    ensures DistinctKeys([pair] + tail)
  {
    hide PhraseKey;
    var pairs := [pair] + tail;
    forall i, j | 0 <= i < j < |pairs| ensures PhraseKey(pairs[i]) != PhraseKey(pairs[j]) {
      assert pairs[j] == tail[j - 1] && tail[j - 1] in tail;
      assert i > 0 ==> pairs[i] == tail[i - 1];
    }
  }

  lemma {:induction false} DedupedOnce(seen: set<(string, string, string, string)>, rows: seq<Fields>)
    ensures DistinctKeys(DedupePhrases(seen, rows))
    decreases |rows|
  {
    if rows != [] {
      hide PhraseKey, CleanPhrase, DistinctKeys, KeyIn;
      var key := PhraseKey(rows[0]);
      CleanPhraseKey(rows[0]);
      if key.0 != "" && key !in seen {
        DedupedOnce(seen + {key}, rows[1..]);
        DedupedKeys(seen + {key}, rows[1..], key);
        OneMoreKey(CleanPhrase(key), DedupePhrases(seen + {key}, rows[1..]));
      } else {
        DedupedOnce(seen, rows[1..]);
      }
    } else {
      assert DedupePhrases(seen, rows) == [];
    }
  }

  lemma CleanPhraseKey(row: Fields)
    ensures PhraseKey(CleanPhrase(PhraseKey(row))) == PhraseKey(row)
  {
    hide String;
    StringAgain(Get(row, Phrase));
    StringAgain(Get(row, Gloss));
    StringAgain(Get(row, Source));
    StringAgain(Get(row, SourceRef));
  }

  lemma SameKeyShows(meaning: Fields, example: string, row: Fields, pair: Fields)
    requires ShowsPair(meaning, example, row) && PhraseMatches(row, pair)
    ensures ShowsPair(meaning, example, pair)
  {
    hide String, StringList, SplitsTo;
  }

  lemma PairIsShown(text: TextTools, meanings: seq<Fields>, pair: Fields)
    requires pair in DedupePhrases({}, PhrasePairsOf(text, meanings))
    ensures String(Get(pair, Phrase)) != "" && IsPair(text, meanings, pair)
  {
    hide DedupePhrases, PhrasePairsOf, PairOf, ShowsPair, PhraseKey, String, PhraseMatches, RowOf, SplitsTo;
    var rows := PhrasePairsOf(text, meanings);
    assert KeyIn(DedupePhrases({}, rows), PhraseKey(pair));
    DedupedKeys({}, rows, PhraseKey(pair));
    PhraseOfKey(pair);
    var row :| row in rows && PhraseKey(row) == PhraseKey(pair);
    PhrasePairsHave(text, meanings, row);
    KeysMatch(row, pair);
    var meaning, example :| PairOf(text, meanings, meaning, example) && row == RowOf(meaning, example);
    RowShowsPair(meaning, example);
    SameKeyShows(meaning, example, row, pair);
  }

  lemma ExampleIsShown(text: TextTools, meanings: seq<Fields>, meaning: Fields, example: string)
    requires PairOf(text, meanings, meaning, example)
    ensures HasPair(meaning, example, DedupePhrases({}, PhrasePairsOf(text, meanings)))
  {
    hide DedupePhrases, PhrasePairsOf, PairOf, ShowsPair, PhraseKey, String, PhraseMatches, RowOf, SplitsTo;
    var rows, row := PhrasePairsOf(text, meanings), RowOf(meaning, example);
    RowShowsPair(meaning, example);
    PhraseOfKey(row);
    if PhraseKey(row).0 == "" {
      EmptyPhrase(meaning, example, row);
    } else {
      PhrasePairsHave(text, meanings, row);
      assert KeyIn(rows, PhraseKey(row));
      DedupedKeys({}, rows, PhraseKey(row));
      var pair :| pair in DedupePhrases({}, rows) && PhraseKey(pair) == PhraseKey(row);
      KeysMatch(row, pair);
      SameKeyShows(meaning, example, row, pair);
    }
  }

  lemma PhrasesShown(text: TextTools, meanings: seq<Fields>)
    ensures PairsShown(text, meanings, DedupePhrases({}, PhrasePairsOf(text, meanings)))
  {
    hide DedupePhrases, PhrasePairsOf, PairOf, IsPair, HasPair, PhraseKey, String, PhraseMatches;
    var pairs := DedupePhrases({}, PhrasePairsOf(text, meanings));
    DedupedOnce({}, PhrasePairsOf(text, meanings));
    forall row, pair ensures PhraseKey(row) == PhraseKey(pair) <==> PhraseMatches(row, pair) { KeysMatch(row, pair); }
    forall pair | pair in pairs ensures String(Get(pair, Phrase)) != "" && IsPair(text, meanings, pair) {
      PairIsShown(text, meanings, pair);
    }
    forall meaning, example | PairOf(text, meanings, meaning, example) ensures HasPair(meaning, example, pairs) {
      ExampleIsShown(text, meanings, meaning, example);
    }
  }

  lemma PhraseOfKey(row: Fields)
    ensures PhraseKey(row).0 == String(Get(row, Phrase))
  {
  }

  lemma EmptyPhrase(meaning: Fields, example: string, row: Fields)
    requires ShowsPair(meaning, example, row) && String(Get(row, Phrase)) == ""
    ensures exists gloss :: SplitsTo(example, "", gloss)
  {
    hide String;
    assert SplitsTo(example, "", String(Get(row, Gloss)));
  }

  lemma DigestShowsPhrases(text: TextTools, payload: Fields, limits: Limits)
    ensures var digest := DigestOf(text, payload, limits);
      PairsShown(text, MappingList(Get(digest, MeaningsKey)), MappingList(Get(digest, PhrasePairs)))
  {
    hide MeaningsOf, SliceTo, FormsOf, MorphologyForForms, DecompositionRows, PhrasePairsOf, DedupePhrases, UsageRow,
         MorphologyRow, EachRow, Over, Dedupe, String, StringList, StrList, ObjList, MappingList, PairsShown;
    var kept := SliceTo(MeaningsOf(text, payload), limits.maxMeanings);
    PhrasesShown(text, kept);
    ObjectsOfRows(kept);
    ObjectsOfRows(DedupePhrases({}, PhrasePairsOf(text, kept)));
  }

  // ----- References and the other fields

  /** The references of the rows, one after the other. */
  function RefsListed(rows: seq<Fields>): seq<string> {
    if rows == [] then [] else StringList(Get(rows[0], SourceRefs)) + RefsListed(rows[1..])
  }

  lemma {:induction false} RefsListedOver(rows: seq<Fields>)
    ensures RefsListed(rows) == Over(rows, row => StringList(Get(row, SourceRefs)))
  {
    hide StringList;
    if rows != [] {
      RefsListedOver(rows[1..]);
      OverFirst(rows, row => StringList(Get(row, SourceRefs)));
    } else {
      assert Over(rows, row => StringList(Get(row, SourceRefs))) == [];
    }
  }

  /** The digest lists the references of all meanings, kept or not, each once, as far as the limit allows. */
  lemma DigestShowsRefs(text: TextTools, payload: Fields, limits: Limits) returns (all: seq<Fields>, once: seq<string>)
    ensures MeaningsShown(text, payload, all) && EachOnce(once, RefsListed(all))
    ensures var refs := StringList(Get(DigestOf(text, payload, limits), SourceRefs));
      |refs| == KeptOf(|once|, limits.maxSourceRefs) && forall i :: 0 <= i < |refs| ==> refs[i] == once[i]
  {
    hide MeaningsOf, SliceTo, FormsOf, MorphologyForForms, DecompositionRows, PhrasePairsOf, DedupePhrases, UsageRow,
         MorphologyRow, EachRow, Over, Dedupe, String, StringList, StrList, ObjList, MappingList, MeaningsShown,
         EachOnce;
    all := MeaningsOf(text, payload);
    MeaningsAreShown(text, payload);
    RefsListedOver(all);
    once := Dedupe(Over(all, row => StringList(Get(row, SourceRefs))));
    DedupeEachOnce(Over(all, row => StringList(Get(row, SourceRefs))));
    SliceKeeps(once, limits.maxSourceRefs);
    forall s | s in once ensures s != "" && Trimmed(s) {
      OverHas(all, row => StringList(Get(row, SourceRefs)), s);
    }
    SlicedIn(once, limits.maxSourceRefs);
    TrimmedList(SliceTo(once, limits.maxSourceRefs));
  }

  lemma SlicedIn(values: seq<string>, most: int)
    ensures forall s :: s in SliceTo(values, most) ==> s in values
  {
  }

  lemma DigestShowsFields(text: TextTools, payload: Fields, limits: Limits)
    ensures var digest := DigestOf(text, payload, limits);
      && String(Get(digest, EncounterSchemaVersion)) == String(Get(payload, SchemaVersion))
      && Get(digest, EncounterHash) == Str(text.hash(text.encode(payload)))
      && String(Get(digest, Query)) == String(Get(payload, Query))
      && String(Get(digest, Language)) == String(Get(payload, Language))
      && String(Get(digest, ToolFilter)) == String(Get(Mapping(Get(payload, Request)), ToolFilter))
      && StringList(Get(digest, LexemeAnchors)) == StringList(Get(payload, LexemeAnchors))
      && StringList(Get(digest, Warnings)) == StringList(Get(payload, Warnings))
  {
    hide MeaningsOf, SliceTo, FormsOf, MorphologyForForms, DecompositionRows, PhrasePairsOf, DedupePhrases, UsageRow,
         MorphologyRow, EachRow, Over, Dedupe, String, StringList, StrList, ObjList, MappingList;
    StringAgain(Get(payload, SchemaVersion));
    StringAgain(Get(payload, Query));
    StringAgain(Get(payload, Language));
    StringAgain(Get(Mapping(Get(payload, Request)), ToolFilter));
    StringListAgain(Get(payload, LexemeAnchors));
    StringListAgain(Get(payload, Warnings));
  }

  // ----- The draft

  ghost predicate DraftsMeaning(text: TextTools, row: Fields, drafted: Fields) {
    var gloss := String(Get(row, Gloss));
    && StringList(Get(drafted, SourceGlosses)) == (if gloss != "" then [gloss] else [])
    && Get(drafted, Summary) == Str(text.draftGloss(gloss))
    && String(Get(drafted, SourceGlossLanguage)) == String(Get(row, SourceGlossLanguage))
    && String(Get(drafted, TranslationStatus)) == String(Get(row, TranslationStatus))
    && String(Get(drafted, Confidence)) == String(Get(row, Confidence))
    && StringList(Get(drafted, Sources)) == StringList(Get(row, Sources))
    && StringList(Get(drafted, TranslationSources)) == StringList(Get(row, TranslationSources))
    && StringList(Get(drafted, SourceRefs)) == StringList(Get(row, SourceRefs))
  }

  predicate DraftsGrammar(row: Fields, drafted: Fields) {
    && GrammarMatches(row, drafted)
    && String(Get(drafted, Lemma)) == String(Get(row, Lemma))
    && String(Get(drafted, FosterDisplay)) == String(Get(row, FosterDisplay))
    && String(Get(drafted, Summary)) ==
         String(Get(row, if String(Get(row, FosterDisplay)) != "" then FosterDisplay else Analysis))
  }

  /** One drafted row for each row, in order. */
  ghost predicate DraftsEach(rows: seq<Fields>, drafted: seq<Fields>, drafts: (Fields, Fields) -> bool) {
    |drafted| == |rows| && forall i :: 0 <= i < |rows| ==> drafts(rows[i], drafted[i])
  }

  lemma DraftMeaningShows(text: TextTools, row: Fields)
    ensures DraftsMeaning(text, row, DraftMeaning(text, row))
  {
    hide String, StringList, StrList;
    var gloss := String(Get(row, Gloss));
    TrimmedList(if gloss != "" then [gloss] else []);
    StringAgain(Get(row, SourceGlossLanguage));
    StringAgain(Get(row, TranslationStatus));
    StringAgain(Get(row, Confidence));
    StringListAgain(Get(row, Sources));
    StringListAgain(Get(row, TranslationSources));
    StringListAgain(Get(row, SourceRefs));
  }

  lemma DraftGrammarShows(row: Fields)
    ensures DraftsGrammar(row, DraftGrammar(row))
  {
    hide String;
    CopiedGrammar(row);
    StringAgain(Get(row, Lemma));
    StringAgain(Get(row, Analysis));
    StringAgain(Get(row, FosterDisplay));
  }

  lemma EachDrafted(rows: seq<Fields>, build: Fields -> Fields, drafts: (Fields, Fields) -> bool)
    requires forall row :: drafts(row, build(row))
    ensures DraftsEach(rows, EachRow(rows, build), drafts)
  {
  }

  /** The draft has one row for each row of the digest, which says what that row says. */
  lemma DraftShowsMeanings(text: TextTools, digest: Fields)
    ensures DraftsEach(MappingList(Get(digest, MeaningsKey)), MappingList(Get(DraftOf(text, digest), MeaningsKey)),
                       (row, drafted) => DraftsMeaning(text, row, drafted))
  {
    hide DraftOf, MappingList, DraftMeaning, DraftsMeaning, DraftsEach, EachRow;
    DraftRows(text, digest);
    forall row { DraftMeaningShows(text, row); }
    EachDrafted(MappingList(Get(digest, MeaningsKey)), item => DraftMeaning(text, item),
                (row, drafted) => DraftsMeaning(text, row, drafted));
  }

  lemma DraftShowsGrammar(text: TextTools, digest: Fields)
    ensures DraftsEach(MappingList(Get(digest, Morphology)), MappingList(Get(DraftOf(text, digest), GrammarFunctions)),
                       DraftsGrammar)
  {
    hide DraftOf, MappingList, DraftGrammar, DraftsGrammar, DraftsEach, EachRow;
    DraftRows(text, digest);
    forall row { DraftGrammarShows(row); }
    EachDrafted(MappingList(Get(digest, Morphology)), DraftGrammar, DraftsGrammar);
  }

  lemma DraftShowsDecompositions(text: TextTools, digest: Fields)
    ensures DraftsEach(MappingList(Get(digest, WordDecomposition)),
                       MappingList(Get(DraftOf(text, digest), WordDecomposition)), DecompositionMatches)
  {
    hide DraftOf, MappingList, DraftDecomposition, DecompositionMatches, DraftsEach, EachRow;
    DraftRows(text, digest);
    forall row { CopiedDecomposition(row); }
    EachDrafted(MappingList(Get(digest, WordDecomposition)), DraftDecomposition, DecompositionMatches);
  }

  lemma DraftShowsUsages(text: TextTools, digest: Fields)
    ensures DraftsEach(MappingList(Get(digest, ReaderUsages)), MappingList(Get(DraftOf(text, digest), ReaderUsages)),
                       UsageMatches)
  {
    hide DraftOf, MappingList, DraftUsage, UsageMatches, DraftsEach, EachRow;
    DraftRows(text, digest);
    forall row { CopiedUsage(row); }
    EachDrafted(MappingList(Get(digest, ReaderUsages)), DraftUsage, UsageMatches);
  }

  lemma DraftShowsPhrases(text: TextTools, digest: Fields)
    ensures DraftsEach(MappingList(Get(digest, PhrasePairs)), MappingList(Get(DraftOf(text, digest), PhrasePairs)),
                       PhraseMatches)
  {
    hide DraftOf, MappingList, DraftPhrase, PhraseMatches, DraftsEach, EachRow;
    DraftRows(text, digest);
    forall row { CopiedPhrase(row); }
    EachDrafted(MappingList(Get(digest, PhrasePairs)), DraftPhrase, PhraseMatches);
  }

  /** Every displayed gloss within the limit is in the draft, under the same place. */
  lemma DisplayedGlossesDrafted(text: TextTools, payload: Fields, limits: Limits, i: nat)
    requires var shown := MappingList(Get(Mapping(Get(payload, Display)), MeaningsKey));
      i < |shown| && i < limits.maxMeanings && String(Get(shown[i], DisplayGloss)) != ""
    ensures var shown := MappingList(Get(Mapping(Get(payload, Display)), MeaningsKey));
      var drafted := MappingList(Get(DraftOf(text, DigestOf(text, payload, limits)), MeaningsKey));
      i < |drafted| && StringList(Get(drafted[i], SourceGlosses)) == [String(Get(shown[i], DisplayGloss))]
  {
    hide MappingList, DigestOf, DraftOf, String, StringList, StatusShown, LanguageShown, RefsShown;
    DigestShowsMeanings(text, payload, limits);
    DraftShowsMeanings(text, DigestOf(text, payload, limits));
  }

  /** Single witnesses are pointed out, and the first two warnings passed on. */
  lemma DraftCaveatsShown(text: TextTools, digest: Fields)
    ensures var caveats, warnings := StringList(Get(DraftOf(text, digest), Caveats)), StringList(Get(digest, Warnings));
      var first := if |warnings| > 2 then warnings[..2] else warnings;
      if exists row :: row in MappingList(Get(digest, MeaningsKey)) && String(Get(row, Confidence)) == "single-witness"
      then caveats == ["Some meanings are " + "supported by a single witness."] + first
      else caveats == first
  {
    hide DraftSources, DraftMeaning, StringList, String, EachRow, MappingList, StrList, ObjList;
    TrimmedCaveats(digest);
    TrimmedList(DraftCaveats(digest));
  }

  lemma SentenceTrimmed()
    ensures SINGLE_WITNESS != "" && Trimmed(SINGLE_WITNESS)
  {
    var start, rest := "Some meanings are ", "supported by a single witness.";
    assert start[0] == 'S' && rest[|rest| - 1] == '.';
    assert SINGLE_WITNESS == start + rest;
  }

  lemma TrimmedCaveats(digest: Fields)
    ensures forall s :: s in DraftCaveats(digest) ==> s != "" && Trimmed(s)
  {
    hide StringList, String, MappingList;
    hide Trimmed;
    SentenceTrimmed();
    forall s | s in SliceTo(StringList(Get(digest, Warnings)), 2) ensures s != "" && Trimmed(s) {
      SlicedIn(StringList(Get(digest, Warnings)), 2);
    }
  }
}
