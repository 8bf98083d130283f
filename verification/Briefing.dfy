/** From an encounter payload to its digest, the deterministic draft, and the final briefing. */
module Briefing {
  import opened Outcomes
  import opened Json
  import opened Splitting
  import opened TextOrder
  import opened Validator

  /** What a cache key is a hash of. */
  datatype CacheMaterial = CacheMaterial(
    encounterHash: string, model: string, promptVersion: string, summarySchema: string, promptHash: string)

  /** The text operations whose results this model leaves open. */
  datatype TextTools = TextTools(
    normalize: string -> string,          // NFKC of NFC
    lower: string -> string,
    isDetailRef: string -> bool,
    citesOnly: string -> bool,            // the citation-only pattern
    draftGloss: string -> string,
    draftShort: (Fields, seq<Fields>) -> string,
    encode: Fields -> string,             // stable JSON text
    hash: string -> string,
    keyOf: CacheMaterial -> string,
    parse: string -> Option<Value>)       // JSON parsing of a model response, fences stripped

  // ----- Python slices and string operations

  /** `value.rsplit(c, 1)[-1]` */
  function AfterLast(s: string, c: char): string {
    if s == "" || s[|s| - 1] == c then "" else AfterLast(s[..|s| - 1], c) + [s[|s| - 1]]
  }

  function CleanForm(value: string): (r: string)
    ensures Trimmed(r)
  {
    var body := Head(AfterLast(value, ':'), '#');
    StripTrims(body);
    Strip(body)
  }

  /** Where the two-character delimiter first occurs. */
  function FindPair(s: string, first: char, second: char, i: nat): (r: Option<nat>)
    ensures r.Some? ==> r.value + 2 <= |s|
    decreases |s| - i
  {
    if i + 1 >= |s| then None
    else if s[i] == first && s[i + 1] == second then Some(i)
    else FindPair(s, first, second, i + 1)
  }

  /** `_dedupe`: the nonempty values, each where it first occurs. */
  function DedupeAfter(seen: set<string>, values: seq<string>): (r: seq<string>)
    ensures forall s :: s in r <==> s in values && s != "" && s !in seen
    decreases |values|
  {
    if values == [] then []
    else if values[0] != "" && values[0] !in seen then
      [values[0]] + DedupeAfter(seen + {values[0]}, values[1..])
    else DedupeAfter(seen, values[1..])
  }

  function Dedupe(values: seq<string>): (r: seq<string>)
    ensures forall s :: s in r <==> s in values && s != ""
  {
    DedupeAfter({}, values)
  }

  ghost predicate Distinct(values: seq<string>) {
    forall i, j :: 0 <= i < j < |values| ==> values[i] != values[j]
  }

  lemma {:induction false} DedupeDistinct(seen: set<string>, values: seq<string>)
    ensures Distinct(DedupeAfter(seen, values))
    decreases |values|
  {
    if values != [] {
      if values[0] != "" && values[0] !in seen {
        DedupeDistinct(seen + {values[0]}, values[1..]);
        var rest := DedupeAfter(seen + {values[0]}, values[1..]);
        assert forall k :: 0 <= k < |rest| ==> rest[k] in rest && rest[k] != values[0];
        assert Distinct([values[0]] + rest);
      } else {
        DedupeDistinct(seen, values[1..]);
      }
    }
  }

  method DedupeLoop(values: seq<string>) returns (output: seq<string>)
    ensures output == Dedupe(values)
    ensures Distinct(output)
  {
    var seen: set<string> := {};
    output := [];
    var i := 0;
    while i < |values|
      invariant 0 <= i <= |values|
      invariant output + DedupeAfter(seen, values[i..]) == Dedupe(values)
    {
      assert values[i..][1..] == values[i + 1..];
      if values[i] != "" && values[i] !in seen {
        assert output + ([values[i]] + DedupeAfter(seen + {values[i]}, values[i + 1..])) ==
          output + [values[i]] + DedupeAfter(seen + {values[i]}, values[i + 1..]);
        seen := seen + {values[i]};
        output := output + [values[i]];
      }
      i := i + 1;
    }
    assert values[i..] == [];
    DedupeDistinct({}, values);
  }

  // ----- Meanings

  function Flatten(lists: seq<seq<string>>): seq<string> {
    if lists == [] then [] else lists[0] + Flatten(lists[1..])
  }

  function Filter(keep: string -> bool, values: seq<string>): seq<string> {
    if values == [] then []
    else (if keep(values[0]) then [values[0]] else []) + Filter(keep, values[1..])
  }

  function TranslationStatusOf(text: TextTools, item: Fields): string {
    var langs := StringList(Get(item, SourceLangs));
    if StringList(Get(item, TranslationSources)) != [] || "translation" in StringList(Get(item, Sources)) then
      "translation-derived"
    else if langs != [] && (exists lang :: lang in langs && text.lower(lang) != "en") then
      "source-language"
    else
      "english-or-unknown"
  }

  function SourceGlossLanguageOf(text: TextTools, item: Fields): string {
    var langs := StringList(Get(item, SourceLangs));
    if langs != [] then langs[0]
    else if TranslationStatusOf(text, item) == "translation-derived" then "unknown-source"
    else "en"
  }

  function DisplayMeaning(text: TextTools, item: Fields): Fields {
    var detail := Mapping(Get(item, SourceDetailSummary));
    var refs := StringList(Get(item, SourceRefs)) +
                Filter(text.isDetailRef, StringList(Get(detail, SourceRefs)));
    map[BucketId := Str(String(Get(item, BucketId))),
        Gloss := Str(String(Get(item, DisplayGloss))),
        Sources := StrList(StringList(Get(item, Sources))),
        SourceGlossLanguage := Str(SourceGlossLanguageOf(text, item)),
        WitnessCount := Int(IntOf(Get(item, WitnessCount))),
        Confidence := Str(String(Get(item, ConfidenceLabel))),
        TranslationStatus := Str(TranslationStatusOf(text, item)),
        TranslationSources := StrList(StringList(Get(item, TranslationSources))),
        SourceRefs := StrList(Dedupe(refs)),
        Examples := StrList(StringList(Get(detail, Examples))),
        CrossRefs := StrList(StringList(Get(detail, CrossRefs)))]
  }

  function EvidenceOf(attestation: Fields): Fields {
    Mapping(Get(attestation, Evidence))
  }

  function WitnessTranslationSources(attestation: Fields): seq<string> {
    var evidence := EvidenceOf(attestation);
    (if String(Get(attestation, SourceTool)) == "translation" then [String(Get(evidence, SourceTool))] else []) +
    (if String(Get(evidence, SourceTool)) == "translation" then [String(Get(evidence, SourceDictionary))] else []) +
    (if String(Get(evidence, TranslationId)) != "" then [String(Get(evidence, SourceTool))] else [])
  }

  function Over(rows: seq<Fields>, value: Fields -> seq<string>): seq<string> {
    Flatten(seq(|rows|, i requires 0 <= i < |rows| => value(rows[i])))
  }

  function BucketTranslationSources(bucket: Fields): seq<string> {
    Dedupe(Over(Rows(bucket, Witnesses), WitnessTranslationSources))
  }

  /** The first attestation language that is not empty. */
  function FirstLanguage(witnesses: seq<Fields>): string {
    if witnesses == [] then ""
    else
      var evidence := EvidenceOf(witnesses[0]);
      var language := if String(Get(evidence, GlossLang)) != ""
                      then String(Get(evidence, GlossLang)) else String(Get(evidence, SourceLang));
      if language != "" then language else FirstLanguage(witnesses[1..])
  }

  function BucketTranslationStatus(text: TextTools, bucket: Fields): string {
    var language := FirstLanguage(Rows(bucket, Witnesses));
    if BucketTranslationSources(bucket) != [] then "translation-derived"
    else if language != "" && text.lower(language) != "en" then "source-language"
    else "english-or-unknown"
  }

  function BucketGlossLanguage(text: TextTools, bucket: Fields): string {
    var values := Dedupe(Over(Rows(bucket, Witnesses), attestation =>
      [String(Get(EvidenceOf(attestation), SourceLang)), String(Get(EvidenceOf(attestation), GlossLang))]));
    if values != [] then values[0]
    else if BucketTranslationStatus(text, bucket) == "translation-derived" then "unknown-source"
    else "en"
  }

  function ToolOf(attestation: Fields): seq<string> {
    [String(Get(attestation, SourceTool))]
  }

  function RefOf(attestation: Fields): seq<string> {
    [String(Get(EvidenceOf(attestation), SourceRef))]
  }

  function BucketMeaning(text: TextTools, item: Fields): Fields {
    var witnesses := Rows(item, Witnesses);
    var gloss := if Truthy(Get(item, DisplayGloss)) then Get(item, DisplayGloss) else Get(item, NormalizedGloss);
    map[BucketId := Str(String(Get(item, BucketId))),
        Gloss := Str(String(gloss)),
        Sources := StrList(Dedupe(Over(witnesses, ToolOf))),
        SourceGlossLanguage := Str(BucketGlossLanguage(text, item)),
        WitnessCount := Int(|witnesses|),
        Confidence := Str(String(Get(item, ConfidenceLabel))),
        TranslationStatus := Str(BucketTranslationStatus(text, item)),
        TranslationSources := StrList(BucketTranslationSources(item)),
        SourceRefs := StrList(Dedupe(Over(witnesses, RefOf))),
        Examples := StrList([]),
        CrossRefs := StrList([])]
  }

  function EachRow(rows: seq<Fields>, build: Fields -> Fields): (r: seq<Fields>)
    ensures |r| == |rows|
    ensures forall i :: 0 <= i < |rows| ==> r[i] == build(rows[i])
  {
    seq(|rows|, i requires 0 <= i < |rows| => build(rows[i]))
  }

  function MeaningsOf(text: TextTools, payload: Fields): seq<Fields> {
    var display := EachRow(Rows(Mapping(Get(payload, Display)), MeaningsKey), item => DisplayMeaning(text, item));
    if display != [] then display
    else EachRow(Rows(payload, Buckets), item => BucketMeaning(text, item))
  }

  // ----- Forms, morphology, usages, phrases

  function CleanForms(values: seq<string>): (r: seq<string>)
    ensures forall s :: s in r ==> Trimmed(s)
  {
    if values == [] then [] else [CleanForm(values[0])] + CleanForms(values[1..])
  }

  function FormsOf(payload: Fields): (r: seq<string>)
    ensures forall s :: s in r ==> Trimmed(s)
  {
    var header := Mapping(Get(Mapping(Get(payload, Display)), Header));
    var forms := CleanForms(StringList(Get(header, Forms)));
    if forms != [] then Dedupe(forms) else CleanForms(StringList(Get(payload, LexemeAnchors)))
  }

  function MorphologyRow(item: Fields): Fields {
    map[Form := Str(String(Get(item, Form))),
        Lemma := Str(String(Get(item, Lemma))),
        Analysis := Str(String(Get(item, Analysis))),
        Source := Str(String(Get(item, Source))),
        FosterDisplay := Str(String(Get(item, FosterDisplay))),
        DisplayText := Str(String(Get(item, DisplayText)))]
  }

  function Select(rows: seq<Fields>, keep: Fields -> bool): (r: seq<Fields>)
    ensures forall row :: row in r <==> row in rows && keep(row)
  {
    if rows == [] then [] else (if keep(rows[0]) then [rows[0]] else []) + Select(rows[1..], keep)
  }

  function MorphologyForForms(rows: seq<Fields>, forms: seq<string>): seq<Fields> {
    if forms == [] then rows else Select(rows, row => String(Get(row, Form)) in forms)
  }

  function DecompositionRows(rows: seq<Fields>, forms: seq<string>): seq<Fields> {
    if forms == [] then [] else Select(rows, row => String(Get(row, Form)) !in forms)
  }

  function UsageRow(item: Fields): Fields {
    var author, title := String(Get(item, Author)), String(Get(item, Title));
    var citation := String(Get(item, CitationPath));
    var work := if author != "" && title != "" then author + ", " + title else author + title;
    var snippet := if Truthy(Get(item, Snippet)) then Get(item, Snippet) else Get(item, Text);
    map[WorkId := Str(String(Get(item, WorkId))),
        Label := Str(if citation != "" then Strip(work + " " + citation) else work),
        CitationPath := Str(citation),
        Snippet := Str(String(snippet))]
  }

  function Leading(values: seq<string>): string {
    if values == [] then "" else values[0]
  }

  function SplitPhrase(value: string): (string, string) {
    match FindPair(value, '=', '>', 0)
    case Some(i) => (Strip(value[..i]), Strip(value[i + 2..]))
    case None =>
      match FindPair(value, '-', '>', 0)
      case Some(i) => (Strip(value[..i]), Strip(value[i + 2..]))
      case None => (Strip(value), "")
  }

  function PhraseRow(example: string, source: string, sourceRef: string): Fields {
    var split := SplitPhrase(example);
    map[Phrase := Str(split.0), Gloss := Str(split.1), Source := Str(source), SourceRef := Str(sourceRef)]
  }

  predicate CitationOnly(text: TextTools, value: string) {
    && FindPair(value, '=', '>', 0).None?
    && FindPair(value, '-', '>', 0).None?
    && text.citesOnly(Strip(value))
  }

  function PhraseRowsOf(text: TextTools, examples: seq<string>, source: string, sourceRef: string): seq<Fields> {
    if examples == [] then []
    else
      (if CitationOnly(text, examples[0]) then [] else [PhraseRow(examples[0], source, sourceRef)]) +
      PhraseRowsOf(text, examples[1..], source, sourceRef)
  }

  function CleanPhrase(key: (string, string, string, string)): Fields {
    map[Phrase := Str(key.0), Gloss := Str(key.1), Source := Str(key.2), SourceRef := Str(key.3)]
  }

  /** `_dedupe_phrase_pairs` */
  function DedupePhrases(seen: set<(string, string, string, string)>, rows: seq<Fields>): seq<Fields>
    decreases |rows|
  {
    if rows == [] then []
    else
      var key := PhraseKey(rows[0]);
      if key.0 != "" && key !in seen then [CleanPhrase(key)] + DedupePhrases(seen + {key}, rows[1..])
      else DedupePhrases(seen, rows[1..])
  }

  function PhrasePairsOf(text: TextTools, meanings: seq<Fields>): seq<Fields> {
    if meanings == [] then []
    else
      PhraseRowsOf(text, StringList(Get(meanings[0], Examples)),
                   Leading(StringList(Get(meanings[0], Sources))), Leading(StringList(Get(meanings[0], SourceRefs)))) +
      PhrasePairsOf(text, meanings[1..])
  }

  // ----- The digest

  datatype Limits = Limits(maxMeanings: int, maxReaderUsages: int, maxSourceRefs: int)

  /** `build_encounter_briefing_digest` */
  function DigestOf(text: TextTools, payload: Fields, limits: Limits): Fields {
    var meanings := MeaningsOf(text, payload);
    var kept := SliceTo(meanings, limits.maxMeanings);
    var forms := FormsOf(payload);
    var morphology := EachRow(Rows(Mapping(Get(payload, Display)), Analysis), MorphologyRow);
    var usages := SliceTo(Rows(Mapping(Get(payload, ReaderSearch)), Items), limits.maxReaderUsages);
    map[EncounterSchemaVersion := Str(String(Get(payload, SchemaVersion))),
        EncounterHash := Str(text.hash(text.encode(payload))),
        Query := Str(String(Get(payload, Query))),
        Language := Str(String(Get(payload, Language))),
        ToolFilter := Str(String(Get(Mapping(Get(payload, Request)), ToolFilter))),
        Forms := StrList(forms),
        LexemeAnchors := StrList(StringList(Get(payload, LexemeAnchors))),
        Morphology := ObjList(MorphologyForForms(morphology, forms)),
        WordDecomposition := ObjList(DecompositionRows(morphology, forms)),
        MeaningsKey := ObjList(kept),
        ReaderUsages := ObjList(EachRow(usages, UsageRow)),
        PhrasePairs := ObjList(DedupePhrases({}, PhrasePairsOf(text, kept))),
        SourceRefs := StrList(
          SliceTo(Dedupe(Over(meanings, row => StringList(Get(row, SourceRefs)))), limits.maxSourceRefs)),
        Warnings := StrList(StringList(Get(payload, Warnings)))]
  }

  // ----- The deterministic draft

  function DraftMeaning(text: TextTools, item: Fields): Fields {
    var gloss := String(Get(item, Gloss));
    map[Summary := Str(text.draftGloss(gloss)),
        SourceGlosses := StrList(if gloss != "" then [gloss] else []),
        SourceGlossLanguage := Str(String(Get(item, SourceGlossLanguage))),
        TranslationStatus := Str(String(Get(item, TranslationStatus))),
        Sources := StrList(StringList(Get(item, Sources))),
        TranslationSources := StrList(StringList(Get(item, TranslationSources))),
        Confidence := Str(String(Get(item, Confidence))),
        SourceRefs := StrList(StringList(Get(item, SourceRefs)))]
  }

  function DraftGrammar(item: Fields): Fields {
    var foster, analysis := String(Get(item, FosterDisplay)), String(Get(item, Analysis));
    map[Summary := Str(if foster != "" then foster else analysis),
        Form := Str(String(Get(item, Form))),
        Lemma := Str(String(Get(item, Lemma))),
        Analysis := Str(analysis),
        FosterDisplay := Str(foster),
        Source := Str(String(Get(item, Source)))]
  }

  function DraftDecomposition(item: Fields): Fields {
    map[Form := Str(String(Get(item, Form))),
        Lemma := Str(String(Get(item, Lemma))),
        Analysis := Str(String(Get(item, Analysis))),
        Source := Str(String(Get(item, Source))),
        Note := Str("Possible decomposition or alternate segment from the analyzer.")]
  }

  function DraftUsage(item: Fields): Fields {
    map[Label := Str(String(Get(item, Label))), Snippet := Str(String(Get(item, Snippet))), Note := Str("")]
  }

  function DraftPhrase(item: Fields): Fields {
    map[Phrase := Str(String(Get(item, Phrase))),
        Gloss := Str(String(Get(item, Gloss))),
        Source := Str(String(Get(item, Source))),
        SourceRef := Str(String(Get(item, SourceRef))),
        Note := Str("")]
  }

  function FieldSources(rows: seq<Fields>): seq<string> {
    Over(rows, row => if String(Get(row, Source)) != "" then [String(Get(row, Source))] else [])
  }

  function DraftSources(digest: Fields): seq<string> {
    Sorted(Dedupe(
      Over(Rows(digest, MeaningsKey), row => StringList(Get(row, Sources))) +
      FieldSources(Rows(digest, Morphology)) +
      FieldSources(Rows(digest, WordDecomposition))))
  }

  const SINGLE_WITNESS := "Some meanings are " + "supported by a single witness."

  function DraftCaveats(digest: Fields): seq<string> {
    (if exists row :: row in Rows(digest, MeaningsKey) && String(Get(row, Confidence)) == "single-witness"
     then [SINGLE_WITNESS] else []) +
    SliceTo(StringList(Get(digest, Warnings)), 2)
  }

  /** `deterministic_briefing_summary` */
  function DraftOf(text: TextTools, digest: Fields): Fields {
    var meanings := EachRow(Rows(digest, MeaningsKey), item => DraftMeaning(text, item));
    map[SchemaVersion := Str(SUMMARY_SCHEMA),
        Short := Str(text.draftShort(digest, meanings)),
        Forms := StrList(StringList(Get(digest, Forms))),
        MeaningsKey := ObjList(meanings),
        GrammarFunctions := ObjList(EachRow(Rows(digest, Morphology), DraftGrammar)),
        WordDecomposition := ObjList(EachRow(Rows(digest, WordDecomposition), DraftDecomposition)),
        ReaderUsages := ObjList(EachRow(Rows(digest, ReaderUsages), DraftUsage)),
        PhrasePairs := ObjList(EachRow(Rows(digest, PhrasePairs), DraftPhrase)),
        DictionarySources := StrList(DraftSources(digest)),
        Caveats := StrList(DraftCaveats(digest))]
  }

  // ----- The draft is grounded, exactly when the digest's grammar is about its own forms

  /** Every morphology row of the digest is about one of its forms, if it has both. */
  ghost predicate MorphologyOnForms(digest: Fields) {
    forall row :: row in Rows(digest, Morphology) && String(Get(row, Form)) != "" ==>
      FormGrounded(String(Get(row, Form)), digest)
  }

  lemma SchemaTrimmed()
    ensures Trimmed(SUMMARY_SCHEMA)
  {
    assert SUMMARY_SCHEMA[0] == 'l';
    assert SUMMARY_SCHEMA[|SUMMARY_SCHEMA| - 1] == '1';
  }

  lemma {:induction false} FlattenHas(lists: seq<seq<string>>, s: string)
    ensures s in Flatten(lists) <==> exists i :: 0 <= i < |lists| && s in lists[i]
  {
    if lists != [] {
      FlattenHas(lists[1..], s);
      if i :| 0 <= i < |lists| && s in lists[i] {
        assert i > 0 ==> s in lists[1..][i - 1];
      }
    }
  }

  lemma OverHas(rows: seq<Fields>, value: Fields -> seq<string>, s: string)
    ensures s in Over(rows, value) <==> exists row :: row in rows && s in value(row)
  {
    var lists := seq(|rows|, i requires 0 <= i < |rows| => value(rows[i]));
    FlattenHas(lists, s);
    if row :| row in rows && s in value(row) {
      var i :| 0 <= i < |rows| && rows[i] == row;
      assert s in lists[i];
    }
  }

  lemma StringAgain(value: Value)
    ensures String(Str(String(value))) == String(value)
  {
    StringOfTrimmed(String(value));
  }

  lemma StringListAgain(value: Value)
    ensures StringList(StrList(StringList(value))) == StringList(value)
  {
    StringsOfTrimmed(StringList(value));
  }

  lemma DraftMeaningReads(text: TextTools, item: Fields)
    ensures var draft := DraftMeaning(text, item);
            && (forall g :: g in StringList(Get(draft, SourceGlosses)) <==> g == String(Get(item, Gloss)) && g != "")
            && StringList(Get(draft, Sources)) == StringList(Get(item, Sources))
            && StringList(Get(draft, SourceRefs)) == StringList(Get(item, SourceRefs))
            && String(Get(draft, SourceGlossLanguage)) == String(Get(item, SourceGlossLanguage))
            && String(Get(draft, TranslationStatus)) == String(Get(item, TranslationStatus))
  {
    hide String, StringList, StrList;
    var gloss := String(Get(item, Gloss));
    StringsOfTrimmed(if gloss != "" then [gloss] else []);
    StringListAgain(Get(item, Sources));
    StringListAgain(Get(item, SourceRefs));
    StringAgain(Get(item, SourceGlossLanguage));
    StringAgain(Get(item, TranslationStatus));
  }

  lemma DraftMeaningFields(text: TextTools, item: Fields)
    ensures forall key :: key in MEANING_FIELDS ==> key in DraftMeaning(text, item)
  {
    hide String, StringList, StrList;
  }

  lemma DraftMeaningGrounded(text: TextTools, item: Fields, digest: Fields)
    requires item in Rows(digest, MeaningsKey)
    ensures MeaningGrounded(text.normalize, DraftMeaning(text, item), digest)
  {
    hide String, StringList, DraftMeaning;
    DraftMeaningReads(text, item);
  }

  /** Copying a row's string fields keeps its keys. */
  lemma CopiedGrammar(item: Fields)
    ensures GrammarMatches(item, DraftGrammar(item))
  {
    hide String;
    StringAgain(Get(item, Form));
    StringAgain(Get(item, Analysis));
    StringAgain(Get(item, Source));
  }

  lemma CopiedDecomposition(item: Fields)
    ensures DecompositionMatches(item, DraftDecomposition(item))
    ensures forall key :: key in DECOMPOSITION_FIELDS ==> key in DraftDecomposition(item)
  {
    hide String;
    StringAgain(Get(item, Form));
    StringAgain(Get(item, Lemma));
    StringAgain(Get(item, Analysis));
    StringAgain(Get(item, Source));
  }

  lemma CopiedUsage(item: Fields)
    ensures UsageMatches(item, DraftUsage(item))
  {
    hide String;
    StringAgain(Get(item, Label));
    StringAgain(Get(item, Snippet));
  }

  lemma CopiedPhrase(item: Fields)
    ensures PhraseMatches(item, DraftPhrase(item))
  {
    hide String;
    StringAgain(Get(item, Phrase));
    StringAgain(Get(item, Gloss));
    StringAgain(Get(item, Source));
    StringAgain(Get(item, SourceRef));
  }

  lemma FieldSourcesCited(rows: seq<Fields>, source: string)
    requires source in FieldSources(rows)
    ensures HasField(rows, Source, source)
  {
    hide String;
    var value := (row: Fields) => if String(Get(row, Source)) != "" then [String(Get(row, Source))] else [];
    OverHas(rows, value, source);
  }

  lemma DraftSourcesGrounded(digest: Fields, source: string)
    requires source in DraftSources(digest)
    ensures SourceGrounded(source, digest)
  {
    hide FieldSources, HasField, StringList;
    var meanings := Over(Rows(digest, MeaningsKey), row => StringList(Get(row, Sources)));
    var morphology := FieldSources(Rows(digest, Morphology));
    var decomposition := FieldSources(Rows(digest, WordDecomposition));
    var all := Dedupe(meanings + morphology + decomposition);
    assert source in multiset(Sorted(all));
    assert source in all;
    if source in meanings {
      OverHas(Rows(digest, MeaningsKey), row => StringList(Get(row, Sources)), source);
    } else if source in morphology {
      FieldSourcesCited(Rows(digest, Morphology), source);
    } else {
      FieldSourcesCited(Rows(digest, WordDecomposition), source);
    }
  }

  lemma SameBagDistinct(values: seq<string>, sorted: seq<string>)
    requires Distinct(values) && multiset(sorted) == multiset(values)
    ensures Distinct(sorted)
  {
    forall i, j | 0 <= i < j < |sorted| ensures sorted[i] != sorted[j] {
      if sorted[i] == sorted[j] {
        assert sorted == sorted[..i] + [sorted[i]] + sorted[i + 1..j] + [sorted[j]] + sorted[j + 1..];
        assert multiset(sorted)[sorted[i]] >= 2;
        DistinctOnce(values, sorted[i]);
      }
    }
  }

  lemma {:induction false} DistinctOnce(values: seq<string>, s: string)
    requires Distinct(values)
    ensures multiset(values)[s] <= 1
  {
    if values != [] {
      assert values == [values[0]] + values[1..];
      DistinctOnce(values[1..], s);
    }
  }

  lemma GroundedSourcesDrafted(digest: Fields, source: string)
    requires source != "" && SourceGrounded(source, digest)
    ensures source in DraftSources(digest)
  {
    hide String, StringList, Rows, Over, Dedupe;
    var meanings := Over(Rows(digest, MeaningsKey), row => StringList(Get(row, Sources)));
    var morphology := FieldSources(Rows(digest, Morphology));
    var decomposition := FieldSources(Rows(digest, WordDecomposition));
    var value := (row: Fields) => if String(Get(row, Source)) != "" then [String(Get(row, Source))] else [];
    OverHas(Rows(digest, MeaningsKey), row => StringList(Get(row, Sources)), source);
    OverHas(Rows(digest, Morphology), value, source);
    OverHas(Rows(digest, WordDecomposition), value, source);
    assert source in meanings + morphology + decomposition;
    assert source in multiset(Dedupe(meanings + morphology + decomposition));
    assert source in multiset(DraftSources(digest));
  }

  /** The draft lists the sources named in the digest, each once, in ascending order. */
  lemma DraftSourcesExact(text: TextTools, digest: Fields)
    ensures var listed := StringList(Get(DraftOf(text, digest), DictionarySources));
      && Ascending(listed) && Distinct(listed)
      && forall source :: source in listed <==> source != "" && SourceGrounded(source, digest)
  {
    hide DraftCaveats, DraftMeaning, StringList, String, EachRow, MappingList, StrList, ObjList, DraftSources,
         SourceGrounded, Over, Ascending, Distinct;
    DraftSourcesSorted(digest);
    DraftSourcesTrimmed(digest);
    StringsOfTrimmed(DraftSources(digest));
    forall source | source != "" && SourceGrounded(source, digest) ensures source in DraftSources(digest) {
      GroundedSourcesDrafted(digest, source);
    }
    forall source | source in DraftSources(digest) ensures SourceGrounded(source, digest) {
      DraftSourcesGrounded(digest, source);
    }
  }

  lemma DraftSourcesSorted(digest: Fields)
    ensures Ascending(DraftSources(digest)) && Distinct(DraftSources(digest)) && "" !in DraftSources(digest)
  {
    hide Over, FieldSources, Ascending, Distinct, StringList, Dedupe, Sorted;
    var all := Over(Rows(digest, MeaningsKey), row => StringList(Get(row, Sources))) +
      FieldSources(Rows(digest, Morphology)) + FieldSources(Rows(digest, WordDecomposition));
    SortedAscends(Dedupe(all));
    DedupeIsDistinct(all);
    SameBagDistinct(Dedupe(all), DraftSources(digest));
    var none := "";
    assert none !in Dedupe(all);
    assert none !in multiset(DraftSources(digest));
  }

  lemma DedupeIsDistinct(values: seq<string>)
    ensures Distinct(Dedupe(values))
  {
    DedupeDistinct({}, values);
  }

  lemma DraftSourcesTrimmed(digest: Fields)
    ensures forall s :: s in DraftSources(digest) ==> Trimmed(s)
  {
    hide StringList;
    forall s | s in DraftSources(digest) ensures Trimmed(s) {
      DraftSourcesGrounded(digest, s);
    }
  }

  /** Reading a section of the draft back gives the rows that were put there. */
  lemma DraftRows(text: TextTools, digest: Fields)
    ensures var draft := DraftOf(text, digest);
            && Rows(draft, MeaningsKey) == EachRow(Rows(digest, MeaningsKey), item => DraftMeaning(text, item))
            && Rows(draft, GrammarFunctions) == EachRow(Rows(digest, Morphology), DraftGrammar)
            && Rows(draft, WordDecomposition) == EachRow(Rows(digest, WordDecomposition), DraftDecomposition)
            && Rows(draft, ReaderUsages) == EachRow(Rows(digest, ReaderUsages), DraftUsage)
            && Rows(draft, PhrasePairs) == EachRow(Rows(digest, PhrasePairs), DraftPhrase)
  {
    hide EachRow, DraftSources, DraftCaveats, StringList, StrList, ObjList, MappingList;
    ObjectsOfRows(EachRow(Rows(digest, MeaningsKey), item => DraftMeaning(text, item)));
    ObjectsOfRows(EachRow(Rows(digest, Morphology), DraftGrammar));
    ObjectsOfRows(EachRow(Rows(digest, WordDecomposition), DraftDecomposition));
    ObjectsOfRows(EachRow(Rows(digest, ReaderUsages), DraftUsage));
    ObjectsOfRows(EachRow(Rows(digest, PhrasePairs), DraftPhrase));
  }

  lemma DraftKeys(text: TextTools, digest: Fields)
    ensures forall key :: key in REQUIRED_FIELDS ==> key in DraftOf(text, digest)
    ensures forall key :: key in LIST_FIELDS ==> Get(DraftOf(text, digest), key).Arr?
    ensures forall key :: key in OBJECT_LIST_FIELDS ==> ObjectsOnly(Get(DraftOf(text, digest), key))
  {
    hide DraftSources, DraftCaveats, DraftMeaning, StringList, String, EachRow, MappingList;
  }

  lemma DraftShaped(text: TextTools, digest: Fields)
    ensures WellShaped(DraftOf(text, digest))
  {
    hide DraftOf, DraftMeaning, DraftDecomposition, MappingList, StringList, String, WellShaped, ObjectsOnly;
    ShapeListed(DraftOf(text, digest));
    DraftKeys(text, digest);
    DraftRows(text, digest);
    forall item | item in Rows(digest, MeaningsKey) { DraftMeaningFields(text, item); }
    forall item | item in Rows(digest, WordDecomposition) { CopiedDecomposition(item); }
  }

  lemma DraftReads(text: TextTools, digest: Fields)
    ensures String(Get(DraftOf(text, digest), SchemaVersion)) == SUMMARY_SCHEMA
    ensures StringList(Get(DraftOf(text, digest), Forms)) == StringList(Get(digest, Forms))
    ensures forall s :: s in StringList(Get(DraftOf(text, digest), DictionarySources)) ==> s in DraftSources(digest)
  {
    hide DraftSources, DraftCaveats, DraftMeaning, StringList, String, EachRow, MappingList, StrList, ObjList;
    SchemaTrimmed();
    StringOfTrimmed(SUMMARY_SCHEMA);
    StringListAgain(Get(digest, Forms));
    DraftSourcesTrimmed(digest);
    StringsOfTrimmed(DraftSources(digest));
  }

  /** What holds of every built row holds of every row of the list. */
  lemma BuiltRows(rows: seq<Fields>, build: Fields -> Fields, good: Fields -> bool)
    ensures (forall item :: item in EachRow(rows, build) ==> good(item)) <==>
            (forall row :: row in rows ==> good(build(row)))
  {
    var built := EachRow(rows, build);
    if forall item :: item in built ==> good(item) {
      forall row | row in rows ensures good(build(row)) {
        var i :| 0 <= i < |rows| && rows[i] == row;
        assert built[i] in built;
      }
    }
  }

  lemma DraftGrammarGrounded(text: TextTools, digest: Fields)
    ensures MorphologyOnForms(digest) <==>
            (forall item :: item in Rows(DraftOf(text, digest), GrammarFunctions) ==> GrammarGrounded(item, digest))
  {
    hide DraftOf, FormGrounded, String, DraftGrammar, Rows, EachRow;
    DraftRows(text, digest);
    BuiltRows(Rows(digest, Morphology), DraftGrammar, item => GrammarGrounded(item, digest));
    forall row | row in Rows(digest, Morphology)
      ensures GrammarGrounded(DraftGrammar(row), digest) <==>
        (String(Get(row, Form)) != "" ==> FormGrounded(String(Get(row, Form)), digest))
    {
      CopiedGrammar(row);
    }
  }

  lemma DraftMeaningsGrounded(text: TextTools, digest: Fields)
    ensures forall item :: item in Rows(DraftOf(text, digest), MeaningsKey) ==>
      MeaningGrounded(text.normalize, item, digest)
  {
    hide DraftOf, MeaningGrounded, DraftMeaning, Rows, EachRow;
    DraftRows(text, digest);
    BuiltRows(Rows(digest, MeaningsKey), item => DraftMeaning(text, item),
              item => MeaningGrounded(text.normalize, item, digest));
    forall item | item in Rows(digest, MeaningsKey) { DraftMeaningGrounded(text, item, digest); }
  }

  lemma DraftOtherRowsGrounded(text: TextTools, digest: Fields)
    ensures forall item :: item in Rows(DraftOf(text, digest), WordDecomposition) ==>
      DecompositionGrounded(item, digest)
    ensures forall item :: item in Rows(DraftOf(text, digest), ReaderUsages) ==> UsageGrounded(item, digest)
    ensures forall item :: item in Rows(DraftOf(text, digest), PhrasePairs) ==> PhraseGrounded(item, digest)
  {
    hide DraftOf, String, DraftDecomposition, DraftUsage, DraftPhrase, Rows, EachRow, DecompositionMatches,
         UsageMatches, PhraseMatches;
    DraftRows(text, digest);
    BuiltRows(Rows(digest, WordDecomposition), DraftDecomposition, item => DecompositionGrounded(item, digest));
    BuiltRows(Rows(digest, ReaderUsages), DraftUsage, item => UsageGrounded(item, digest));
    BuiltRows(Rows(digest, PhrasePairs), DraftPhrase, item => PhraseGrounded(item, digest));
    forall item | item in Rows(digest, WordDecomposition) { CopiedDecomposition(item); }
    forall item | item in Rows(digest, ReaderUsages) { CopiedUsage(item); }
    forall item | item in Rows(digest, PhrasePairs) { CopiedPhrase(item); }
  }

  /** For any digest at all, its draft is grounded in it exactly when its morphology is on its forms. */
  lemma DraftGroundedExactly(text: TextTools, digest: Fields)
    ensures Grounded(text.normalize, DraftOf(text, digest), digest) <==> MorphologyOnForms(digest)
  {
    hide DraftOf, WellShaped, MeaningGrounded, GrammarGrounded, DecompositionGrounded, UsageGrounded, PhraseGrounded,
         SourceGrounded, StringList, DraftSources, MorphologyOnForms, Rows;
    DraftShaped(text, digest);
    DraftReads(text, digest);
    DraftMeaningsGrounded(text, digest);
    DraftGrammarGrounded(text, digest);
    DraftOtherRowsGrounded(text, digest);
    forall source | source in DraftSources(digest) ensures SourceGrounded(source, digest) {
      DraftSourcesGrounded(digest, source);
    }
    assert forall form :: form in StringList(Get(digest, Forms)) ==> FormGrounded(form, digest);
  }

  /** A built digest keeps only morphology about its own forms, whatever the payload and limits. */
  lemma BuiltDigestOnForms(text: TextTools, payload: Fields, limits: Limits)
    ensures MorphologyOnForms(DigestOf(text, payload, limits))
  {
    hide String, MeaningsOf, FormsOf, MorphologyRow, PhrasePairsOf, DedupePhrases, Over, StringList, Select, UsageRow;
    var digest := DigestOf(text, payload, limits);
    var forms := FormsOf(payload);
    var all := EachRow(Rows(Mapping(Get(payload, Display)), Analysis), MorphologyRow);
    ObjectsOfRows(MorphologyForForms(all, forms));
    StringsOfTrimmed(forms);
  }
}
