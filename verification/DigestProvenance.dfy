/** Where the evidence of a digest, and so of a final briefing, comes from: the encounter payload. */
module DigestProvenance {
  import opened Outcomes
  import opened Json
  import opened Splitting
  import opened Validator
  import opened Briefing
  import opened BriefingFlow

  function DisplayRows(payload: Fields, section: Key): seq<Fields> {
    Rows(Mapping(Get(payload, Display)), section)
  }

  /** A gloss of the payload: of a displayed meaning, or of a bucket. */
  ghost predicate PayloadGloss(payload: Fields, gloss: string) {
    || HasField(DisplayRows(payload, MeaningsKey), DisplayGloss, gloss)
    || HasField(Rows(payload, Buckets), DisplayGloss, gloss)
    || HasField(Rows(payload, Buckets), NormalizedGloss, gloss)
  }

  ghost predicate WitnessTool(payload: Fields, source: string) {
    exists bucket, attestation ::
      && bucket in Rows(payload, Buckets) && attestation in Rows(bucket, Witnesses)
      && String(Get(attestation, SourceTool)) == source
  }

  ghost predicate WitnessRef(payload: Fields, ref: string) {
    exists bucket, attestation ::
      && bucket in Rows(payload, Buckets) && attestation in Rows(bucket, Witnesses)
      && String(Get(EvidenceOf(attestation), SourceRef)) == ref
  }

  ghost predicate DetailRef(payload: Fields, ref: string) {
    exists row ::
      && row in DisplayRows(payload, MeaningsKey)
      && ref in StringList(Get(Mapping(Get(row, SourceDetailSummary)), SourceRefs))
  }

  /** A source named in the payload: by a displayed meaning, a witness, or an analysis. */
  ghost predicate PayloadSource(payload: Fields, source: string) {
    || HasListed(DisplayRows(payload, MeaningsKey), Sources, source)
    || WitnessTool(payload, source)
    || HasField(DisplayRows(payload, Analysis), Source, source)
  }

  /** A reference of the payload: of a displayed meaning, of its source details, or of a witness. */
  ghost predicate PayloadRef(payload: Fields, ref: string) {
    HasListed(DisplayRows(payload, MeaningsKey), SourceRefs, ref) || DetailRef(payload, ref) || WitnessRef(payload, ref)
  }

  // ----- The rows of a built digest

  lemma DigestRows(text: TextTools, payload: Fields, limits: Limits)
    ensures var digest := DigestOf(text, payload, limits);
      var analysis := EachRow(DisplayRows(payload, Analysis), MorphologyRow);
      && Rows(digest, MeaningsKey) == SliceTo(MeaningsOf(text, payload), limits.maxMeanings)
      && Rows(digest, Morphology) == MorphologyForForms(analysis, FormsOf(payload))
      && Rows(digest, WordDecomposition) == DecompositionRows(analysis, FormsOf(payload))
      && Rows(digest, ReaderUsages)
         == EachRow(SliceTo(Rows(Mapping(Get(payload, ReaderSearch)), Items), limits.maxReaderUsages), UsageRow)
      && Rows(digest, PhrasePairs)
         == DedupePhrases({}, PhrasePairsOf(text, SliceTo(MeaningsOf(text, payload), limits.maxMeanings)))
  {
    hide MeaningsOf, MorphologyForForms, DecompositionRows, FormsOf, PhrasePairsOf, DedupePhrases, SliceTo, UsageRow,
         MorphologyRow, EachRow, Over, Dedupe, String, StringList, StrList, ObjList;
    var analysis := EachRow(DisplayRows(payload, Analysis), MorphologyRow);
    var kept := SliceTo(MeaningsOf(text, payload), limits.maxMeanings);
    ObjectsOfRows(kept);
    ObjectsOfRows(MorphologyForForms(analysis, FormsOf(payload)));
    ObjectsOfRows(DecompositionRows(analysis, FormsOf(payload)));
    ObjectsOfRows(EachRow(SliceTo(Rows(Mapping(Get(payload, ReaderSearch)), Items), limits.maxReaderUsages), UsageRow));
    ObjectsOfRows(DedupePhrases({}, PhrasePairsOf(text, kept)));
  }

  /** Each analysis of the payload is in the digest once: as morphology of a form, or as decomposition. */
  lemma AnalysesArePartitioned(text: TextTools, payload: Fields, limits: Limits)
    ensures var digest := DigestOf(text, payload, limits);
      var analysis := EachRow(DisplayRows(payload, Analysis), MorphologyRow);
      multiset(Rows(digest, Morphology)) + multiset(Rows(digest, WordDecomposition)) == multiset(analysis)
  {
    hide DigestOf, MorphologyRow, EachRow, FormsOf;
    DigestRows(text, payload, limits);
    SelectPartitions(EachRow(DisplayRows(payload, Analysis), MorphologyRow), FormsOf(payload));
  }

  lemma {:induction false} SelectPartitions(rows: seq<Fields>, forms: seq<string>)
    ensures multiset(Select(rows, row => String(Get(row, Form)) in forms))
          + multiset(Select(rows, row => String(Get(row, Form)) !in forms)) == multiset(rows)
  {
    hide String;
    if rows != [] {
      assert rows == [rows[0]] + rows[1..];
      SelectPartitions(rows[1..], forms);
    }
  }

  predicate SameAnalysis(item: Fields, row: Fields) {
    && GrammarMatches(item, row) && DecompositionMatches(item, row)
    && String(Get(item, Source)) == String(Get(row, Source))
  }

  lemma MorphologyFrom(payload: Fields, row: Fields)
    requires row in EachRow(DisplayRows(payload, Analysis), MorphologyRow)
    ensures exists item :: item in DisplayRows(payload, Analysis) && SameAnalysis(item, row)
  {
    hide String;
    var items := DisplayRows(payload, Analysis);
    var i :| 0 <= i < |items| && row == MorphologyRow(items[i]);
    StringAgain(Get(items[i], Form));
    StringAgain(Get(items[i], Lemma));
    StringAgain(Get(items[i], Analysis));
    StringAgain(Get(items[i], Source));
    assert SameAnalysis(items[i], row);
  }

  lemma AnalysisRowFrom(text: TextTools, payload: Fields, limits: Limits, row: Fields)
    requires var digest := DigestOf(text, payload, limits);
      row in Rows(digest, Morphology) || row in Rows(digest, WordDecomposition)
    ensures row in EachRow(DisplayRows(payload, Analysis), MorphologyRow)
  {
    hide DigestOf, EachRow, FormsOf, MorphologyRow;
    DigestRows(text, payload, limits);
  }

  lemma SlicePart<T>(items: seq<T>, n: int)
    ensures forall x :: x in SliceTo(items, n) ==> x in items
  {
  }

  /** What a meaning of the digest cites is cited in the payload. */
  ghost predicate CitesPayload(payload: Fields, row: Fields) {
    && PayloadGloss(payload, String(Get(row, Gloss)))
    && (forall source :: source in StringList(Get(row, Sources)) ==> PayloadSource(payload, source))
    && (forall ref :: ref in StringList(Get(row, SourceRefs)) ==> PayloadRef(payload, ref))
  }

  lemma DisplayMeaningCites(text: TextTools, payload: Fields, item: Fields)
    requires item in DisplayRows(payload, MeaningsKey)
    ensures CitesPayload(payload, DisplayMeaning(text, item))
  {
    hide String, StringList, StrList, TranslationStatusOf, SourceGlossLanguageOf, Dedupe, Filter;
    var row := DisplayMeaning(text, item);
    StringAgain(Get(item, DisplayGloss));
    StringListAgain(Get(item, Sources));
    var detail := StringList(Get(Mapping(Get(item, SourceDetailSummary)), SourceRefs));
    var listed := StringList(Get(item, SourceRefs));
    FilterPart(text.isDetailRef, detail);
    var refs := listed + Filter(text.isDetailRef, detail);
    assert forall s :: s in refs ==> Trimmed(s);
    StringsOfTrimmed(Dedupe(refs));
    forall ref | ref in StringList(Get(row, SourceRefs))
      ensures PayloadRef(payload, ref)
    {
      assert ref in refs;
    }
  }

  lemma {:induction false} FilterPart(keep: string -> bool, values: seq<string>)
    ensures forall s :: s in Filter(keep, values) ==> s in values
  {
    if values != [] {
      FilterPart(keep, values[1..]);
    }
  }

  lemma BucketToolsCite(payload: Fields, item: Fields)
    requires item in Rows(payload, Buckets)
    ensures var tools := Dedupe(Over(Rows(item, Witnesses), ToolOf));
      forall s :: s in StringList(StrList(tools)) ==> PayloadSource(payload, s)
  {
    hide String, StringList, StrList, Over, Rows, HasListed, HasField;
    var witnesses := Rows(item, Witnesses);
    var tools := Dedupe(Over(witnesses, ToolOf));
    forall s | s in tools
      ensures Trimmed(s) && WitnessTool(payload, s)
    {
      OverHas(witnesses, ToolOf, s);
      var w :| w in witnesses && s in ToolOf(w);
    }
    StringsOfTrimmed(tools);
  }

  lemma BucketRefsCite(payload: Fields, item: Fields)
    requires item in Rows(payload, Buckets)
    ensures var refs := Dedupe(Over(Rows(item, Witnesses), RefOf));
      forall s :: s in StringList(StrList(refs)) ==> PayloadRef(payload, s)
  {
    hide String, StringList, StrList, Over, Rows, HasListed, HasField, EvidenceOf;
    var witnesses := Rows(item, Witnesses);
    var refs := Dedupe(Over(witnesses, RefOf));
    forall s | s in refs
      ensures Trimmed(s) && WitnessRef(payload, s)
    {
      OverHas(witnesses, RefOf, s);
      var w :| w in witnesses && s in RefOf(w);
    }
    StringsOfTrimmed(refs);
  }

  lemma BucketMeaningCites(text: TextTools, payload: Fields, item: Fields)
    requires item in Rows(payload, Buckets)
    ensures CitesPayload(payload, BucketMeaning(text, item))
  {
    hide String, StringList, StrList, BucketGlossLanguage, BucketTranslationStatus, BucketTranslationSources, Dedupe,
         Over, Rows, PayloadSource, PayloadRef;
    StringAgain(Get(item, DisplayGloss));
    StringAgain(Get(item, NormalizedGloss));
    BucketToolsCite(payload, item);
    BucketRefsCite(payload, item);
  }

  lemma MeaningsCite(text: TextTools, payload: Fields, row: Fields)
    requires row in MeaningsOf(text, payload)
    ensures CitesPayload(payload, row)
  {
    hide CitesPayload, DisplayMeaning, BucketMeaning;
    var display, buckets := DisplayRows(payload, MeaningsKey), Rows(payload, Buckets);
    if display != [] {
      var i :| 0 <= i < |display| && row == DisplayMeaning(text, display[i]);
      DisplayMeaningCites(text, payload, display[i]);
    } else {
      var i :| 0 <= i < |buckets| && row == BucketMeaning(text, buckets[i]);
      BucketMeaningCites(text, payload, buckets[i]);
    }
  }

  // ----- Phrase pairs

  /** A phrase of an example, with the leading source and reference of the meaning it illustrates. */
  ghost predicate PhraseOfMeaning(meaning: Fields, row: Fields) {
    var source, ref := Leading(StringList(Get(meaning, Sources))), Leading(StringList(Get(meaning, SourceRefs)));
    exists example :: example in StringList(Get(meaning, Examples)) && row == PhraseRow(example, source, ref)
  }

  lemma {:induction false} PhraseRowsFrom(text: TextTools, examples: seq<string>, source: string, ref: string,
                                          row: Fields)
    requires row in PhraseRowsOf(text, examples, source, ref)
    ensures exists example :: example in examples && row == PhraseRow(example, source, ref)
  {
    hide PhraseRow, CitationOnly;
    if row in PhraseRowsOf(text, examples[1..], source, ref) {
      PhraseRowsFrom(text, examples[1..], source, ref, row);
    } else {
      assert examples[0] in examples;
    }
  }

  lemma {:induction false} PhrasePairsFrom(text: TextTools, meanings: seq<Fields>, row: Fields)
    requires row in PhrasePairsOf(text, meanings)
    ensures exists meaning :: meaning in meanings && PhraseOfMeaning(meaning, row)
  {
    hide String, PhraseRow, PhraseRowsOf, StringList;
    if row in PhrasePairsOf(text, meanings[1..]) {
      PhrasePairsFrom(text, meanings[1..], row);
    } else {
      PhraseRowsFrom(text, StringList(Get(meanings[0], Examples)), Leading(StringList(Get(meanings[0], Sources))),
                     Leading(StringList(Get(meanings[0], SourceRefs))), row);
      assert PhraseOfMeaning(meanings[0], row);
    }
  }

  lemma PhraseRowReads(example: string, source: string, ref: string)
    requires Trimmed(source) && Trimmed(ref)
    ensures PhraseKey(PhraseRow(example, source, ref)) == (SplitPhrase(example).0, SplitPhrase(example).1, source, ref)
  {
    hide String, FindPair;
    SplitTrimmed(example);
    StringOfTrimmed(SplitPhrase(example).0);
    StringOfTrimmed(SplitPhrase(example).1);
    StringOfTrimmed(source);
    StringOfTrimmed(ref);
  }

  lemma SplitTrimmed(example: string)
    ensures Trimmed(SplitPhrase(example).0) && Trimmed(SplitPhrase(example).1)
  {
    hide Strip;
    StripTrims(example);
    var arrow, dash := FindPair(example, '=', '>', 0), FindPair(example, '-', '>', 0);
    if arrow.Some? {
      StripTrims(example[..arrow.value]);
      StripTrims(example[arrow.value + 2..]);
    } else if dash.Some? {
      StripTrims(example[..dash.value]);
      StripTrims(example[dash.value + 2..]);
    }
  }

  lemma {:induction false} DedupedFrom(seen: set<(string, string, string, string)>, rows: seq<Fields>, row: Fields)
    requires row in DedupePhrases(seen, rows)
    ensures exists original :: original in rows && PhraseKey(original) == PhraseKey(row)
    decreases |rows|
  {
    hide String;
    if rows != [] {
      var key := PhraseKey(rows[0]);
      CleanKey(rows[0]);
      if key.0 != "" && key !in seen {
        if row != CleanPhrase(key) {
          DedupedFrom(seen + {key}, rows[1..], row);
        } else {
          assert rows[0] in rows;
        }
      } else {
        DedupedFrom(seen, rows[1..], row);
      }
    }
  }

  lemma CleanKey(row: Fields)
    ensures PhraseKey(CleanPhrase(PhraseKey(row))) == PhraseKey(row)
  {
    hide String;
    StringAgain(Get(row, Phrase));
    StringAgain(Get(row, Gloss));
    StringAgain(Get(row, Source));
    StringAgain(Get(row, SourceRef));
  }

  // ----- The whole digest

  lemma MeaningRowsCite(text: TextTools, payload: Fields, limits: Limits, row: Fields)
    requires row in Rows(DigestOf(text, payload, limits), MeaningsKey)
    ensures CitesPayload(payload, row)
  {
    hide DigestOf, MeaningsOf, CitesPayload;
    DigestRows(text, payload, limits);
    SlicePart(MeaningsOf(text, payload), limits.maxMeanings);
    MeaningsCite(text, payload, row);
  }

  lemma DigestRefsCite(text: TextTools, payload: Fields, limits: Limits, ref: string)
    requires ref in StringList(Get(DigestOf(text, payload, limits), SourceRefs))
    ensures PayloadRef(payload, ref)
  {
    hide MeaningsOf, PayloadRef, FormsOf, MorphologyForForms, DecompositionRows, PhrasePairsOf, DedupePhrases, SliceTo,
         UsageRow, MorphologyRow, EachRow, Over, String, StringList, StrList, ObjList, PayloadGloss, PayloadSource,
         Rows;
    var meanings := MeaningsOf(text, payload);
    var all := Over(meanings, row => StringList(Get(row, SourceRefs)));
    SlicePart(Dedupe(all), limits.maxSourceRefs);
    forall s | s in all ensures Trimmed(s) {
      OverHas(meanings, row => StringList(Get(row, SourceRefs)), s);
    }
    StringsOfTrimmed(SliceTo(Dedupe(all), limits.maxSourceRefs));
    OverHas(meanings, row => StringList(Get(row, SourceRefs)), ref);
    var row :| row in meanings && ref in StringList(Get(row, SourceRefs));
    MeaningsCite(text, payload, row);
  }

  /** A phrase pair of the digest illustrates a meaning of the digest. */
  lemma DigestPhraseFrom(text: TextTools, payload: Fields, limits: Limits, row: Fields)
    requires row in Rows(DigestOf(text, payload, limits), PhrasePairs)
    ensures exists meaning, original ::
      && meaning in MeaningsOf(text, payload)
      && PhraseOfMeaning(meaning, original) && PhraseKey(original) == PhraseKey(row)
  {
    hide DigestOf, MeaningsOf, PhrasePairsOf, DedupePhrases, SliceTo, String, StringList, EachRow, MorphologyForForms,
         DecompositionRows, FormsOf, Rows, PhraseKey, PhraseOfMeaning;
    DigestRows(text, payload, limits);
    var kept := SliceTo(MeaningsOf(text, payload), limits.maxMeanings);
    DedupedFrom({}, PhrasePairsOf(text, kept), row);
    var original :| original in PhrasePairsOf(text, kept) && PhraseKey(original) == PhraseKey(row);
    PhrasePairsFrom(text, kept, original);
    var meaning :| meaning in kept && PhraseOfMeaning(meaning, original);
    SlicePart(MeaningsOf(text, payload), limits.maxMeanings);
  }

  lemma PhraseRefsCite(text: TextTools, payload: Fields, limits: Limits, ref: string)
    requires ref != "" && HasField(Rows(DigestOf(text, payload, limits), PhrasePairs), SourceRef, ref)
    ensures PayloadRef(payload, ref)
  {
    hide DigestOf, MeaningsOf, PayloadRef, PayloadGloss, PayloadSource, String, StringList, Rows, PhraseRow,
         SplitPhrase;
    var row :| row in Rows(DigestOf(text, payload, limits), PhrasePairs) && String(Get(row, SourceRef)) == ref;
    DigestPhraseFrom(text, payload, limits, row);
    var meaning, original :| meaning in MeaningsOf(text, payload) && PhraseOfMeaning(meaning, original)
      && PhraseKey(original) == PhraseKey(row);
    var source, first := Leading(StringList(Get(meaning, Sources))), Leading(StringList(Get(meaning, SourceRefs)));
    var example :| example in StringList(Get(meaning, Examples)) && original == PhraseRow(example, source, first);
    PhraseRowReads(example, source, first);
    assert first == ref && first in StringList(Get(meaning, SourceRefs));
    MeaningsCite(text, payload, meaning);
  }

  /** What a reference, source or gloss grounded in a built digest is grounded in. */
  lemma RefFromPayload(text: TextTools, payload: Fields, limits: Limits, ref: string)
    requires ref != "" && RefGrounded(ref, DigestOf(text, payload, limits))
    ensures PayloadRef(payload, ref)
  {
    hide DigestOf, PayloadRef, PayloadGloss, PayloadSource, StringList, String, Rows;
    var digest := DigestOf(text, payload, limits);
    if ref in StringList(Get(digest, SourceRefs)) {
      DigestRefsCite(text, payload, limits, ref);
    } else if HasField(Rows(digest, PhrasePairs), SourceRef, ref) {
      PhraseRefsCite(text, payload, limits, ref);
    } else {
      var row :| row in Rows(digest, MeaningsKey) && ref in StringList(Get(row, SourceRefs));
      MeaningRowsCite(text, payload, limits, row);
    }
  }

  lemma SourceFromPayload(text: TextTools, payload: Fields, limits: Limits, source: string)
    requires SourceGrounded(source, DigestOf(text, payload, limits))
    ensures PayloadSource(payload, source)
  {
    hide DigestOf, PayloadRef, PayloadGloss, StringList, String, Rows, WitnessTool, GrammarMatches,
         DecompositionMatches, MorphologyRow;
    var digest := DigestOf(text, payload, limits);
    if HasListed(Rows(digest, MeaningsKey), Sources, source) {
      var row :| row in Rows(digest, MeaningsKey) && source in StringList(Get(row, Sources));
      MeaningRowsCite(text, payload, limits, row);
    } else {
      var row :|
        && (row in Rows(digest, Morphology) || row in Rows(digest, WordDecomposition))
        && String(Get(row, Source)) == source;
      AnalysisRowFrom(text, payload, limits, row);
      MorphologyFrom(payload, row);
    }
  }

  /** The gloss, as it stands or normalized, is one of the payload's. */
  ghost predicate GlossOfPayload(normalize: string -> string, payload: Fields, gloss: string) {
    exists original :: PayloadGloss(payload, original) && (original == gloss || normalize(original) == normalize(gloss))
  }

  lemma GlossFromPayload(text: TextTools, payload: Fields, limits: Limits, gloss: string)
    requires GlossCited(text.normalize, DigestOf(text, payload, limits), gloss)
    ensures GlossOfPayload(text.normalize, payload, gloss)
  {
    hide DigestOf, PayloadRef, PayloadGloss, PayloadSource, StringList, String, Rows;
    var digest := DigestOf(text, payload, limits);
    var row :| row in Rows(digest, MeaningsKey)
      && (String(Get(row, Gloss)) == gloss || text.normalize(String(Get(row, Gloss))) == text.normalize(gloss));
    MeaningRowsCite(text, payload, limits, row);
  }

  /** The forms the payload names: those of the display header, or else its lexeme anchors. */
  function PayloadForms(payload: Fields): seq<string> {
    var listed := StringList(Get(Mapping(Get(Mapping(Get(payload, Display)), Header)), Forms));
    if listed != [] then listed else StringList(Get(payload, LexemeAnchors))
  }

  /** The form is one the payload names, or the payload names none. */
  ghost predicate FormOfPayload(payload: Fields, form: string) {
    || (exists original :: original in PayloadForms(payload) && CleanForm(original) == form)
    || (forall original :: original in PayloadForms(payload) ==> CleanForm(original) == "")
  }

  /** The usage is that of a hit of the reader search. */
  ghost predicate UsageOfPayload(payload: Fields, usage: Fields) {
    exists hit :: hit in Rows(Mapping(Get(payload, ReaderSearch)), Items) && UsageMatches(UsageRow(hit), usage)
  }

  /** The example of the displayed meaning splits into phrase and gloss of the pair, which cites that meaning. */
  ghost predicate PhraseOfExample(meaning: Fields, example: string, pair: Fields) {
    var detail := Mapping(Get(meaning, SourceDetailSummary));
    var ref := String(Get(pair, SourceRef));
    && example in StringList(Get(detail, Examples))
    && SplitPhrase(example) == (String(Get(pair, Phrase)), String(Get(pair, Gloss)))
    && String(Get(pair, Source)) == Leading(StringList(Get(meaning, Sources)))
    && (ref == "" || ref in StringList(Get(meaning, SourceRefs)) || ref in StringList(Get(detail, SourceRefs)))
  }

  /** The phrase pair is an example of a displayed meaning, and cites that very meaning. */
  ghost predicate PhraseOfPayload(payload: Fields, pair: Fields) {
    exists meaning, example :: meaning in DisplayRows(payload, MeaningsKey) && PhraseOfExample(meaning, example, pair)
  }

  /**
   * What the validator checks of a summary of a built digest is in the payload: its forms, glosses (up to
   * normalization), sources, references, analyses, decompositions, usages and phrase pairs.
   */
  ghost predicate FromPayload(normalize: string -> string, summary: Fields, payload: Fields) {
    && (forall form :: form in StringList(Get(summary, Forms)) ==> FormOfPayload(payload, form))
    && (forall item, gloss :: item in Rows(summary, MeaningsKey) && gloss in StringList(Get(item, SourceGlosses)) ==>
          GlossOfPayload(normalize, payload, gloss))
    && (forall item, source :: item in Rows(summary, MeaningsKey) && source in StringList(Get(item, Sources)) ==>
          PayloadSource(payload, source))
    && (forall item, ref :: item in Rows(summary, MeaningsKey) && ref in StringList(Get(item, SourceRefs)) ==>
          PayloadRef(payload, ref))
    && (forall source :: source in StringList(Get(summary, DictionarySources)) ==> PayloadSource(payload, source))
    && (forall item :: item in Rows(summary, GrammarFunctions) ==>
          exists row :: row in DisplayRows(payload, Analysis) && GrammarMatches(row, item))
    && (forall item :: item in Rows(summary, WordDecomposition) ==>
          exists row :: row in DisplayRows(payload, Analysis) && DecompositionMatches(row, item))
    && (forall item :: item in Rows(summary, ReaderUsages) ==> UsageOfPayload(payload, item))
    && (forall item :: item in Rows(summary, PhrasePairs) ==> PhraseOfPayload(payload, item))
  }

  lemma {:induction false} CleanFormsFrom(values: seq<string>)
    ensures forall form :: form in CleanForms(values) <==>
      exists original :: original in values && CleanForm(original) == form
  {
    hide CleanForm;
    if values != [] {
      CleanFormsFrom(values[1..]);
      assert forall original :: original in values <==> original == values[0] || original in values[1..];
    }
  }

  lemma FormFromPayload(text: TextTools, payload: Fields, limits: Limits, form: string)
    requires form != "" && FormGrounded(form, DigestOf(text, payload, limits))
    ensures FormOfPayload(payload, form)
  {
    hide CleanForm, MeaningsOf, MorphologyForForms, DecompositionRows, PhrasePairsOf, DedupePhrases, SliceTo, EachRow,
         Over, String, StringList, StrList, ObjList, Rows, CleanForms;
    var forms := FormsOf(payload);
    StringsOfTrimmed(forms);
    CleanFormsFrom(PayloadForms(payload));
    EmptyCleanForms(payload);
    assert forall s :: s in forms && s != "" ==> s in CleanForms(PayloadForms(payload));
    assert forall s :: s in CleanForms(PayloadForms(payload)) && s != "" ==> s in forms;
    assert StringList(Get(DigestOf(text, payload, limits), Forms)) == StringList(StrList(forms));
    if form !in forms {
      assert forall s :: s in forms ==> s == "";
      forall original | original in PayloadForms(payload)
        ensures CleanForm(original) == ""
      {
        assert CleanForm(original) in CleanForms(PayloadForms(payload));
      }
    }
  }

  /** Cleaning keeps the number of forms. */
  lemma EmptyCleanForms(payload: Fields)
    ensures var header := Mapping(Get(Mapping(Get(payload, Display)), Header));
      CleanForms(StringList(Get(header, Forms))) == [] <==> StringList(Get(header, Forms)) == []
  {
    hide CleanForm, StringList;
  }

  lemma UsageFromPayload(text: TextTools, payload: Fields, limits: Limits, item: Fields)
    requires UsageGrounded(item, DigestOf(text, payload, limits))
    ensures UsageOfPayload(payload, item)
  {
    hide DigestOf, UsageMatches, UsageRow, MeaningsOf, MorphologyForForms, DecompositionRows, PhrasePairsOf,
         DedupePhrases, FormsOf, SliceTo;
    DigestRows(text, payload, limits);
    var hits := Rows(Mapping(Get(payload, ReaderSearch)), Items);
    SlicePart(hits, limits.maxReaderUsages);
    var row :| row in Rows(DigestOf(text, payload, limits), ReaderUsages) && UsageMatches(row, item);
    var kept := SliceTo(hits, limits.maxReaderUsages);
    var i :| 0 <= i < |kept| && row == UsageRow(kept[i]);
    assert kept[i] in hits;
  }

  /** Only displayed meanings have examples. */
  lemma ExamplesAreDisplayed(text: TextTools, payload: Fields, meaning: Fields, example: string)
    requires meaning in MeaningsOf(text, payload) && example in StringList(Get(meaning, Examples))
    ensures exists item :: item in DisplayRows(payload, MeaningsKey) && meaning == DisplayMeaning(text, item)
  {
    hide DisplayMeaning;
    var display, buckets := DisplayRows(payload, MeaningsKey), Rows(payload, Buckets);
    if display == [] {
      var i :| 0 <= i < |buckets| && meaning == BucketMeaning(text, buckets[i]);
      NoBucketExamples(text, buckets[i]);
      assert false;
    }
  }

  lemma NoBucketExamples(text: TextTools, item: Fields)
    ensures StringList(Get(BucketMeaning(text, item), Examples)) == []
  {
    hide String, BucketGlossLanguage, BucketTranslationStatus, BucketTranslationSources, Dedupe, Over, Rows;
  }

  lemma DisplayMeaningReads(text: TextTools, item: Fields)
    ensures var row, detail := DisplayMeaning(text, item), Mapping(Get(item, SourceDetailSummary));
      && StringList(Get(row, Examples)) == StringList(Get(detail, Examples))
      && StringList(Get(row, Sources)) == StringList(Get(item, Sources))
      && forall ref :: ref in StringList(Get(row, SourceRefs)) ==>
           ref in StringList(Get(item, SourceRefs)) || ref in StringList(Get(detail, SourceRefs))
  {
    hide String, StringList, StrList, TranslationStatusOf, SourceGlossLanguageOf, Dedupe, Filter;
    var detail := Mapping(Get(item, SourceDetailSummary));
    StringListAgain(Get(item, Sources));
    StringListAgain(Get(detail, Examples));
    FilterPart(text.isDetailRef, StringList(Get(detail, SourceRefs)));
    var refs := StringList(Get(item, SourceRefs)) + Filter(text.isDetailRef, StringList(Get(detail, SourceRefs)));
    assert forall s :: s in refs ==> Trimmed(s);
    StringsOfTrimmed(Dedupe(refs));
  }

  lemma PhraseFromPayload(text: TextTools, payload: Fields, limits: Limits, item: Fields)
    requires PhraseGrounded(item, DigestOf(text, payload, limits))
    ensures PhraseOfPayload(payload, item)
  {
    hide DigestOf, MeaningsOf, DisplayMeaning, String, StringList, Rows, PhraseRow, SplitPhrase;
    var row :| row in Rows(DigestOf(text, payload, limits), PhrasePairs) && PhraseMatches(row, item);
    DigestPhraseFrom(text, payload, limits, row);
    var meaning, original :| meaning in MeaningsOf(text, payload) && PhraseOfMeaning(meaning, original)
      && PhraseKey(original) == PhraseKey(row);
    var source, first := Leading(StringList(Get(meaning, Sources))), Leading(StringList(Get(meaning, SourceRefs)));
    var example :| example in StringList(Get(meaning, Examples)) && original == PhraseRow(example, source, first);
    PhraseRowReads(example, source, first);
    ExamplesAreDisplayed(text, payload, meaning, example);
    var displayed :| displayed in DisplayRows(payload, MeaningsKey) && meaning == DisplayMeaning(text, displayed);
    DisplayMeaningReads(text, displayed);
    assert PhraseOfExample(displayed, example, item);
  }

  lemma GrammarFromPayload(text: TextTools, payload: Fields, limits: Limits, item: Fields)
    ensures GrammarGrounded(item, DigestOf(text, payload, limits)) ==>
      exists row :: row in DisplayRows(payload, Analysis) && GrammarMatches(row, item)
    ensures DecompositionGrounded(item, DigestOf(text, payload, limits)) ==>
      exists row :: row in DisplayRows(payload, Analysis) && DecompositionMatches(row, item)
  {
    hide DigestOf, StringList, String, Rows, MorphologyRow, FormGrounded, EachRow;
    var digest := DigestOf(text, payload, limits);
    forall row | row in Rows(digest, Morphology) || row in Rows(digest, WordDecomposition)
      ensures exists item :: item in DisplayRows(payload, Analysis) && SameAnalysis(item, row)
    {
      AnalysisRowFrom(text, payload, limits, row);
      MorphologyFrom(payload, row);
    }
  }

  lemma GroundedIsFromPayload(text: TextTools, payload: Fields, limits: Limits, summary: Fields)
    requires Grounded(text.normalize, summary, DigestOf(text, payload, limits))
    ensures FromPayload(text.normalize, summary, payload)
  {
    hide DigestOf, PayloadRef, PayloadGloss, PayloadSource, StringList, String, Rows, GrammarMatches,
         DecompositionMatches, GlossOfPayload, RefGrounded, SourceGrounded, GlossCited, GrammarGrounded,
         DecompositionGrounded, WellShaped, UsageGrounded, UsageOfPayload, PhraseGrounded, PhraseOfPayload,
         FormGrounded, FormOfPayload, MeaningGrounded;
    var digest := DigestOf(text, payload, limits);
    forall form | form in StringList(Get(summary, Forms))
      ensures FormOfPayload(payload, form)
    {
      FormFromPayload(text, payload, limits, form);
    }
    forall item | item in Rows(summary, ReaderUsages)
      ensures UsageOfPayload(payload, item)
    {
      UsageFromPayload(text, payload, limits, item);
    }
    forall item | item in Rows(summary, PhrasePairs)
      ensures PhraseOfPayload(payload, item)
    {
      PhraseFromPayload(text, payload, limits, item);
    }
    forall item | item in Rows(summary, MeaningsKey)
      ensures forall gloss :: gloss in StringList(Get(item, SourceGlosses)) ==>
        GlossOfPayload(text.normalize, payload, gloss)
      ensures forall source :: source in StringList(Get(item, Sources)) ==> PayloadSource(payload, source)
      ensures forall ref :: ref in StringList(Get(item, SourceRefs)) ==> PayloadRef(payload, ref)
    {
      MeaningItemFromPayload(text, payload, limits, item);
    }
    forall source | source in StringList(Get(summary, DictionarySources))
      ensures PayloadSource(payload, source)
    {
      SourceFromPayload(text, payload, limits, source);
    }
    forall item | item in Rows(summary, GrammarFunctions)
      ensures exists row :: row in DisplayRows(payload, Analysis) && GrammarMatches(row, item)
    {
      assert GrammarGrounded(item, digest);
      GrammarFromPayload(text, payload, limits, item);
    }
    forall item | item in Rows(summary, WordDecomposition)
      ensures exists row :: row in DisplayRows(payload, Analysis) && DecompositionMatches(row, item)
    {
      assert DecompositionGrounded(item, digest);
      GrammarFromPayload(text, payload, limits, item);
    }
  }

  lemma MeaningItemFromPayload(text: TextTools, payload: Fields, limits: Limits, item: Fields)
    requires MeaningGrounded(text.normalize, item, DigestOf(text, payload, limits))
    ensures forall gloss :: gloss in StringList(Get(item, SourceGlosses)) ==>
      GlossOfPayload(text.normalize, payload, gloss)
    ensures forall source :: source in StringList(Get(item, Sources)) ==> PayloadSource(payload, source)
    ensures forall ref :: ref in StringList(Get(item, SourceRefs)) ==> PayloadRef(payload, ref)
  {
    hide DigestOf, PayloadRef, PayloadGloss, PayloadSource, String, Rows, GlossOfPayload, RefGrounded, GlossCited;
    var digest := DigestOf(text, payload, limits);
    forall gloss | gloss in StringList(Get(item, SourceGlosses))
      ensures GlossOfPayload(text.normalize, payload, gloss)
    {
      GlossFromPayload(text, payload, limits, gloss);
    }
    forall source | source in StringList(Get(item, Sources))
      ensures PayloadSource(payload, source)
    {
      SourceFromPayload(text, payload, limits, source);
    }
    forall ref | ref in StringList(Get(item, SourceRefs))
      ensures PayloadRef(payload, ref)
    {
      RefFromPayload(text, payload, limits, ref);
    }
  }

  /** Whatever the model answered, the final output of a built flow holds only evidence of the payload. */
  lemma FinalOutputFromPayload(text: TextTools, payload: Fields, model: string, limits: Limits, output: Flow)
    requires Completed(text, BuildFlow(text, payload, model, limits), output)
    ensures output.finalOutput.Some? && FromPayload(text.normalize, output.finalOutput.value, payload)
  {
    hide Grounded, FromPayload;
    FinalOutputGrounded(text, output);
    GroundedIsFromPayload(text, payload, limits, output.finalOutput.value);
  }
}
