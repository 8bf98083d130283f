/**
 * The fields a briefing is told to copy exactly but that no check compares: the translation sources of a
 * meaning, and the lemma and Foster display of a grammar row.
 */
module ExactCopies {
  import opened Outcomes
  import opened Json
  import opened Validator
  import opened Briefing
  import opened BriefingFlow

  /** Every translation source is listed by a meaning of the digest. */
  ghost predicate TranslationsCopied(item: Fields, digest: Fields) {
    forall source :: source in StringList(Get(item, TranslationSources)) ==>
      HasListed(Rows(digest, MeaningsKey), TranslationSources, source)
  }

  predicate SameGrammar(row: Fields, item: Fields) {
    && GrammarMatches(row, item)
    && String(Get(row, Lemma)) == String(Get(item, Lemma))
    && String(Get(row, FosterDisplay)) == String(Get(item, FosterDisplay))
  }

  /** The row is a morphology row of the digest, with its lemma and its Foster display. */
  ghost predicate GrammarCopied(item: Fields, digest: Fields) {
    exists row :: row in Rows(digest, Morphology) && SameGrammar(row, item)
  }

  ghost predicate CopiedExactly(summary: Fields, digest: Fields) {
    && (forall item :: item in Rows(summary, MeaningsKey) ==> TranslationsCopied(item, digest))
    && (forall item :: item in Rows(summary, GrammarFunctions) ==> GrammarCopied(item, digest))
  }

  // ----- What the validator does not look at

  lemma MeaningFieldsUnchecked(normalize: string -> string, item: Fields, digest: Fields, sources: Value)
    ensures MeaningGrounded(normalize, item[TranslationSources := sources], digest) <==>
      MeaningGrounded(normalize, item, digest)
  {
    hide GlossCited, HasListed, HasField, RefGrounded, String, StringList, Rows;
    var other := item[TranslationSources := sources];
    assert forall key :: key != TranslationSources ==> Get(other, key) == Get(item, key);
  }

  lemma GrammarFieldsUnchecked(item: Fields, digest: Fields, lemmaText: Value, foster: Value)
    ensures GrammarGrounded(item[Lemma := lemmaText][FosterDisplay := foster], digest) <==>
      GrammarGrounded(item, digest)
  {
    hide FormGrounded, String, Rows;
    var other := item[Lemma := lemmaText][FosterDisplay := foster];
    assert forall row :: GrammarMatches(row, other) <==> GrammarMatches(row, item);
  }

  /** The summary with the rows of a section rebuilt. */
  function Rebuilt(summary: Fields, section: Key, build: Fields -> Fields): Fields {
    summary[section := ObjList(EachRow(Rows(summary, section), build))]
  }

  lemma RebuiltRows(summary: Fields, section: Key, build: Fields -> Fields)
    ensures var other := Rebuilt(summary, section, build);
      && Rows(other, section) == EachRow(Rows(summary, section), build)
      && forall key :: key != section ==> Get(other, key) == Get(summary, key)
  {
    hide EachRow;
    ObjectsOfRows(EachRow(Rows(summary, section), build));
  }

  /** A list of objects with the fields of a meaning keeps the shape of a summary. */
  lemma ReplacedShaped(summary: Fields, section: Key, value: Value)
    requires WellShaped(summary) && section in [MeaningsKey, GrammarFunctions] && value.Arr? && ObjectsOnly(value)
    requires section == MeaningsKey ==> forall item :: item in MappingList(value) ==> HasMeaningFields(item)
    ensures WellShaped(summary[section := value])
  {
    hide MappingList, ObjectsOnly, HasMeaningFields, HasDecompositionFields;
    if section == MeaningsKey {
      assert MappingList(Get(summary[MeaningsKey := value], MeaningsKey)) == MappingList(value);
    } else {
      assert section == GrammarFunctions;
    }
  }

  lemma RebuiltShaped(summary: Fields, section: Key, build: Fields -> Fields)
    requires WellShaped(summary) && section in [MeaningsKey, GrammarFunctions]
    requires forall item, key :: key in item ==> key in build(item)
    ensures WellShaped(Rebuilt(summary, section, build))
  {
    hide MappingList;
    var built := EachRow(Rows(summary, section), build);
    ObjectsOfRows(built);
    forall item | section == MeaningsKey && item in built
      ensures HasMeaningFields(item)
    {
      var i :| 0 <= i < |built| && item == build(Rows(summary, section)[i]);
      assert HasMeaningFields(Rows(summary, section)[i]);
    }
    ReplacedShaped(summary, section, ObjList(built));
  }

  lemma GroundedRows(normalize: string -> string, summary: Fields, digest: Fields)
    requires Grounded(normalize, summary, digest)
    ensures WellShaped(summary)
    ensures forall item :: item in Rows(summary, MeaningsKey) ==> MeaningGrounded(normalize, item, digest)
    ensures forall item :: item in Rows(summary, GrammarFunctions) ==> GrammarGrounded(item, digest)
  {
    hide WellShaped, MeaningGrounded, GrammarGrounded, MappingList;
  }

  /** Another list of meanings or of grammar rows that is grounded itself leaves the summary grounded. */
  lemma SwappedStaysGrounded(normalize: string -> string, summary: Fields, other: Fields, digest: Fields)
    requires Grounded(normalize, summary, digest) && WellShaped(other)
    requires forall key :: key !in [MeaningsKey, GrammarFunctions] ==> Get(other, key) == Get(summary, key)
    requires forall item :: item in Rows(other, MeaningsKey) ==> MeaningGrounded(normalize, item, digest)
    requires forall item :: item in Rows(other, GrammarFunctions) ==> GrammarGrounded(item, digest)
    ensures Grounded(normalize, other, digest)
  {
    hide MeaningGrounded, GrammarGrounded, DecompositionGrounded, UsageGrounded, PhraseGrounded, SourceGrounded,
         FormGrounded, StringList, String, WellShaped, MappingList;
  }

  /** The validator accepts a summary whatever its meanings give as translation sources. */
  lemma AnyTranslationSources(normalize: string -> string, summary: Fields, digest: Fields, sources: Fields -> Value)
    requires Grounded(normalize, summary, digest)
    ensures Grounded(normalize, Rebuilt(summary, MeaningsKey, item =>
      item[TranslationSources := sources(item)]), digest)
  {
    hide Grounded, MeaningGrounded, GrammarGrounded, WellShaped, Rebuilt, EachRow, MappingList;
    GroundedRows(normalize, summary, digest);
    var build := (item: Fields) => item[TranslationSources := sources(item)];
    RebuiltRows(summary, MeaningsKey, build);
    RebuiltShaped(summary, MeaningsKey, build);
    BuiltRows(Rows(summary, MeaningsKey), build, item => MeaningGrounded(normalize, item, digest));
    forall item | item in Rows(summary, MeaningsKey)
      ensures MeaningGrounded(normalize, build(item), digest)
    {
      MeaningFieldsUnchecked(normalize, item, digest, sources(item));
    }
    SwappedStaysGrounded(normalize, summary, Rebuilt(summary, MeaningsKey, build), digest);
  }

  /** The validator accepts a summary whatever its grammar rows give as lemma and Foster display. */
  lemma AnyLemmaAndFoster(normalize: string -> string, summary: Fields, digest: Fields,
                          lemmaText: Fields -> Value, foster: Fields -> Value)
    requires Grounded(normalize, summary, digest)
    ensures Grounded(normalize, Rebuilt(summary, GrammarFunctions, item =>
      item[Lemma := lemmaText(item)][FosterDisplay := foster(item)]), digest)
  {
    hide Grounded, MeaningGrounded, GrammarGrounded, WellShaped, Rebuilt, EachRow, MappingList;
    GroundedRows(normalize, summary, digest);
    var build := (item: Fields) => item[Lemma := lemmaText(item)][FosterDisplay := foster(item)];
    RebuiltRows(summary, GrammarFunctions, build);
    RebuiltShaped(summary, GrammarFunctions, build);
    BuiltRows(Rows(summary, GrammarFunctions), build, item => GrammarGrounded(item, digest));
    forall item | item in Rows(summary, GrammarFunctions)
      ensures GrammarGrounded(build(item), digest)
    {
      GrammarFieldsUnchecked(item, digest, lemmaText(item), foster(item));
    }
    SwappedStaysGrounded(normalize, summary, Rebuilt(summary, GrammarFunctions, build), digest);
  }

  // ----- An accepted answer that does not copy exactly

  /** A meaning that cites nothing but a translation source. */
  function Forgery(source: string): Fields {
    map[Summary := Str(""), SourceGlosses := Arr([]), SourceGlossLanguage := Str(""), TranslationStatus := Str(""),
        Sources := Arr([]), TranslationSources := Arr([Str(source)]), SourceRefs := Arr([])]
  }

  function Forged(summary: Fields, source: string): Fields {
    summary[MeaningsKey := Arr([Obj(Forgery(source))])]
  }

  lemma ForgedRows(summary: Fields, source: string)
    ensures Rows(Forged(summary, source), MeaningsKey) == [Forgery(source)]
    ensures forall key :: key != MeaningsKey ==> Get(Forged(summary, source), key) == Get(summary, key)
  {
    assert Objects([Obj(Forgery(source))][1..]) == [];
  }

  lemma ForgeryGrounded(normalize: string -> string, digest: Fields, source: string)
    ensures MeaningGrounded(normalize, Forgery(source), digest)
  {
    assert String(Str("")) == "";
  }

  lemma ForgeryKeys(source: string)
    ensures HasMeaningFields(Forgery(source))
  {
  }

  lemma ForgedShaped(summary: Fields, source: string)
    requires WellShaped(summary)
    ensures WellShaped(Forged(summary, source))
  {
    hide Forgery, WellShaped;
    ForgedRows(summary, source);
    ForgeryKeys(source);
    ReplacedShaped(summary, MeaningsKey, Arr([Obj(Forgery(source))]));
  }

  lemma ForgedGrounded(normalize: string -> string, summary: Fields, digest: Fields, source: string)
    requires Grounded(normalize, summary, digest)
    ensures Grounded(normalize, Forged(summary, source), digest)
  {
    hide Grounded, MeaningGrounded, GrammarGrounded, WellShaped, Forged, Forgery, MappingList;
    GroundedRows(normalize, summary, digest);
    ForgedRows(summary, source);
    ForgedShaped(summary, source);
    ForgeryGrounded(normalize, digest, source);
    SwappedStaysGrounded(normalize, summary, Forged(summary, source), digest);
  }

  function LongestOf(values: seq<string>): (n: nat)
    ensures forall s :: s in values ==> |s| <= n
  {
    if values == [] then 0
    else
      var n := LongestOf(values[1..]);
      if |values[0]| > n then |values[0]| else n
  }

  /** Some source is listed by no meaning of the digest. */
  lemma UnlistedSource(digest: Fields) returns (source: string)
    ensures source != "" && Trimmed(source) && !HasListed(Rows(digest, MeaningsKey), TranslationSources, source)
  {
    hide StringList;
    var rows := Rows(digest, MeaningsKey);
    var listed := (row: Fields) => StringList(Get(row, TranslationSources));
    source := seq(LongestOf(Over(rows, listed)) + 1, _ => 'x');
    OverHas(rows, listed, source);
  }

  lemma ForgedNotCopied(summary: Fields, digest: Fields, source: string)
    requires source != "" && Trimmed(source) && !HasListed(Rows(digest, MeaningsKey), TranslationSources, source)
    ensures !CopiedExactly(Forged(summary, source), digest)
  {
    hide String;
    ForgedRows(summary, source);
    StringOfTrimmed(source);
    var item := Forgery(source);
    assert item in Rows(Forged(summary, source), MeaningsKey);
    assert source in StringList(Get(item, TranslationSources));
    assert !TranslationsCopied(item, digest);
  }

  // ----- When a briefing copies exactly

  /** The draft does, for any digest at all. */
  lemma DraftCopiesExactly(text: TextTools, digest: Fields)
    ensures CopiedExactly(DraftOf(text, digest), digest)
  {
    hide DraftOf, TranslationsCopied, GrammarCopied, DraftMeaning, DraftGrammar, Rows, EachRow;
    DraftRows(text, digest);
    BuiltRows(Rows(digest, MeaningsKey), item => DraftMeaning(text, item), item => TranslationsCopied(item, digest));
    BuiltRows(Rows(digest, Morphology), DraftGrammar, item => GrammarCopied(item, digest));
    forall item | item in Rows(digest, MeaningsKey) { DraftTranslations(text, item, digest); }
    forall row | row in Rows(digest, Morphology) { DraftGrammarCopied(row, digest); }
  }

  lemma DraftTranslations(text: TextTools, item: Fields, digest: Fields)
    requires item in Rows(digest, MeaningsKey)
    ensures TranslationsCopied(DraftMeaning(text, item), digest)
  {
    hide String, StringList, StrList, Rows;
    StringListAgain(Get(item, TranslationSources));
  }

  lemma DraftGrammarCopied(row: Fields, digest: Fields)
    requires row in Rows(digest, Morphology)
    ensures GrammarCopied(DraftGrammar(row), digest)
  {
    hide String, Rows;
    CopiedGrammar(row);
    StringAgain(Get(row, Lemma));
    StringAgain(Get(row, FosterDisplay));
    assert SameGrammar(row, DraftGrammar(row));
  }

  /** Whether the model's answer becomes the final output. */
  ghost predicate Accepts(text: TextTools, flow: Flow, answer: Fields) {
    Grounded(text.normalize, NormalizeSummary(answer), flow.digest)
  }

  /**
   * The final output copies exactly if and only if the answer is no object, is refused, or copies exactly itself:
   * nothing but the model sees to the three fields.
   */
  lemma FinalOutputCopiesExactly(text: TextTools, payload: Fields, model: string, limits: Limits, response: string)
    ensures var flow := BuildFlow(text, payload, model, limits);
      CopiedExactly(FinalOutputOf(text, flow, response), flow.digest) <==>
        (forall answer :: ParseResponse(text, response) == Some(answer) && Accepts(text, flow, answer) ==>
           CopiedExactly(NormalizeSummary(answer), flow.digest))
  {
    hide CopiedExactly, Grounded, DraftOf, DigestOf, NormalizeSummary, ParseResponse;
    var flow := BuildFlow(text, payload, model, limits);
    DraftCopiesExactly(text, flow.digest);
    assert forall answer :: ParseResponse(text, response) == Some(answer) ==>
      ParseResponse(text, response).value == answer;
  }

  /** For every payload there is an answer that is accepted, becomes the final output, and does not copy exactly. */
  lemma SomeAnswerIsNotCopied(text: TextTools, payload: Fields, model: string, limits: Limits) returns (answer: Fields)
    ensures var flow := BuildFlow(text, payload, model, limits);
      && Accepts(text, flow, answer)
      && !CopiedExactly(answer, flow.digest)
      && forall response :: ParseResponse(text, response) == Some(answer) ==>
           FinalOutputOf(text, flow, response) == answer
  {
    hide CopiedExactly, Grounded, DraftOf, DigestOf, ParseResponse, Forged;
    var digest := DigestOf(text, payload, limits);
    var draft := DraftOf(text, digest);
    BuiltDigestOnForms(text, payload, limits);
    DraftGroundedExactly(text, digest);
    var source := UnlistedSource(digest);
    answer := Forged(draft, source);
    ForgedGrounded(text.normalize, draft, digest, source);
    ForgedNotCopied(draft, digest, source);
    ForgedKeepsCaveats(text, digest, source);
  }

  lemma ForgedKeepsCaveats(text: TextTools, digest: Fields, source: string)
    ensures NormalizeSummary(Forged(DraftOf(text, digest), source)) == Forged(DraftOf(text, digest), source)
  {
    hide DraftCaveats, DraftSources, DraftMeaning, StringList, String, EachRow, Rows;
    ForgedRows(DraftOf(text, digest), source);
  }
}
