/** The check that a briefing summary cites nothing the encounter digest does not hold. */
module Validator {
  import opened Json

  const SUMMARY_SCHEMA := "langnet.encounter_briefing.summary.v1"

  const REQUIRED_FIELDS: seq<Key> := [
    SchemaVersion, Short, Forms, MeaningsKey, GrammarFunctions, WordDecomposition, ReaderUsages,
    PhrasePairs, DictionarySources, Caveats]

  const LIST_FIELDS: seq<Key> := [
    Forms, MeaningsKey, GrammarFunctions, WordDecomposition, ReaderUsages, PhrasePairs,
    DictionarySources, Caveats]

  const OBJECT_LIST_FIELDS: seq<Key> := [
    MeaningsKey, GrammarFunctions, WordDecomposition, ReaderUsages, PhrasePairs]

  const MEANING_FIELDS: seq<Key> := [
    Summary, SourceGlosses, SourceGlossLanguage, TranslationStatus, Sources, TranslationSources, SourceRefs]

  const DECOMPOSITION_FIELDS: seq<Key> := [Form, Lemma, Analysis, Source]

  datatype IssueCode =
    | MissingRequiredField | InvalidFieldType | InvalidItemType | MissingMeaningField
    | MissingDecompositionField | InvalidSchemaVersion | UnsupportedForm | UnsupportedMeaningGloss
    | UnsupportedDictionarySource | UnsupportedSourceRef | UnsupportedSourceGlossLanguage
    | UnsupportedTranslationStatus | UnsupportedGrammarAnalysis | UnsupportedWordDecomposition
    | UnsupportedReaderUsage | UnsupportedPhrasePair | InvalidJson

  datatype Path =
    | ModelResponse
    | Field(key: Key)
    | Item(key: Key, index: nat)
    | ItemField(key: Key, index: nat, field: Key)

  datatype Issue = Issue(code: IssueCode, path: Path, value: string)

  class IssueLog {
    var issues: seq<Issue>

    constructor ()
      ensures issues == []
    {
      issues := [];
    }

    method Append(code: IssueCode, path: Path, value: string)
      modifies this
      ensures issues == old(issues) + [Issue(code, path, value)]
    {
      issues := issues + [Issue(code, path, value)];
    }
  }

  // ----- What the digest allows

  datatype Context = Context(
    forms: set<string>,
    glosses: set<string>,
    meaningSources: set<string>,
    morphologySources: set<string>,
    decompositionSources: set<string>,
    sources: set<string>,
    sourceRefs: set<string>,
    grammar: set<(string, string, string)>,
    decomposition: set<(string, string, string, string)>,
    readerUsages: set<(string, string)>,
    phrasePairs: set<(string, string, string, string)>,
    glossLanguages: set<string>,
    translationStatuses: set<string>)

  function GrammarKey(row: Fields): (string, string, string) {
    (String(Get(row, Form)), String(Get(row, Analysis)), String(Get(row, Source)))
  }

  function DecompositionKey(row: Fields): (string, string, string, string) {
    (String(Get(row, Form)), String(Get(row, Lemma)), String(Get(row, Analysis)), String(Get(row, Source)))
  }

  function UsageKey(row: Fields): (string, string) {
    (String(Get(row, Label)), String(Get(row, Snippet)))
  }

  function PhraseKey(row: Fields): (string, string, string, string) {
    (String(Get(row, Phrase)), String(Get(row, Gloss)), String(Get(row, Source)), String(Get(row, SourceRef)))
  }

  function Rows(digest: Fields, section: Key): seq<Fields> {
    MappingList(Get(digest, section))
  }

  /** Some row has this value in the field. */
  ghost predicate HasField(rows: seq<Fields>, key: Key, value: string) {
    exists row :: row in rows && String(Get(row, key)) == value
  }

  /** Some row lists this value in the field. */
  ghost predicate HasListed(rows: seq<Fields>, key: Key, value: string) {
    exists row :: row in rows && value in StringList(Get(row, key))
  }

  /** The nonempty values of one string field over some rows. */
  function FieldValues(rows: seq<Fields>, key: Key): (r: set<string>)
    ensures forall s :: s in r <==> s != "" && HasField(rows, key, s)
  {
    set row | row in rows && String(Get(row, key)) != "" :: String(Get(row, key))
  }

  /** The values of one string-list field over some rows. */
  function ListValues(rows: seq<Fields>, key: Key): (r: set<string>)
    ensures forall s :: s in r <==> HasListed(rows, key, s)
  {
    set row, s | row in rows && s in StringList(Get(row, key)) :: s
  }

  function ContextOf(digest: Fields): Context {
    var meanings := Rows(digest, MeaningsKey);
    var morphology := Rows(digest, Morphology);
    var decomposition := Rows(digest, WordDecomposition);
    var readers := Rows(digest, ReaderUsages);
    var phrases := Rows(digest, PhrasePairs);
    var meaningSources := ListValues(meanings, Sources);
    var morphologySources := FieldValues(morphology, Source);
    var decompositionSources := FieldValues(decomposition, Source);
    Context(
      set s | s in StringList(Get(digest, Forms)),
      set row | row in meanings :: String(Get(row, Gloss)),
      meaningSources,
      morphologySources,
      decompositionSources,
      meaningSources + morphologySources + decompositionSources,
      (set s | s in StringList(Get(digest, SourceRefs))) + ListValues(meanings, SourceRefs) +
        FieldValues(phrases, SourceRef),
      set row | row in morphology :: GrammarKey(row),
      set row | row in decomposition :: DecompositionKey(row),
      set row | row in readers :: UsageKey(row),
      set row | row in phrases :: PhraseKey(row),
      FieldValues(meanings, SourceGlossLanguage),
      FieldValues(meanings, TranslationStatus))
  }

  /** `_evidence_value_in`: present as it is, or after Unicode normalization of both sides. */
  predicate EvidenceIn(normalize: string -> string, value: string, allowed: set<string>) {
    value in allowed || exists a :: a in allowed && normalize(a) == normalize(value)
  }

  // ----- Issues, item by item

  /** The issues `check` finds in the first `n` items of a list, in order. */
  function CollectTo<T>(items: seq<T>, n: nat, check: (T, nat) -> seq<Issue>): seq<Issue>
    requires n <= |items|
  {
    if n == 0 then [] else CollectTo(items, n - 1, check) + check(items[n - 1], n - 1)
  }

  function Collect<T>(items: seq<T>, check: (T, nat) -> seq<Issue>): seq<Issue> {
    CollectTo(items, |items|, check)
  }

  lemma {:induction false} CollectsNothing<T>(items: seq<T>, n: nat, check: (T, nat) -> seq<Issue>)
    requires n <= |items|
    ensures CollectTo(items, n, check) == [] <==> forall k :: 0 <= k < n ==> check(items[k], k) == []
  {
    if n > 0 { CollectsNothing(items, n - 1, check); }
  }

  lemma CollectStep<T>(base: seq<Issue>, items: seq<T>, n: nat, check: (T, nat) -> seq<Issue>)
    requires n < |items|
    ensures base + CollectTo(items, n + 1, check) == base + CollectTo(items, n, check) + check(items[n], n)
  {
    Assoc(base, CollectTo(items, n, check), check(items[n], n));
  }

  lemma Assoc<T>(a: seq<T>, b: seq<T>, c: seq<T>)
    ensures a + b + c == a + (b + c)
  {
  }

  function When(bad: bool, code: IssueCode, path: Path, value: string): seq<Issue> {
    if bad then [Issue(code, path, value)] else []
  }

  function MissingIssues(item: Fields, required: seq<Key>, code: IssueCode, key: Key, index: nat): seq<Issue> {
    Collect(required, (field: Key, _: nat) => When(field !in item, code, ItemField(key, index, field), ""))
  }

  function ObjectIssues(summary: Fields, key: Key): seq<Issue> {
    if Get(summary, key).Arr?
    then Collect(Get(summary, key).items, (item: Value, index: nat) =>
      When(!item.Obj?, InvalidItemType, Item(key, index), ""))
    else []
  }

  function RequiredIssues(summary: Fields): seq<Issue> {
    Collect(REQUIRED_FIELDS, (key: Key, _: nat) => When(key !in summary, MissingRequiredField, Field(key), ""))
  }

  function ListIssues(summary: Fields): seq<Issue> {
    Collect(LIST_FIELDS, (key: Key, _: nat) =>
      When(key in summary && !summary[key].Arr?, InvalidFieldType, Field(key), ""))
  }

  function ObjectListIssues(summary: Fields): seq<Issue> {
    Collect(OBJECT_LIST_FIELDS, (key: Key, _: nat) => ObjectIssues(summary, key))
  }

  function FieldIssues(summary: Fields, key: Key, required: seq<Key>, code: IssueCode): seq<Issue> {
    RowIssues(summary, key, (item: Fields, index: nat) => MissingIssues(item, required, code, key, index))
  }

  function ShapeIssues(summary: Fields): seq<Issue> {
    RequiredIssues(summary) +
    ListIssues(summary) +
    ObjectListIssues(summary) +
    FieldIssues(summary, MeaningsKey, MEANING_FIELDS, MissingMeaningField) +
    FieldIssues(summary, WordDecomposition, DECOMPOSITION_FIELDS, MissingDecompositionField)
  }

  function AllowedIssues(values: seq<string>, allowed: set<string>, code: IssueCode, path: Path): seq<Issue> {
    Collect(values, (value: string, _: nat) => When(value != "" && value !in allowed, code, path, value))
  }

  function FormIssues(summary: Fields, context: Context): seq<Issue> {
    Collect(StringList(Get(summary, Forms)), (form: string, index: nat) =>
      When(context.forms != {} && form !in context.forms, UnsupportedForm, Item(Forms, index), form))
  }

  function GlossIssues(normalize: string -> string, item: Fields, index: nat, context: Context): seq<Issue> {
    Collect(StringList(Get(item, SourceGlosses)), (gloss: string, _: nat) =>
      When(!EvidenceIn(normalize, gloss, context.glosses), UnsupportedMeaningGloss,
           ItemField(MeaningsKey, index, SourceGlosses), gloss))
  }

  function MeaningIssues(normalize: string -> string, item: Fields, index: nat, context: Context): seq<Issue> {
    GlossIssues(normalize, item, index, context) +
    AllowedIssues(StringList(Get(item, Sources)), context.meaningSources, UnsupportedDictionarySource,
                  ItemField(MeaningsKey, index, Sources)) +
    AllowedIssues(StringList(Get(item, SourceRefs)), context.sourceRefs, UnsupportedSourceRef,
                  ItemField(MeaningsKey, index, SourceRefs)) +
    AllowedIssues([String(Get(item, SourceGlossLanguage))], context.glossLanguages,
                  UnsupportedSourceGlossLanguage, ItemField(MeaningsKey, index, SourceGlossLanguage)) +
    AllowedIssues([String(Get(item, TranslationStatus))], context.translationStatuses,
                  UnsupportedTranslationStatus, ItemField(MeaningsKey, index, TranslationStatus))
  }

  function GrammarIssues(item: Fields, index: nat, context: Context): seq<Issue> {
    var form := String(Get(item, Form));
    When(context.forms != {} && form != "" && form !in context.forms, UnsupportedForm,
         ItemField(GrammarFunctions, index, Form), form) +
    When(GrammarKey(item) !in context.grammar, UnsupportedGrammarAnalysis, Item(GrammarFunctions, index), "") +
    AllowedIssues([String(Get(item, Source))], context.morphologySources, UnsupportedDictionarySource,
                  ItemField(GrammarFunctions, index, Source))
  }

  function DecompositionIssues(item: Fields, index: nat, context: Context): seq<Issue> {
    When(DecompositionKey(item) !in context.decomposition, UnsupportedWordDecomposition,
         Item(WordDecomposition, index), "")
  }

  function UsageIssues(item: Fields, index: nat, context: Context): seq<Issue> {
    When(UsageKey(item) !in context.readerUsages, UnsupportedReaderUsage, Item(ReaderUsages, index), "")
  }

  function PhraseIssues(item: Fields, index: nat, context: Context): seq<Issue> {
    When(PhraseKey(item) !in context.phrasePairs, UnsupportedPhrasePair, Item(PhrasePairs, index), "") +
    AllowedIssues([String(Get(item, SourceRef))], context.sourceRefs, UnsupportedSourceRef,
                  ItemField(PhrasePairs, index, SourceRef))
  }

  function RowIssues(summary: Fields, key: Key, check: (Fields, nat) -> seq<Issue>): seq<Issue> {
    Collect(Rows(summary, key), check)
  }

  function MeaningListIssues(normalize: string -> string, summary: Fields, context: Context): seq<Issue> {
    RowIssues(summary, MeaningsKey, (item: Fields, index: nat) => MeaningIssues(normalize, item, index, context))
  }

  function GrammarListIssues(summary: Fields, context: Context): seq<Issue> {
    RowIssues(summary, GrammarFunctions, (item: Fields, index: nat) => GrammarIssues(item, index, context))
  }

  function DecompositionListIssues(summary: Fields, context: Context): seq<Issue> {
    RowIssues(summary, WordDecomposition, (item: Fields, index: nat) => DecompositionIssues(item, index, context))
  }

  function UsageListIssues(summary: Fields, context: Context): seq<Issue> {
    RowIssues(summary, ReaderUsages, (item: Fields, index: nat) => UsageIssues(item, index, context))
  }

  function PhraseListIssues(summary: Fields, context: Context): seq<Issue> {
    RowIssues(summary, PhrasePairs, (item: Fields, index: nat) => PhraseIssues(item, index, context))
  }

  function SchemaIssues(summary: Fields): seq<Issue> {
    When(String(Get(summary, SchemaVersion)) != SUMMARY_SCHEMA, InvalidSchemaVersion, Field(SchemaVersion), "")
  }

  /** Everything `validate_briefing_summary` reports, in order. */
  function SummaryIssues(normalize: string -> string, summary: Fields, digest: Fields): seq<Issue> {
    var context := ContextOf(digest);
    ShapeIssues(summary) +
    SchemaIssues(summary) +
    FormIssues(summary, context) +
    MeaningListIssues(normalize, summary, context) +
    GrammarListIssues(summary, context) +
    DecompositionListIssues(summary, context) +
    UsageListIssues(summary, context) +
    PhraseListIssues(summary, context) +
    AllowedIssues(StringList(Get(summary, DictionarySources)), context.sources, UnsupportedDictionarySource,
                  Field(DictionarySources))
  }

  // ----- What it means for a summary to be grounded

  /** All fields are there, the lists are lists, and the rows are objects with their fields. */
  ghost predicate WellShaped(summary: Fields) {
    && SchemaVersion in summary && Short in summary && Caveats in summary && DictionarySources in summary
    && Forms in summary && MeaningsKey in summary && GrammarFunctions in summary && WordDecomposition in summary
    && ReaderUsages in summary && PhrasePairs in summary
    && summary[Forms].Arr? && summary[DictionarySources].Arr? && summary[Caveats].Arr?
    && summary[MeaningsKey].Arr? && ObjectsOnly(summary[MeaningsKey])
    && summary[GrammarFunctions].Arr? && ObjectsOnly(summary[GrammarFunctions])
    && summary[WordDecomposition].Arr? && ObjectsOnly(summary[WordDecomposition])
    && summary[ReaderUsages].Arr? && ObjectsOnly(summary[ReaderUsages])
    && summary[PhrasePairs].Arr? && ObjectsOnly(summary[PhrasePairs])
    && (forall item :: item in Rows(summary, MeaningsKey) ==> HasMeaningFields(item))
    && (forall item :: item in Rows(summary, WordDecomposition) ==> HasDecompositionFields(item))
  }

  predicate HasMeaningFields(item: Fields) {
    && Summary in item && SourceGlosses in item && SourceGlossLanguage in item && TranslationStatus in item
    && Sources in item && TranslationSources in item && SourceRefs in item
  }

  predicate HasDecompositionFields(item: Fields) {
    Form in item && Lemma in item && Analysis in item && Source in item
  }

  /** The same in terms of the lists of fields that the checks go through. */
  ghost predicate FieldsListed(summary: Fields) {
    && (forall key :: key in REQUIRED_FIELDS ==> key in summary)
    && (forall key :: key in LIST_FIELDS ==> Get(summary, key).Arr?)
    && (forall key :: key in OBJECT_LIST_FIELDS ==> ObjectsOnly(Get(summary, key)))
    && (forall item, key :: item in Rows(summary, MeaningsKey) && key in MEANING_FIELDS ==> key in item)
    && (forall item, key :: item in Rows(summary, WordDecomposition) && key in DECOMPOSITION_FIELDS ==> key in item)
  }

  lemma MeaningFieldsAt()
    ensures |MEANING_FIELDS| == 7 && MEANING_FIELDS[0] == Summary && MEANING_FIELDS[1] == SourceGlosses
    ensures MEANING_FIELDS[2] == SourceGlossLanguage && MEANING_FIELDS[3] == TranslationStatus
    ensures MEANING_FIELDS[4] == Sources && MEANING_FIELDS[5] == TranslationSources && MEANING_FIELDS[6] == SourceRefs
  {
  }

  lemma MeaningFieldsListed(item: Fields)
    ensures (forall key :: key in MEANING_FIELDS ==> key in item) <==> HasMeaningFields(item)
  {
    hide MEANING_FIELDS;
    MeaningFieldsAt();
    var keys := MEANING_FIELDS;
    assert (forall key :: key in keys ==> key in item) <==> forall i :: 0 <= i < 7 ==> keys[i] in item;
  }

  lemma DecompositionFieldsListed(item: Fields)
    ensures (forall key :: key in DECOMPOSITION_FIELDS ==> key in item) <==> HasDecompositionFields(item)
  {
    var keys := DECOMPOSITION_FIELDS;
    assert keys[0] == Form && keys[1] == Lemma && keys[2] == Analysis && keys[3] == Source;
  }

  lemma RequiredFieldsAt()
    ensures |REQUIRED_FIELDS| == 10 && REQUIRED_FIELDS[0] == SchemaVersion && REQUIRED_FIELDS[1] == Short
    ensures REQUIRED_FIELDS[2] == Forms && REQUIRED_FIELDS[3] == MeaningsKey
    ensures REQUIRED_FIELDS[4] == GrammarFunctions && REQUIRED_FIELDS[5] == WordDecomposition
    ensures REQUIRED_FIELDS[6] == ReaderUsages && REQUIRED_FIELDS[7] == PhrasePairs
    ensures REQUIRED_FIELDS[8] == DictionarySources && REQUIRED_FIELDS[9] == Caveats
  {
  }

  lemma RequiredListed(summary: Fields)
    ensures (forall key :: key in REQUIRED_FIELDS ==> key in summary) <==>
            (&& SchemaVersion in summary && Short in summary && Caveats in summary && DictionarySources in summary
             && Forms in summary && MeaningsKey in summary && GrammarFunctions in summary
             && WordDecomposition in summary && ReaderUsages in summary && PhrasePairs in summary)
  {
    hide REQUIRED_FIELDS;
    RequiredFieldsAt();
    var keys := REQUIRED_FIELDS;
    assert (forall key :: key in keys ==> key in summary) <==> forall i :: 0 <= i < 10 ==> keys[i] in summary;
  }

  lemma ListFieldsAt()
    ensures |LIST_FIELDS| == 8 && LIST_FIELDS[0] == Forms && LIST_FIELDS[1] == MeaningsKey
    ensures LIST_FIELDS[2] == GrammarFunctions && LIST_FIELDS[3] == WordDecomposition
    ensures LIST_FIELDS[4] == ReaderUsages && LIST_FIELDS[5] == PhrasePairs
    ensures LIST_FIELDS[6] == DictionarySources && LIST_FIELDS[7] == Caveats
  {
  }

  lemma ListsListed(summary: Fields)
    ensures (forall key :: key in LIST_FIELDS ==> Get(summary, key).Arr?) <==>
            (&& Get(summary, Forms).Arr? && Get(summary, DictionarySources).Arr? && Get(summary, Caveats).Arr?
             && Get(summary, MeaningsKey).Arr? && Get(summary, GrammarFunctions).Arr?
             && Get(summary, WordDecomposition).Arr? && Get(summary, ReaderUsages).Arr?
             && Get(summary, PhrasePairs).Arr?)
  {
    hide LIST_FIELDS, Get;
    ListFieldsAt();
    var keys := LIST_FIELDS;
    assert (forall key :: key in keys ==> Get(summary, key).Arr?) <==>
      forall i :: 0 <= i < 8 ==> Get(summary, keys[i]).Arr?;
  }

  lemma ObjectFieldsAt()
    ensures |OBJECT_LIST_FIELDS| == 5 && OBJECT_LIST_FIELDS[0] == MeaningsKey
    ensures OBJECT_LIST_FIELDS[1] == GrammarFunctions && OBJECT_LIST_FIELDS[2] == WordDecomposition
    ensures OBJECT_LIST_FIELDS[3] == ReaderUsages && OBJECT_LIST_FIELDS[4] == PhrasePairs
  {
  }

  lemma ObjectListsListed(summary: Fields)
    ensures (forall key :: key in OBJECT_LIST_FIELDS ==> ObjectsOnly(Get(summary, key))) <==>
            (&& ObjectsOnly(Get(summary, MeaningsKey)) && ObjectsOnly(Get(summary, GrammarFunctions))
             && ObjectsOnly(Get(summary, WordDecomposition)) && ObjectsOnly(Get(summary, ReaderUsages))
             && ObjectsOnly(Get(summary, PhrasePairs)))
  {
    hide ObjectsOnly, OBJECT_LIST_FIELDS, Get;
    ObjectFieldsAt();
    var keys := OBJECT_LIST_FIELDS;
    assert (forall key :: key in keys ==> ObjectsOnly(Get(summary, key))) <==>
      forall i :: 0 <= i < 5 ==> ObjectsOnly(Get(summary, keys[i]));
  }

  lemma ShapeListed(summary: Fields)
    ensures WellShaped(summary) <==> FieldsListed(summary)
  {
    hide ObjectsOnly, Rows, REQUIRED_FIELDS, LIST_FIELDS, OBJECT_LIST_FIELDS, MEANING_FIELDS, DECOMPOSITION_FIELDS,
         HasMeaningFields, HasDecompositionFields;
    RequiredListed(summary);
    ListsListed(summary);
    ObjectListsListed(summary);
    forall item { MeaningFieldsListed(item); }
    forall item { DecompositionFieldsListed(item); }
  }

  // ----- Rows that say the same

  predicate GrammarMatches(row: Fields, item: Fields) {
    && String(Get(row, Form)) == String(Get(item, Form))
    && String(Get(row, Analysis)) == String(Get(item, Analysis))
    && String(Get(row, Source)) == String(Get(item, Source))
  }

  predicate DecompositionMatches(row: Fields, item: Fields) {
    && String(Get(row, Form)) == String(Get(item, Form))
    && String(Get(row, Lemma)) == String(Get(item, Lemma))
    && String(Get(row, Analysis)) == String(Get(item, Analysis))
    && String(Get(row, Source)) == String(Get(item, Source))
  }

  predicate UsageMatches(row: Fields, item: Fields) {
    && String(Get(row, Label)) == String(Get(item, Label))
    && String(Get(row, Snippet)) == String(Get(item, Snippet))
  }

  predicate PhraseMatches(row: Fields, item: Fields) {
    && String(Get(row, Phrase)) == String(Get(item, Phrase))
    && String(Get(row, Gloss)) == String(Get(item, Gloss))
    && String(Get(row, Source)) == String(Get(item, Source))
    && String(Get(row, SourceRef)) == String(Get(item, SourceRef))
  }

  lemma KeysMatch(row: Fields, item: Fields)
    ensures GrammarKey(row) == GrammarKey(item) <==> GrammarMatches(row, item)
    ensures DecompositionKey(row) == DecompositionKey(item) <==> DecompositionMatches(row, item)
    ensures UsageKey(row) == UsageKey(item) <==> UsageMatches(row, item)
    ensures PhraseKey(row) == PhraseKey(item) <==> PhraseMatches(row, item)
  {
    hide String;
  }

  ghost predicate GlossCited(normalize: string -> string, digest: Fields, gloss: string) {
    exists row :: row in Rows(digest, MeaningsKey) &&
      (String(Get(row, Gloss)) == gloss || normalize(String(Get(row, Gloss))) == normalize(gloss))
  }

  ghost predicate FormGrounded(form: string, digest: Fields) {
    StringList(Get(digest, Forms)) == [] || form in StringList(Get(digest, Forms))
  }

  ghost predicate RefGrounded(ref: string, digest: Fields) {
    || ref in StringList(Get(digest, SourceRefs))
    || HasListed(Rows(digest, MeaningsKey), SourceRefs, ref)
    || HasField(Rows(digest, PhrasePairs), SourceRef, ref)
  }

  ghost predicate MeaningGrounded(normalize: string -> string, item: Fields, digest: Fields) {
    && (forall gloss :: gloss in StringList(Get(item, SourceGlosses)) ==> GlossCited(normalize, digest, gloss))
    && (forall source :: source in StringList(Get(item, Sources)) ==>
          HasListed(Rows(digest, MeaningsKey), Sources, source))
    && (forall ref :: ref in StringList(Get(item, SourceRefs)) ==> RefGrounded(ref, digest))
    && (String(Get(item, SourceGlossLanguage)) != "" ==>
          HasField(Rows(digest, MeaningsKey), SourceGlossLanguage, String(Get(item, SourceGlossLanguage))))
    && (String(Get(item, TranslationStatus)) != "" ==>
          HasField(Rows(digest, MeaningsKey), TranslationStatus, String(Get(item, TranslationStatus))))
  }

  ghost predicate GrammarGrounded(item: Fields, digest: Fields) {
    && (String(Get(item, Form)) != "" ==> FormGrounded(String(Get(item, Form)), digest))
    && exists row :: row in Rows(digest, Morphology) && GrammarMatches(row, item)
  }

  ghost predicate DecompositionGrounded(item: Fields, digest: Fields) {
    exists row :: row in Rows(digest, WordDecomposition) && DecompositionMatches(row, item)
  }

  ghost predicate UsageGrounded(item: Fields, digest: Fields) {
    exists row :: row in Rows(digest, ReaderUsages) && UsageMatches(row, item)
  }

  ghost predicate PhraseGrounded(item: Fields, digest: Fields) {
    exists row :: row in Rows(digest, PhrasePairs) && PhraseMatches(row, item)
  }

  ghost predicate SourceGrounded(source: string, digest: Fields) {
    || HasListed(Rows(digest, MeaningsKey), Sources, source)
    || HasField(Rows(digest, Morphology), Source, source)
    || HasField(Rows(digest, WordDecomposition), Source, source)
  }

  /** Every form, gloss, source, reference, analysis, usage and phrase is the digest's own. */
  ghost predicate Grounded(normalize: string -> string, summary: Fields, digest: Fields) {
    && WellShaped(summary)
    && String(Get(summary, SchemaVersion)) == "langnet.encounter_briefing.summary.v1"
    && (forall form :: form in StringList(Get(summary, Forms)) ==> FormGrounded(form, digest))
    && (forall item :: item in Rows(summary, MeaningsKey) ==> MeaningGrounded(normalize, item, digest))
    && (forall item :: item in Rows(summary, GrammarFunctions) ==> GrammarGrounded(item, digest))
    && (forall item :: item in Rows(summary, WordDecomposition) ==> DecompositionGrounded(item, digest))
    && (forall item :: item in Rows(summary, ReaderUsages) ==> UsageGrounded(item, digest))
    && (forall item :: item in Rows(summary, PhrasePairs) ==> PhraseGrounded(item, digest))
    && (forall source :: source in StringList(Get(summary, DictionarySources)) ==> SourceGrounded(source, digest))
  }

  // ----- The validator reports nothing exactly when the summary is grounded

  lemma AllowedExact(values: seq<string>, allowed: set<string>, code: IssueCode, path: Path)
    ensures AllowedIssues(values, allowed, code, path) == [] <==>
            forall value :: value in values && value != "" ==> value in allowed
  {
    var check := (value: string, _: nat) => When(value != "" && value !in allowed, code, path, value);
    CollectsNothing(values, |values|, check);
    assert forall k :: 0 <= k < |values| ==>
      (check(values[k], k) == [] <==> (values[k] != "" ==> values[k] in allowed));
  }

  lemma MissingExact(item: Fields, required: seq<Key>, code: IssueCode, key: Key, index: nat)
    ensures MissingIssues(item, required, code, key, index) == [] <==>
      forall field :: field in required ==> field in item
  {
    var check := (field: Key, _: nat) => When(field !in item, code, ItemField(key, index, field), "");
    CollectsNothing(required, |required|, check);
    assert forall k :: 0 <= k < |required| ==> (check(required[k], k) == [] <==> required[k] in item);
  }

  lemma ObjectsExact(summary: Fields, key: Key)
    ensures ObjectIssues(summary, key) == [] <==>
            (Get(summary, key).Arr? ==> forall item :: item in Get(summary, key).items ==> item.Obj?)
  {
    if Get(summary, key).Arr? {
      var items := Get(summary, key).items;
      var check := (item: Value, index: nat) => When(!item.Obj?, InvalidItemType, Item(key, index), "");
      CollectsNothing(items, |items|, check);
      assert forall k :: 0 <= k < |items| ==> (check(items[k], k) == [] <==> items[k].Obj?);
    }
  }

  /** A list's items all pass when each item's check finds nothing, whatever its position. */
  lemma RowsExact(summary: Fields, key: Key, check: (Fields, nat) -> seq<Issue>, good: Fields -> bool)
    requires forall item, index: nat :: item in Rows(summary, key) ==>
               (check(item, index) == [] <==> good(item))
    ensures RowIssues(summary, key, check) == [] <==>
            forall item :: item in Rows(summary, key) ==> good(item)
  {
    CollectsNothing(Rows(summary, key), |Rows(summary, key)|, check);
  }

  lemma RequiredExact(summary: Fields)
    ensures RequiredIssues(summary) == [] <==> forall key :: key in REQUIRED_FIELDS ==> key in summary
  {
    var check := (key: Key, _: nat) => When(key !in summary, MissingRequiredField, Field(key), "");
    var keys := REQUIRED_FIELDS;
    CollectsNothing(keys, |keys|, check);
    assert forall k :: 0 <= k < |keys| ==> (check(keys[k], k) == [] <==> keys[k] in summary);
  }

  lemma ListsExact(summary: Fields)
    ensures ListIssues(summary) == [] <==> forall key :: key in LIST_FIELDS && key in summary ==> summary[key].Arr?
  {
    var check := (key: Key, _: nat) =>
      When(key in summary && !summary[key].Arr?, InvalidFieldType, Field(key), "");
    var keys := LIST_FIELDS;
    CollectsNothing(keys, |keys|, check);
    assert forall k :: 0 <= k < |keys| ==>
      (check(keys[k], k) == [] <==> (keys[k] in summary ==> summary[keys[k]].Arr?));
  }

  ghost predicate ObjectsOnly(value: Value) {
    value.Arr? ==> forall item :: item in value.items ==> item.Obj?
  }

  lemma ObjectListsExact(summary: Fields)
    ensures ObjectListIssues(summary) == [] <==>
            forall key :: key in OBJECT_LIST_FIELDS ==> ObjectsOnly(Get(summary, key))
  {
    var check := (key: Key, _: nat) => ObjectIssues(summary, key);
    var keys := OBJECT_LIST_FIELDS;
    CollectsNothing(keys, |keys|, check);
    forall k | 0 <= k < |keys| ensures check(keys[k], k) == [] <==> ObjectsOnly(Get(summary, keys[k])) {
      ObjectsExact(summary, keys[k]);
    }
  }

  lemma FieldsExact(summary: Fields, key: Key, required: seq<Key>, code: IssueCode)
    ensures FieldIssues(summary, key, required, code) == [] <==>
            forall item, field :: item in Rows(summary, key) && field in required ==> field in item
  {
    var check := (item: Fields, index: nat) => MissingIssues(item, required, code, key, index);
    var good := (item: Fields) => forall field :: field in required ==> field in item;
    forall item, index: nat ensures check(item, index) == [] <==> good(item) {
      MissingExact(item, required, code, key, index);
    }
    RowsExact(summary, key, check, good);
  }

  lemma ListsAreRequired()
    ensures forall key :: key in LIST_FIELDS ==> key in REQUIRED_FIELDS
    ensures forall key :: key in OBJECT_LIST_FIELDS ==> key in LIST_FIELDS
  {
  }

  lemma ShapeExact(summary: Fields)
    ensures ShapeIssues(summary) == [] <==> WellShaped(summary)
  {
    hide RequiredIssues, ListIssues, ObjectListIssues, FieldIssues;
    RequiredExact(summary);
    ListsExact(summary);
    ObjectListsExact(summary);
    FieldsExact(summary, MeaningsKey, MEANING_FIELDS, MissingMeaningField);
    FieldsExact(summary, WordDecomposition, DECOMPOSITION_FIELDS, MissingDecompositionField);
    ListsAreRequired();
    hide REQUIRED_FIELDS, LIST_FIELDS, OBJECT_LIST_FIELDS, MEANING_FIELDS, DECOMPOSITION_FIELDS, WellShaped, Rows,
         ObjectsOnly;
    ShapeListed(summary);
  }

  lemma FormsExact(summary: Fields, digest: Fields)
    ensures FormIssues(summary, ContextOf(digest)) == [] <==>
            forall form :: form in StringList(Get(summary, Forms)) ==> FormGrounded(form, digest)
  {
    var context := ContextOf(digest);
    var forms := StringList(Get(summary, Forms));
    var check := (form: string, index: nat) =>
      When(context.forms != {} && form !in context.forms, UnsupportedForm, Item(Forms, index), form);
    CollectsNothing(forms, |forms|, check);
    FormsAllowed(digest);
    assert forall k :: 0 <= k < |forms| ==> (check(forms[k], k) == [] <==> FormGrounded(forms[k], digest));
  }

  lemma FormsAllowed(digest: Fields)
    ensures forall form :: FormGrounded(form, digest) <==>
              ContextOf(digest).forms == {} || form in ContextOf(digest).forms
  {
    var forms := StringList(Get(digest, Forms));
    assert ContextOf(digest).forms == set s | s in forms;
    if forms != [] { assert forms[0] in ContextOf(digest).forms; }
  }

  lemma RefsAllowed(digest: Fields)
    ensures forall ref :: ref != "" ==> (RefGrounded(ref, digest) <==> ref in ContextOf(digest).sourceRefs)
  {
    hide FieldValues, ListValues, HasField, HasListed, StringList;
  }

  lemma GlossAllowed(normalize: string -> string, gloss: string, digest: Fields)
    ensures EvidenceIn(normalize, gloss, ContextOf(digest).glosses) <==> GlossCited(normalize, digest, gloss)
  {
    var rows := Rows(digest, MeaningsKey);
    var glosses := set row | row in rows :: String(Get(row, Gloss));
    assert ContextOf(digest).glosses == glosses;
    assert forall row :: row in rows ==> String(Get(row, Gloss)) in glosses;
  }

  lemma GlossesExact(normalize: string -> string, item: Fields, index: nat, digest: Fields)
    ensures GlossIssues(normalize, item, index, ContextOf(digest)) == [] <==>
            forall gloss :: gloss in StringList(Get(item, SourceGlosses)) ==> GlossCited(normalize, digest, gloss)
  {
    hide GlossCited, EvidenceIn, ContextOf, StringList;
    var context := ContextOf(digest);
    var glosses := StringList(Get(item, SourceGlosses));
    var check := (gloss: string, _: nat) =>
      When(!EvidenceIn(normalize, gloss, context.glosses), UnsupportedMeaningGloss,
           ItemField(MeaningsKey, index, SourceGlosses), gloss);
    CollectsNothing(glosses, |glosses|, check);
    forall k | 0 <= k < |glosses| ensures check(glosses[k], k) == [] <==> GlossCited(normalize, digest, glosses[k]) {
      GlossAllowed(normalize, glosses[k], digest);
    }
  }

  lemma MeaningExact(normalize: string -> string, item: Fields, index: nat, digest: Fields)
    ensures MeaningIssues(normalize, item, index, ContextOf(digest)) == [] <==>
            MeaningGrounded(normalize, item, digest)
  {
    hide GlossIssues, AllowedIssues, RefGrounded, GlossCited, HasField, HasListed, FieldValues, ListValues, StringList;
    var context := ContextOf(digest);
    GlossesExact(normalize, item, index, digest);
    AllowedExact(StringList(Get(item, Sources)), context.meaningSources, UnsupportedDictionarySource,
                 ItemField(MeaningsKey, index, Sources));
    AllowedExact(StringList(Get(item, SourceRefs)), context.sourceRefs, UnsupportedSourceRef,
                 ItemField(MeaningsKey, index, SourceRefs));
    AllowedExact([String(Get(item, SourceGlossLanguage))], context.glossLanguages,
                 UnsupportedSourceGlossLanguage, ItemField(MeaningsKey, index, SourceGlossLanguage));
    AllowedExact([String(Get(item, TranslationStatus))], context.translationStatuses,
                 UnsupportedTranslationStatus, ItemField(MeaningsKey, index, TranslationStatus));
    RefsAllowed(digest);
  }

  lemma GrammarExact(item: Fields, index: nat, digest: Fields)
    ensures GrammarIssues(item, index, ContextOf(digest)) == [] <==> GrammarGrounded(item, digest)
  {
    hide String, FieldValues, ListValues, StringList, AllowedIssues, Rows, FormGrounded;
    var source := String(Get(item, Source));
    AllowedExact([source], ContextOf(digest).morphologySources, UnsupportedDictionarySource,
                 ItemField(GrammarFunctions, index, Source));
    FormsAllowed(digest);
    forall row { KeysMatch(row, item); }
    if row :| row in Rows(digest, Morphology) && GrammarMatches(row, item) {
      assert HasField(Rows(digest, Morphology), Source, source);
    }
  }

  lemma PhraseExact(item: Fields, index: nat, digest: Fields)
    ensures PhraseIssues(item, index, ContextOf(digest)) == [] <==> PhraseGrounded(item, digest)
  {
    hide String, FieldValues, ListValues, StringList, AllowedIssues, Rows;
    var ref := String(Get(item, SourceRef));
    AllowedExact([ref], ContextOf(digest).sourceRefs, UnsupportedSourceRef, ItemField(PhrasePairs, index, SourceRef));
    forall row { KeysMatch(row, item); }
    if row :| row in Rows(digest, PhrasePairs) && PhraseMatches(row, item) {
      assert HasField(Rows(digest, PhrasePairs), SourceRef, ref);
    }
  }

  lemma SourcesExact(summary: Fields, digest: Fields)
    ensures AllowedIssues(StringList(Get(summary, DictionarySources)), ContextOf(digest).sources,
                          UnsupportedDictionarySource, Field(DictionarySources)) == [] <==>
            forall source :: source in StringList(Get(summary, DictionarySources)) ==> SourceGrounded(source, digest)
  {
    hide FieldValues, ListValues, StringList, AllowedIssues, HasField, HasListed;
    AllowedExact(StringList(Get(summary, DictionarySources)), ContextOf(digest).sources,
                 UnsupportedDictionarySource, Field(DictionarySources));
  }

  lemma MeaningsExact(normalize: string -> string, summary: Fields, digest: Fields)
    ensures MeaningListIssues(normalize, summary, ContextOf(digest)) == [] <==>
            forall item :: item in Rows(summary, MeaningsKey) ==> MeaningGrounded(normalize, item, digest)
  {
    hide MeaningIssues, MeaningGrounded, RowIssues, ContextOf, Rows;
    var check := (item: Fields, index: nat) => MeaningIssues(normalize, item, index, ContextOf(digest));
    var good := item => MeaningGrounded(normalize, item, digest);
    forall item, index: nat ensures check(item, index) == [] <==> good(item) {
      MeaningExact(normalize, item, index, digest);
    }
    RowsExact(summary, MeaningsKey, check, good);
  }

  lemma GrammarsExact(summary: Fields, digest: Fields)
    ensures GrammarListIssues(summary, ContextOf(digest)) == [] <==>
            forall item :: item in Rows(summary, GrammarFunctions) ==> GrammarGrounded(item, digest)
  {
    hide GrammarIssues, GrammarGrounded, RowIssues, ContextOf, Rows;
    var check := (item: Fields, index: nat) => GrammarIssues(item, index, ContextOf(digest));
    var good := item => GrammarGrounded(item, digest);
    forall item, index: nat ensures check(item, index) == [] <==> good(item) {
      GrammarExact(item, index, digest);
    }
    RowsExact(summary, GrammarFunctions, check, good);
  }

  lemma DecompositionExact(item: Fields, index: nat, digest: Fields)
    ensures DecompositionIssues(item, index, ContextOf(digest)) == [] <==> DecompositionGrounded(item, digest)
  {
    hide String, FieldValues, ListValues, StringList, Rows;
    forall row { KeysMatch(row, item); }
  }

  lemma UsageExact(item: Fields, index: nat, digest: Fields)
    ensures UsageIssues(item, index, ContextOf(digest)) == [] <==> UsageGrounded(item, digest)
  {
    hide String, FieldValues, ListValues, StringList, Rows;
    forall row { KeysMatch(row, item); }
  }

  lemma DecompositionsExact(summary: Fields, digest: Fields)
    ensures DecompositionListIssues(summary, ContextOf(digest)) == [] <==>
            forall item :: item in Rows(summary, WordDecomposition) ==> DecompositionGrounded(item, digest)
  {
    hide DecompositionIssues, DecompositionGrounded, RowIssues, ContextOf, Rows;
    var check := (item: Fields, index: nat) => DecompositionIssues(item, index, ContextOf(digest));
    var good := item => DecompositionGrounded(item, digest);
    forall item, index: nat ensures check(item, index) == [] <==> good(item) {
      DecompositionExact(item, index, digest);
    }
    RowsExact(summary, WordDecomposition, check, good);
  }

  lemma UsagesExact(summary: Fields, digest: Fields)
    ensures UsageListIssues(summary, ContextOf(digest)) == [] <==>
            forall item :: item in Rows(summary, ReaderUsages) ==> UsageGrounded(item, digest)
  {
    hide UsageIssues, UsageGrounded, RowIssues, ContextOf, Rows;
    var check := (item: Fields, index: nat) => UsageIssues(item, index, ContextOf(digest));
    var good := item => UsageGrounded(item, digest);
    forall item, index: nat ensures check(item, index) == [] <==> good(item) {
      UsageExact(item, index, digest);
    }
    RowsExact(summary, ReaderUsages, check, good);
  }

  lemma PhrasesExact(summary: Fields, digest: Fields)
    ensures PhraseListIssues(summary, ContextOf(digest)) == [] <==>
            forall item :: item in Rows(summary, PhrasePairs) ==> PhraseGrounded(item, digest)
  {
    hide PhraseIssues, PhraseGrounded, RowIssues, ContextOf, Rows;
    var check := (item: Fields, index: nat) => PhraseIssues(item, index, ContextOf(digest));
    var good := item => PhraseGrounded(item, digest);
    forall item, index: nat ensures check(item, index) == [] <==> good(item) {
      PhraseExact(item, index, digest);
    }
    RowsExact(summary, PhrasePairs, check, good);
  }

  /** The validator is sound and complete: it reports nothing exactly for grounded summaries. */
  lemma ValidatorExact(normalize: string -> string, summary: Fields, digest: Fields)
    ensures SummaryIssues(normalize, summary, digest) == [] <==> Grounded(normalize, summary, digest)
  {
    hide ShapeIssues, WellShaped, FormIssues, AllowedIssues, MeaningListIssues, MeaningGrounded, GrammarListIssues,
         GrammarGrounded, PhraseListIssues, PhraseGrounded, DecompositionListIssues, DecompositionGrounded,
         UsageListIssues, UsageGrounded, FormGrounded, SourceGrounded, StringList, ContextOf, Rows;
    ShapeExact(summary);
    FormsExact(summary, digest);
    MeaningsExact(normalize, summary, digest);
    GrammarsExact(summary, digest);
    DecompositionsExact(summary, digest);
    UsagesExact(summary, digest);
    PhrasesExact(summary, digest);
    SourcesExact(summary, digest);
  }

  // ----- The validator as it runs: each check appends to one shared list of issues

  method AppendWhen(log: IssueLog, bad: bool, code: IssueCode, path: Path, value: string)
    modifies log
    ensures log.issues == old(log.issues) + When(bad, code, path, value)
  {
    if bad {
      log.Append(code, path, value);
    }
  }

  method ValidateAllowed(log: IssueLog, values: seq<string>, allowed: set<string>, code: IssueCode, path: Path)
    modifies log
    ensures log.issues == old(log.issues) + AllowedIssues(values, allowed, code, path)
  {
    ghost var base := log.issues;
    ghost var check := (value: string, _: nat) => When(value != "" && value !in allowed, code, path, value);
    for i := 0 to |values|
      invariant log.issues == base + CollectTo(values, i, check)
    {
      hide CollectTo, When;
      AppendWhen(log, values[i] != "" && values[i] !in allowed, code, path, values[i]);
      CollectStep(base, values, i, check);
    }
  }

  method ValidateRequired(log: IssueLog, summary: Fields)
    modifies log
    ensures log.issues == old(log.issues) + RequiredIssues(summary)
  {
    ghost var base := log.issues;
    ghost var check := (key: Key, _: nat) => When(key !in summary, MissingRequiredField, Field(key), "");
    for i := 0 to |REQUIRED_FIELDS|
      invariant log.issues == base + CollectTo(REQUIRED_FIELDS, i, check)
    {
      hide CollectTo, When;
      AppendWhen(log, REQUIRED_FIELDS[i] !in summary, MissingRequiredField, Field(REQUIRED_FIELDS[i]), "");
      CollectStep(base, REQUIRED_FIELDS, i, check);
    }
  }

  method ValidateLists(log: IssueLog, summary: Fields)
    modifies log
    ensures log.issues == old(log.issues) + ListIssues(summary)
  {
    ghost var base := log.issues;
    ghost var check := (key: Key, _: nat) =>
      When(key in summary && !summary[key].Arr?, InvalidFieldType, Field(key), "");
    for i := 0 to |LIST_FIELDS|
      invariant log.issues == base + CollectTo(LIST_FIELDS, i, check)
    {
      hide CollectTo, When;
      var key := LIST_FIELDS[i];
      AppendWhen(log, key in summary && !summary[key].Arr?, InvalidFieldType, Field(key), "");
      CollectStep(base, LIST_FIELDS, i, check);
    }
  }

  method ValidateObjects(log: IssueLog, summary: Fields, key: Key)
    modifies log
    ensures log.issues == old(log.issues) + ObjectIssues(summary, key)
  {
    var value := Get(summary, key);
    if !value.Arr? {
      return;
    }
    ghost var base := log.issues;
    ghost var check := (item: Value, index: nat) => When(!item.Obj?, InvalidItemType, Item(key, index), "");
    for index := 0 to |value.items|
      invariant log.issues == base + CollectTo(value.items, index, check)
    {
      hide CollectTo, When;
      AppendWhen(log, !value.items[index].Obj?, InvalidItemType, Item(key, index), "");
      CollectStep(base, value.items, index, check);
    }
  }

  method ValidateObjectLists(log: IssueLog, summary: Fields)
    modifies log
    ensures log.issues == old(log.issues) + ObjectListIssues(summary)
  {
    ghost var base := log.issues;
    ghost var check := (key: Key, _: nat) => ObjectIssues(summary, key);
    for i := 0 to |OBJECT_LIST_FIELDS|
      invariant log.issues == base + CollectTo(OBJECT_LIST_FIELDS, i, check)
    {
      hide CollectTo, ObjectIssues;
      ValidateObjects(log, summary, OBJECT_LIST_FIELDS[i]);
      CollectStep(base, OBJECT_LIST_FIELDS, i, check);
    }
  }

  method ValidatePresent(log: IssueLog, item: Fields, required: seq<Key>, code: IssueCode, key: Key, index: nat)
    modifies log
    ensures log.issues == old(log.issues) + MissingIssues(item, required, code, key, index)
  {
    ghost var base := log.issues;
    ghost var check := (field: Key, _: nat) => When(field !in item, code, ItemField(key, index, field), "");
    for i := 0 to |required|
      invariant log.issues == base + CollectTo(required, i, check)
    {
      hide CollectTo, When;
      AppendWhen(log, required[i] !in item, code, ItemField(key, index, required[i]), "");
      CollectStep(base, required, i, check);
    }
  }

  method ValidateFields(log: IssueLog, summary: Fields, key: Key, required: seq<Key>, code: IssueCode)
    modifies log
    ensures log.issues == old(log.issues) + FieldIssues(summary, key, required, code)
  {
    var items := Rows(summary, key);
    ghost var base := log.issues;
    ghost var check := (item: Fields, index: nat) => MissingIssues(item, required, code, key, index);
    for index := 0 to |items|
      invariant log.issues == base + CollectTo(items, index, check)
    {
      hide CollectTo, MissingIssues;
      ValidatePresent(log, items[index], required, code, key, index);
      CollectStep(base, items, index, check);
    }
  }

  method ValidateSummaryShape(log: IssueLog, summary: Fields)
    modifies log
    ensures log.issues == old(log.issues) + ShapeIssues(summary)
  {
    hide RequiredIssues, ListIssues, ObjectListIssues, FieldIssues;
    ghost var base := log.issues;
    ValidateRequired(log, summary);
    ValidateLists(log, summary);
    Assoc(base, RequiredIssues(summary), ListIssues(summary));
    ValidateObjectLists(log, summary);
    Assoc(base, RequiredIssues(summary) + ListIssues(summary), ObjectListIssues(summary));
    ValidateFields(log, summary, MeaningsKey, MEANING_FIELDS, MissingMeaningField);
    Assoc(base, RequiredIssues(summary) + ListIssues(summary) + ObjectListIssues(summary),
          FieldIssues(summary, MeaningsKey, MEANING_FIELDS, MissingMeaningField));
    ValidateFields(log, summary, WordDecomposition, DECOMPOSITION_FIELDS, MissingDecompositionField);
    Assoc(base, RequiredIssues(summary) + ListIssues(summary) + ObjectListIssues(summary) +
                FieldIssues(summary, MeaningsKey, MEANING_FIELDS, MissingMeaningField),
          FieldIssues(summary, WordDecomposition, DECOMPOSITION_FIELDS, MissingDecompositionField));
  }

  method ValidateSummaryForms(log: IssueLog, summary: Fields, context: Context)
    modifies log
    ensures log.issues == old(log.issues) + FormIssues(summary, context)
  {
    var forms := StringList(Get(summary, Forms));
    ghost var base := log.issues;
    ghost var check := (form: string, index: nat) =>
      When(context.forms != {} && form !in context.forms, UnsupportedForm, Item(Forms, index), form);
    for index := 0 to |forms|
      invariant log.issues == base + CollectTo(forms, index, check)
    {
      hide CollectTo, When, StringList;
      AppendWhen(log, context.forms != {} && forms[index] !in context.forms,
                 UnsupportedForm, Item(Forms, index), forms[index]);
      CollectStep(base, forms, index, check);
    }
  }

  method ValidateGlosses(log: IssueLog, normalize: string -> string, item: Fields, index: nat, context: Context)
    modifies log
    ensures log.issues == old(log.issues) + GlossIssues(normalize, item, index, context)
  {
    var glosses := StringList(Get(item, SourceGlosses));
    ghost var base := log.issues;
    ghost var check := (gloss: string, _: nat) =>
      When(!EvidenceIn(normalize, gloss, context.glosses), UnsupportedMeaningGloss,
           ItemField(MeaningsKey, index, SourceGlosses), gloss);
    for g := 0 to |glosses|
      invariant log.issues == base + CollectTo(glosses, g, check)
    {
      hide CollectTo, When, StringList, EvidenceIn;
      AppendWhen(log, !EvidenceIn(normalize, glosses[g], context.glosses), UnsupportedMeaningGloss,
                 ItemField(MeaningsKey, index, SourceGlosses), glosses[g]);
      CollectStep(base, glosses, g, check);
    }
  }

  method ValidateMeaning(log: IssueLog, normalize: string -> string, item: Fields, index: nat, context: Context)
    modifies log
    ensures log.issues == old(log.issues) + MeaningIssues(normalize, item, index, context)
  {
    hide GlossIssues, AllowedIssues, StringList;
    ghost var base := log.issues;
    ValidateGlosses(log, normalize, item, index, context);
    ghost var found := GlossIssues(normalize, item, index, context);
    ghost var more := AllowedIssues(StringList(Get(item, Sources)), context.meaningSources,
                                    UnsupportedDictionarySource, ItemField(MeaningsKey, index, Sources));
    ValidateAllowed(log, StringList(Get(item, Sources)), context.meaningSources,
                    UnsupportedDictionarySource, ItemField(MeaningsKey, index, Sources));
    Assoc(base, found, more);
    found, more := found + more, AllowedIssues(StringList(Get(item, SourceRefs)), context.sourceRefs,
                                               UnsupportedSourceRef, ItemField(MeaningsKey, index, SourceRefs));
    ValidateAllowed(log, StringList(Get(item, SourceRefs)), context.sourceRefs,
                    UnsupportedSourceRef, ItemField(MeaningsKey, index, SourceRefs));
    Assoc(base, found, more);
    found, more := found + more, AllowedIssues([String(Get(item, SourceGlossLanguage))], context.glossLanguages,
      UnsupportedSourceGlossLanguage, ItemField(MeaningsKey, index, SourceGlossLanguage));
    ValidateAllowed(log, [String(Get(item, SourceGlossLanguage))], context.glossLanguages,
                    UnsupportedSourceGlossLanguage, ItemField(MeaningsKey, index, SourceGlossLanguage));
    Assoc(base, found, more);
    found, more := found + more, AllowedIssues([String(Get(item, TranslationStatus))], context.translationStatuses,
      UnsupportedTranslationStatus, ItemField(MeaningsKey, index, TranslationStatus));
    ValidateAllowed(log, [String(Get(item, TranslationStatus))], context.translationStatuses,
                    UnsupportedTranslationStatus, ItemField(MeaningsKey, index, TranslationStatus));
    Assoc(base, found, more);
  }

  method ValidateSummaryMeanings(log: IssueLog, normalize: string -> string, summary: Fields, context: Context)
    modifies log
    ensures log.issues == old(log.issues) + MeaningListIssues(normalize, summary, context)
  {
    var items := Rows(summary, MeaningsKey);
    ghost var base := log.issues;
    ghost var check := (item: Fields, index: nat) => MeaningIssues(normalize, item, index, context);
    for index := 0 to |items|
      invariant log.issues == base + CollectTo(items, index, check)
    {
      hide CollectTo, MeaningIssues;
      ValidateMeaning(log, normalize, items[index], index, context);
      CollectStep(base, items, index, check);
    }
  }

  method ValidateGrammar(log: IssueLog, item: Fields, index: nat, context: Context)
    modifies log
    ensures log.issues == old(log.issues) + GrammarIssues(item, index, context)
  {
    hide AllowedIssues, When;
    ghost var base := log.issues;
    var form := String(Get(item, Form));
    var unknownForm := context.forms != {} && form != "" && form !in context.forms;
    var unknownRow := GrammarKey(item) !in context.grammar;
    AppendWhen(log, unknownForm, UnsupportedForm, ItemField(GrammarFunctions, index, Form), form);
    AppendWhen(log, unknownRow, UnsupportedGrammarAnalysis, Item(GrammarFunctions, index), "");
    ghost var found := When(unknownForm, UnsupportedForm, ItemField(GrammarFunctions, index, Form), form);
    ghost var more := When(unknownRow, UnsupportedGrammarAnalysis, Item(GrammarFunctions, index), "");
    Assoc(base, found, more);
    ValidateAllowed(log, [String(Get(item, Source))], context.morphologySources,
                    UnsupportedDictionarySource, ItemField(GrammarFunctions, index, Source));
    Assoc(base, found + more, AllowedIssues([String(Get(item, Source))], context.morphologySources,
          UnsupportedDictionarySource, ItemField(GrammarFunctions, index, Source)));
  }

  method ValidateSummaryGrammar(log: IssueLog, summary: Fields, context: Context)
    modifies log
    ensures log.issues == old(log.issues) + GrammarListIssues(summary, context)
  {
    var items := Rows(summary, GrammarFunctions);
    ghost var base := log.issues;
    ghost var check := (item: Fields, index: nat) => GrammarIssues(item, index, context);
    for index := 0 to |items|
      invariant log.issues == base + CollectTo(items, index, check)
    {
      hide CollectTo, GrammarIssues;
      ValidateGrammar(log, items[index], index, context);
      CollectStep(base, items, index, check);
    }
  }

  method ValidateSummaryWordDecomposition(log: IssueLog, summary: Fields, context: Context)
    modifies log
    ensures log.issues == old(log.issues) + DecompositionListIssues(summary, context)
  {
    var items := Rows(summary, WordDecomposition);
    ghost var base := log.issues;
    ghost var check := (item: Fields, index: nat) => DecompositionIssues(item, index, context);
    for index := 0 to |items|
      invariant log.issues == base + CollectTo(items, index, check)
    {
      hide CollectTo, When, DecompositionKey;
      AppendWhen(log, DecompositionKey(items[index]) !in context.decomposition,
                 UnsupportedWordDecomposition, Item(WordDecomposition, index), "");
      CollectStep(base, items, index, check);
    }
  }

  method ValidateSummaryReaderUsages(log: IssueLog, summary: Fields, context: Context)
    modifies log
    ensures log.issues == old(log.issues) + UsageListIssues(summary, context)
  {
    var items := Rows(summary, ReaderUsages);
    ghost var base := log.issues;
    ghost var check := (item: Fields, index: nat) => UsageIssues(item, index, context);
    for index := 0 to |items|
      invariant log.issues == base + CollectTo(items, index, check)
    {
      hide CollectTo, When, UsageKey;
      AppendWhen(log, UsageKey(items[index]) !in context.readerUsages,
                 UnsupportedReaderUsage, Item(ReaderUsages, index), "");
      CollectStep(base, items, index, check);
    }
  }

  method ValidatePhrase(log: IssueLog, item: Fields, index: nat, context: Context)
    modifies log
    ensures log.issues == old(log.issues) + PhraseIssues(item, index, context)
  {
    hide AllowedIssues, When, PhraseKey;
    ghost var base := log.issues;
    var unknown := PhraseKey(item) !in context.phrasePairs;
    AppendWhen(log, unknown, UnsupportedPhrasePair, Item(PhrasePairs, index), "");
    ValidateAllowed(log, [String(Get(item, SourceRef))], context.sourceRefs,
                    UnsupportedSourceRef, ItemField(PhrasePairs, index, SourceRef));
    Assoc(base, When(unknown, UnsupportedPhrasePair, Item(PhrasePairs, index), ""),
          AllowedIssues([String(Get(item, SourceRef))], context.sourceRefs,
                        UnsupportedSourceRef, ItemField(PhrasePairs, index, SourceRef)));
  }

  method ValidateSummaryPhrasePairs(log: IssueLog, summary: Fields, context: Context)
    modifies log
    ensures log.issues == old(log.issues) + PhraseListIssues(summary, context)
  {
    var items := Rows(summary, PhrasePairs);
    ghost var base := log.issues;
    ghost var check := (item: Fields, index: nat) => PhraseIssues(item, index, context);
    for index := 0 to |items|
      invariant log.issues == base + CollectTo(items, index, check)
    {
      hide CollectTo, PhraseIssues;
      ValidatePhrase(log, items[index], index, context);
      CollectStep(base, items, index, check);
    }
  }

  /** `validate_briefing_summary` */
  method ValidateBriefingSummary(normalize: string -> string, summary: Fields, digest: Fields)
    returns (issues: seq<Issue>)
    ensures issues == SummaryIssues(normalize, summary, digest)
    ensures issues == [] <==> Grounded(normalize, summary, digest)
  {
    hide ShapeIssues, FormIssues, AllowedIssues, MeaningListIssues, GrammarListIssues, DecompositionListIssues,
         UsageListIssues, PhraseListIssues, When, Grounded, ContextOf, StringList;
    var log := new IssueLog();
    ValidateSummaryShape(log, summary);
    assert log.issues == ShapeIssues(summary);
    AppendWhen(log, String(Get(summary, SchemaVersion)) != SUMMARY_SCHEMA,
               InvalidSchemaVersion, Field(SchemaVersion), "");
    var context := ContextOf(digest);
    ValidateSummaryForms(log, summary, context);
    ValidateSummaryMeanings(log, normalize, summary, context);
    ValidateSummaryGrammar(log, summary, context);
    ValidateSummaryWordDecomposition(log, summary, context);
    ValidateSummaryReaderUsages(log, summary, context);
    ValidateSummaryPhrasePairs(log, summary, context);
    ValidateAllowed(log, StringList(Get(summary, DictionarySources)), context.sources,
                    UnsupportedDictionarySource, Field(DictionarySources));
    ValidatorExact(normalize, summary, digest);
    return log.issues;
  }
}
