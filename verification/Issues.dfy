/** Which issues the validator reports: each with its code, its path and the offending value. */
module Issues {
  import opened Json
  import opened Validator

  // ----- Lists of checks

  lemma {:induction false} CollectHas<T>(items: seq<T>, n: nat, check: (T, nat) -> seq<Issue>, issue: Issue)
    requires n <= |items|
    ensures issue in CollectTo(items, n, check) <==> exists k :: 0 <= k < n && issue in check(items[k], k)
  {
    if n > 0 {
      CollectHas(items, n - 1, check, issue);
    }
  }

  // ----- What each code says

  ghost predicate MissingField(summary: Fields, issue: Issue) {
    exists key :: key !in summary && IsRequired(key) && issue == Issue(MissingRequiredField, Field(key), "")
  }

  predicate IsRequired(key: Key) {
    || key == SchemaVersion || key == Short || key == Forms || key == MeaningsKey || key == GrammarFunctions
    || key == WordDecomposition || key == ReaderUsages || key == PhrasePairs || key == DictionarySources
    || key == Caveats
  }

  predicate IsObjectList(key: Key) {
    || key == MeaningsKey || key == GrammarFunctions || key == WordDecomposition || key == ReaderUsages
    || key == PhrasePairs
  }

  ghost predicate NoList(summary: Fields, issue: Issue) {
    exists key ::
      key in summary && !summary[key].Arr? && IsList(key) && issue == Issue(InvalidFieldType, Field(key), "")
  }

  predicate IsList(key: Key) {
    IsObjectList(key) || key == Forms || key == DictionarySources || key == Caveats
  }

  ghost predicate NoObject(summary: Fields, issue: Issue) {
    exists key, index: nat :: IsObjectList(key) && Get(summary, key).Arr? && index < |Get(summary, key).items|
      && !Get(summary, key).items[index].Obj? && issue == Issue(InvalidItemType, Item(key, index), "")
  }

  ghost predicate RowLacks(summary: Fields, issue: Issue) {
    || (exists index: nat, field :: index < |Rows(summary, MeaningsKey)| && field !in Rows(summary, MeaningsKey)[index]
          && issue == Issue(MissingMeaningField, ItemField(MeaningsKey, index, field), "")
          && (|| field == Summary || field == SourceGlosses || field == SourceGlossLanguage
              || field == TranslationStatus || field == Sources || field == TranslationSources || field == SourceRefs))
    || (exists index: nat, field :: index < |Rows(summary, WordDecomposition)|
          && field !in Rows(summary, WordDecomposition)[index]
          && issue == Issue(MissingDecompositionField, ItemField(WordDecomposition, index, field), "")
          && (field == Form || field == Lemma || field == Analysis || field == Source))
  }

  /** A value of a row that nothing in the digest supports. */
  ghost predicate Says(issue: Issue, code: IssueCode, index: nat, section: Key, field: Key, value: string) {
    value != "" && issue == Issue(code, ItemField(section, index, field), value)
  }

  ghost predicate MeaningSays(normalize: string -> string, item: Fields, index: nat, digest: Fields, issue: Issue) {
    || (exists gloss :: gloss in StringList(Get(item, SourceGlosses)) && !GlossCited(normalize, digest, gloss)
          && Says(issue, UnsupportedMeaningGloss, index, MeaningsKey, SourceGlosses, gloss))
    || (exists source :: source in StringList(Get(item, Sources))
          && !HasListed(Rows(digest, MeaningsKey), Sources, source)
          && Says(issue, UnsupportedDictionarySource, index, MeaningsKey, Sources, source))
    || (exists ref :: ref in StringList(Get(item, SourceRefs)) && !RefGrounded(ref, digest)
          && Says(issue, UnsupportedSourceRef, index, MeaningsKey, SourceRefs, ref))
    || (&& !HasField(Rows(digest, MeaningsKey), SourceGlossLanguage, String(Get(item, SourceGlossLanguage)))
        && Says(issue, UnsupportedSourceGlossLanguage, index, MeaningsKey, SourceGlossLanguage,
                String(Get(item, SourceGlossLanguage))))
    || (&& !HasField(Rows(digest, MeaningsKey), TranslationStatus, String(Get(item, TranslationStatus)))
        && Says(issue, UnsupportedTranslationStatus, index, MeaningsKey, TranslationStatus,
                String(Get(item, TranslationStatus))))
  }

  ghost predicate GrammarSays(item: Fields, index: nat, digest: Fields, issue: Issue) {
    || (!FormGrounded(String(Get(item, Form)), digest)
        && Says(issue, UnsupportedForm, index, GrammarFunctions, Form, String(Get(item, Form))))
    || ((forall row :: row in Rows(digest, Morphology) ==> !GrammarMatches(row, item))
        && issue == Issue(UnsupportedGrammarAnalysis, Item(GrammarFunctions, index), ""))
    || (!HasField(Rows(digest, Morphology), Source, String(Get(item, Source)))
        && Says(issue, UnsupportedDictionarySource, index, GrammarFunctions, Source, String(Get(item, Source))))
  }

  ghost predicate DecompositionSays(item: Fields, index: nat, digest: Fields, issue: Issue) {
    && !DecompositionGrounded(item, digest)
    && issue == Issue(UnsupportedWordDecomposition, Item(WordDecomposition, index), "")
  }

  ghost predicate UsageSays(item: Fields, index: nat, digest: Fields, issue: Issue) {
    !UsageGrounded(item, digest) && issue == Issue(UnsupportedReaderUsage, Item(ReaderUsages, index), "")
  }

  ghost predicate PhraseSays(item: Fields, index: nat, digest: Fields, issue: Issue) {
    || (!PhraseGrounded(item, digest) && issue == Issue(UnsupportedPhrasePair, Item(PhrasePairs, index), ""))
    || (!RefGrounded(String(Get(item, SourceRef)), digest)
        && Says(issue, UnsupportedSourceRef, index, PhrasePairs, SourceRef, String(Get(item, SourceRef))))
  }

  /** Some row of the section gives the issue. */
  ghost predicate SomeRow(summary: Fields, section: Key, says: (Fields, nat) -> bool) {
    exists index: nat :: index < |Rows(summary, section)| && says(Rows(summary, section)[index], index)
  }

  ghost predicate SchemaSays(summary: Fields, issue: Issue) {
    String(Get(summary, SchemaVersion)) != "langnet.encounter_briefing.summary.v1"
    && issue == Issue(InvalidSchemaVersion, Field(SchemaVersion), "")
  }

  ghost predicate FormSays(forms: seq<string>, digest: Fields, issue: Issue) {
    exists index: nat :: index < |forms| && !FormGrounded(forms[index], digest)
      && issue == Issue(UnsupportedForm, Item(Forms, index), forms[index])
  }

  ghost predicate SourceSays(sources: seq<string>, digest: Fields, issue: Issue) {
    exists source :: source in sources && !SourceGrounded(source, digest)
      && issue == Issue(UnsupportedDictionarySource, Field(DictionarySources), source)
  }

  /** What the issue says is so. */
  ghost predicate Reports(normalize: string -> string, summary: Fields, digest: Fields, issue: Issue) {
    || MissingField(summary, issue) || NoList(summary, issue) || NoObject(summary, issue) || RowLacks(summary, issue)
    || SchemaSays(summary, issue) || FormSays(StringList(Get(summary, Forms)), digest, issue)
    || SourceSays(StringList(Get(summary, DictionarySources)), digest, issue)
    || SomeRow(summary, MeaningsKey, (item: Fields, index: nat) => MeaningSays(normalize, item, index, digest, issue))
    || SomeRow(summary, GrammarFunctions, (item: Fields, index: nat) => GrammarSays(item, index, digest, issue))
    || SomeRow(summary, WordDecomposition, (item: Fields, index: nat) => DecompositionSays(item, index, digest, issue))
    || SomeRow(summary, ReaderUsages, (item: Fields, index: nat) => UsageSays(item, index, digest, issue))
    || SomeRow(summary, PhrasePairs, (item: Fields, index: nat) => PhraseSays(item, index, digest, issue))
  }

  // ----- What the checks report

  lemma AllowedHas(values: seq<string>, allowed: set<string>, code: IssueCode, path: Path, issue: Issue)
    ensures issue in AllowedIssues(values, allowed, code, path) <==>
            exists value :: value in values && value != "" && value !in allowed && issue == Issue(code, path, value)
  {
    var check := (value: string, _: nat) => When(value != "" && value !in allowed, code, path, value);
    CollectHas(values, |values|, check, issue);
    if value :| value in values && value != "" && value !in allowed && issue == Issue(code, path, value) {
      var k :| 0 <= k < |values| && values[k] == value;
      assert issue in check(values[k], k);
    }
  }

  lemma OneAllowedHas(value: string, allowed: set<string>, code: IssueCode, path: Path, issue: Issue)
    ensures issue in AllowedIssues([value], allowed, code, path) <==>
            value != "" && value !in allowed && issue == Issue(code, path, value)
  {
    AllowedHas([value], allowed, code, path, issue);
  }

  lemma RowsHave(summary: Fields, section: Key, check: (Fields, nat) -> seq<Issue>, says: (Fields, nat) -> bool,
                 issue: Issue)
    requires forall item, index: nat :: issue in check(item, index) <==> says(item, index)
    ensures issue in RowIssues(summary, section, check) <==> SomeRow(summary, section, says)
  {
    CollectHas(Rows(summary, section), |Rows(summary, section)|, check, issue);
  }

  lemma MeaningHas(normalize: string -> string, item: Fields, index: nat, digest: Fields, issue: Issue)
    ensures issue in MeaningIssues(normalize, item, index, ContextOf(digest)) <==>
            MeaningSays(normalize, item, index, digest, issue)
  {
    hide AllowedIssues, GlossIssues, RefGrounded, GlossCited, HasField, HasListed, FieldValues, ListValues, StringList,
         String;
    var context := ContextOf(digest);
    RefsAllowed(digest);
    GlossHas(normalize, item, index, digest, issue);
    AllowedHas(StringList(Get(item, Sources)), context.meaningSources, UnsupportedDictionarySource,
               ItemField(MeaningsKey, index, Sources), issue);
    AllowedHas(StringList(Get(item, SourceRefs)), context.sourceRefs, UnsupportedSourceRef,
               ItemField(MeaningsKey, index, SourceRefs), issue);
    OneAllowedHas(String(Get(item, SourceGlossLanguage)), context.glossLanguages, UnsupportedSourceGlossLanguage,
                  ItemField(MeaningsKey, index, SourceGlossLanguage), issue);
    OneAllowedHas(String(Get(item, TranslationStatus)), context.translationStatuses, UnsupportedTranslationStatus,
                  ItemField(MeaningsKey, index, TranslationStatus), issue);
  }

  lemma GlossHas(normalize: string -> string, item: Fields, index: nat, digest: Fields, issue: Issue)
    ensures issue in GlossIssues(normalize, item, index, ContextOf(digest)) <==>
            exists gloss :: gloss in StringList(Get(item, SourceGlosses)) && !GlossCited(normalize, digest, gloss)
                            && Says(issue, UnsupportedMeaningGloss, index, MeaningsKey, SourceGlosses, gloss)
  {
    hide GlossCited, EvidenceIn, ContextOf, StringList;
    var context := ContextOf(digest);
    var glosses := StringList(Get(item, SourceGlosses));
    var check := (gloss: string, _: nat) =>
      When(!EvidenceIn(normalize, gloss, context.glosses), UnsupportedMeaningGloss,
           ItemField(MeaningsKey, index, SourceGlosses), gloss);
    CollectHas(glosses, |glosses|, check, issue);
    forall gloss { GlossAllowed(normalize, gloss, digest); }
    if k :| 0 <= k < |glosses| && issue in check(glosses[k], k) {
      assert glosses[k] in glosses && !GlossCited(normalize, digest, glosses[k]);
      assert Says(issue, UnsupportedMeaningGloss, index, MeaningsKey, SourceGlosses, glosses[k]);
    }
    if gloss :| gloss in glosses && !GlossCited(normalize, digest, gloss)
                && Says(issue, UnsupportedMeaningGloss, index, MeaningsKey, SourceGlosses, gloss) {
      var k :| 0 <= k < |glosses| && glosses[k] == gloss;
      assert issue in check(glosses[k], k);
    }
  }

  lemma GrammarHas(item: Fields, index: nat, digest: Fields, issue: Issue)
    ensures issue in GrammarIssues(item, index, ContextOf(digest)) <==> GrammarSays(item, index, digest, issue)
  {
    hide String, FieldValues, ListValues, StringList, AllowedIssues, Rows, FormGrounded, HasField;
    FormsAllowed(digest);
    forall row { KeysMatch(row, item); }
    OneAllowedHas(String(Get(item, Source)), ContextOf(digest).morphologySources, UnsupportedDictionarySource,
                  ItemField(GrammarFunctions, index, Source), issue);
  }

  lemma DecompositionHas(item: Fields, index: nat, digest: Fields, issue: Issue)
    ensures issue in DecompositionIssues(item, index, ContextOf(digest)) <==>
      DecompositionSays(item, index, digest, issue)
  {
    hide String, FieldValues, ListValues, StringList, Rows;
    forall row { KeysMatch(row, item); }
  }

  lemma UsageHas(item: Fields, index: nat, digest: Fields, issue: Issue)
    ensures issue in UsageIssues(item, index, ContextOf(digest)) <==> UsageSays(item, index, digest, issue)
  {
    hide String, FieldValues, ListValues, StringList, Rows;
    forall row { KeysMatch(row, item); }
  }

  lemma PhraseHas(item: Fields, index: nat, digest: Fields, issue: Issue)
    ensures issue in PhraseIssues(item, index, ContextOf(digest)) <==> PhraseSays(item, index, digest, issue)
  {
    hide String, FieldValues, ListValues, StringList, AllowedIssues, Rows, RefGrounded;
    RefsAllowed(digest);
    forall row { KeysMatch(row, item); }
    OneAllowedHas(String(Get(item, SourceRef)), ContextOf(digest).sourceRefs, UnsupportedSourceRef,
                  ItemField(PhrasePairs, index, SourceRef), issue);
  }

  lemma FormsHave(summary: Fields, digest: Fields, issue: Issue)
    ensures issue in FormIssues(summary, ContextOf(digest)) <==>
      FormSays(StringList(Get(summary, Forms)), digest, issue)
  {
    hide StringList, ContextOf, FormGrounded;
    var context := ContextOf(digest);
    var forms := StringList(Get(summary, Forms));
    FormsAllowed(digest);
    var check := (form: string, index: nat) =>
      When(context.forms != {} && form !in context.forms, UnsupportedForm, Item(Forms, index), form);
    CollectHas(forms, |forms|, check, issue);
  }

  lemma SourcesHave(summary: Fields, digest: Fields, issue: Issue)
    ensures issue in AllowedIssues(StringList(Get(summary, DictionarySources)), ContextOf(digest).sources,
                                   UnsupportedDictionarySource, Field(DictionarySources)) <==>
            SourceSays(StringList(Get(summary, DictionarySources)), digest, issue)
  {
    hide StringList, FieldValues, ListValues, HasField, HasListed, AllowedIssues, Rows;
    AllowedHas(StringList(Get(summary, DictionarySources)), ContextOf(digest).sources, UnsupportedDictionarySource,
               Field(DictionarySources), issue);
  }

  // ----- The shape

  lemma RequiredIs(key: Key)
    ensures key in REQUIRED_FIELDS <==> IsRequired(key)
  {
    hide REQUIRED_FIELDS;
    RequiredFieldsAt();
    var keys := REQUIRED_FIELDS;
    if key in keys {
      var i :| 0 <= i < |keys| && keys[i] == key;
    }
  }

  lemma ListIs(key: Key)
    ensures key in LIST_FIELDS <==> IsList(key)
  {
    hide LIST_FIELDS;
    ListFieldsAt();
    var keys := LIST_FIELDS;
    if key in keys {
      var i :| 0 <= i < |keys| && keys[i] == key;
    }
  }

  lemma ObjectListIs(key: Key)
    ensures key in OBJECT_LIST_FIELDS <==> IsObjectList(key)
  {
    hide OBJECT_LIST_FIELDS;
    ObjectFieldsAt();
    var keys := OBJECT_LIST_FIELDS;
    assert key in keys <==> exists i :: 0 <= i < 5 && keys[i] == key;
  }

  lemma MeaningFieldIs(key: Key)
    ensures key in MEANING_FIELDS <==>
      (|| key == Summary || key == SourceGlosses || key == SourceGlossLanguage || key == TranslationStatus
       || key == Sources || key == TranslationSources || key == SourceRefs)
  {
    hide MEANING_FIELDS;
    MeaningFieldsAt();
    var keys := MEANING_FIELDS;
    assert key in keys <==> exists i :: 0 <= i < 7 && keys[i] == key;
  }

  lemma DecompositionFieldIs(key: Key)
    ensures key in DECOMPOSITION_FIELDS <==> key == Form || key == Lemma || key == Analysis || key == Source
  {
    var keys := DECOMPOSITION_FIELDS;
    assert keys[0] == Form && keys[1] == Lemma && keys[2] == Analysis && keys[3] == Source;
  }

  lemma RequiredHas(summary: Fields, issue: Issue)
    ensures issue in RequiredIssues(summary) <==> MissingField(summary, issue)
  {
    var check := (key: Key, _: nat) => When(key !in summary, MissingRequiredField, Field(key), "");
    var keys := REQUIRED_FIELDS;
    hide REQUIRED_FIELDS, IsRequired;
    CollectHas(keys, |keys|, check, issue);
    forall key { RequiredIs(key); }
    if key :| key in keys && key !in summary && issue == Issue(MissingRequiredField, Field(key), "") {
      var k :| 0 <= k < |keys| && keys[k] == key;
      assert issue in check(keys[k], k);
    }
  }

  lemma ListsHave(summary: Fields, issue: Issue)
    ensures issue in ListIssues(summary) <==> NoList(summary, issue)
  {
    var check := (key: Key, _: nat) => When(key in summary && !summary[key].Arr?, InvalidFieldType, Field(key), "");
    var keys := LIST_FIELDS;
    hide LIST_FIELDS, IsList;
    CollectHas(keys, |keys|, check, issue);
    forall key { ListIs(key); }
    if key :| key in keys && key in summary && !summary[key].Arr? && issue == Issue(InvalidFieldType, Field(key), "") {
      var k :| 0 <= k < |keys| && keys[k] == key;
      assert issue in check(keys[k], k);
    }
  }

  ghost predicate NoObjectAt(summary: Fields, key: Key, issue: Issue) {
    exists index: nat :: Get(summary, key).Arr? && index < |Get(summary, key).items|
      && !Get(summary, key).items[index].Obj? && issue == Issue(InvalidItemType, Item(key, index), "")
  }

  lemma ObjectsHave(summary: Fields, key: Key, issue: Issue)
    ensures issue in ObjectIssues(summary, key) <==> NoObjectAt(summary, key, issue)
  {
    if Get(summary, key).Arr? {
      var items := Get(summary, key).items;
      var check := (item: Value, index: nat) => When(!item.Obj?, InvalidItemType, Item(key, index), "");
      CollectHas(items, |items|, check, issue);
      assert forall k :: 0 <= k < |items| ==> (issue in check(items[k], k) <==> !items[k].Obj? && issue == Issue(
        InvalidItemType, Item(key, k), ""));
    }
  }

  lemma ObjectListsHave(summary: Fields, issue: Issue)
    ensures issue in ObjectListIssues(summary) <==> NoObject(summary, issue)
  {
    hide ObjectIssues, Get, NoObjectAt;
    var check := (key: Key, _: nat) => ObjectIssues(summary, key);
    var keys := OBJECT_LIST_FIELDS;
    hide OBJECT_LIST_FIELDS, IsObjectList;
    CollectHas(keys, |keys|, check, issue);
    forall key { ObjectListIs(key); }
    forall key { ObjectsHave(summary, key, issue); }
    assert NoObject(summary, issue) <==> exists key :: key in keys && NoObjectAt(summary, key, issue) by {
      NoObjectSome(summary, issue);
    }
    if key :| key in keys && NoObjectAt(summary, key, issue) {
      var k :| 0 <= k < |keys| && keys[k] == key;
      assert issue in check(keys[k], k);
    }
  }

  lemma NoObjectSome(summary: Fields, issue: Issue)
    ensures NoObject(summary, issue) <==> exists key :: IsObjectList(key) && NoObjectAt(summary, key, issue)
  {
  }

  lemma FieldsHave(summary: Fields, section: Key, required: seq<Key>, code: IssueCode, issue: Issue)
    ensures issue in FieldIssues(summary, section, required, code) <==>
            exists index: nat, field :: index < |Rows(summary, section)| && field !in Rows(summary, section)[index]
              && field in required && issue == Issue(code, ItemField(section, index, field), "")
  {
    hide Rows;
    var rows := Rows(summary, section);
    var check := (item: Fields, index: nat) => MissingIssues(item, required, code, section, index);
    CollectHas(rows, |rows|, check, issue);
    forall item, index: nat
      ensures issue in check(item, index) <==>
        exists field ::
          field !in item && field in required && issue == Issue(code, ItemField(section, index, field), "")
    {
      MissingHas(item, required, code, section, index, issue);
    }
    if index: nat, field :|
      index < |rows| && field !in rows[index] && field in required
      && issue == Issue(code, ItemField(section, index, field), "")
    {
      assert issue in check(rows[index], index);
    }
  }

  lemma MissingHas(item: Fields, required: seq<Key>, code: IssueCode, section: Key, index: nat, issue: Issue)
    ensures issue in MissingIssues(item, required, code, section, index) <==>
      exists field :: field !in item && field in required && issue == Issue(code, ItemField(section, index, field), "")
  {
    var check := (field: Key, _: nat) => When(field !in item, code, ItemField(section, index, field), "");
    CollectHas(required, |required|, check, issue);
    if field :| field !in item && field in required && issue == Issue(code, ItemField(section, index, field), "") {
      var k :| 0 <= k < |required| && required[k] == field;
      assert issue in check(required[k], k);
    }
  }

  lemma RowsLack(summary: Fields, issue: Issue)
    ensures (|| issue in FieldIssues(summary, MeaningsKey, MEANING_FIELDS, MissingMeaningField)
             || issue in FieldIssues(summary, WordDecomposition, DECOMPOSITION_FIELDS, MissingDecompositionField)) <==>
            RowLacks(summary, issue)
  {
    hide Rows, MEANING_FIELDS, DECOMPOSITION_FIELDS, FieldIssues;
    FieldsHave(summary, MeaningsKey, MEANING_FIELDS, MissingMeaningField, issue);
    FieldsHave(summary, WordDecomposition, DECOMPOSITION_FIELDS, MissingDecompositionField, issue);
    forall key { MeaningFieldIs(key); }
    forall key { DecompositionFieldIs(key); }
  }

  /** The validator reports exactly what is so: each issue with its code, its path and the offending value. */
  lemma IssuesExact(normalize: string -> string, summary: Fields, digest: Fields, issue: Issue)
    ensures issue in SummaryIssues(normalize, summary, digest) <==> Reports(normalize, summary, digest, issue)
  {
    hide RequiredIssues, ListIssues, ObjectListIssues, FieldIssues, FormIssues, MeaningIssues, GrammarIssues,
         DecompositionIssues, UsageIssues, PhraseIssues, AllowedIssues, RowIssues, ContextOf, StringList, String, Rows,
         MissingField, NoList, NoObject, RowLacks, FormSays, SourceSays, MeaningSays, GrammarSays, DecompositionSays,
         UsageSays, PhraseSays, SomeRow, MEANING_FIELDS, DECOMPOSITION_FIELDS;
    var context := ContextOf(digest);
    RequiredHas(summary, issue);
    ListsHave(summary, issue);
    ObjectListsHave(summary, issue);
    RowsLack(summary, issue);
    FormsHave(summary, digest, issue);
    SourcesHave(summary, digest, issue);
    RowsReport(normalize, summary, digest, issue);
  }

  lemma RowsReport(normalize: string -> string, summary: Fields, digest: Fields, issue: Issue)
    ensures issue in MeaningListIssues(normalize, summary, ContextOf(digest)) <==>
            SomeRow(summary, MeaningsKey, (item: Fields, index: nat) =>
              MeaningSays(normalize, item, index, digest, issue))
    ensures issue in GrammarListIssues(summary, ContextOf(digest)) <==>
            SomeRow(summary, GrammarFunctions, (item: Fields, index: nat) => GrammarSays(item, index, digest, issue))
    ensures issue in DecompositionListIssues(summary, ContextOf(digest)) <==>
            SomeRow(summary, WordDecomposition, (item: Fields, index: nat) =>
              DecompositionSays(item, index, digest, issue))
    ensures issue in UsageListIssues(summary, ContextOf(digest)) <==>
            SomeRow(summary, ReaderUsages, (item: Fields, index: nat) => UsageSays(item, index, digest, issue))
    ensures issue in PhraseListIssues(summary, ContextOf(digest)) <==>
            SomeRow(summary, PhrasePairs, (item: Fields, index: nat) => PhraseSays(item, index, digest, issue))
  {
    hide MeaningIssues, GrammarIssues, DecompositionIssues, UsageIssues, PhraseIssues, RowIssues, ContextOf, Rows,
         MeaningSays, GrammarSays, DecompositionSays, UsageSays, PhraseSays, SomeRow;
    var context := ContextOf(digest);
    forall item, index: nat { MeaningHas(normalize, item, index, digest, issue); }
    forall item, index: nat { GrammarHas(item, index, digest, issue); }
    forall item, index: nat { DecompositionHas(item, index, digest, issue); }
    forall item, index: nat { UsageHas(item, index, digest, issue); }
    forall item, index: nat { PhraseHas(item, index, digest, issue); }
    RowsHave(summary, MeaningsKey, (item: Fields, index: nat) => MeaningIssues(normalize, item, index, context),
             (item: Fields, index: nat) => MeaningSays(normalize, item, index, digest, issue), issue);
    RowsHave(summary, GrammarFunctions, (item: Fields, index: nat) => GrammarIssues(item, index, context),
             (item: Fields, index: nat) => GrammarSays(item, index, digest, issue), issue);
    RowsHave(summary, WordDecomposition, (item: Fields, index: nat) => DecompositionIssues(item, index, context),
             (item: Fields, index: nat) => DecompositionSays(item, index, digest, issue), issue);
    RowsHave(summary, ReaderUsages, (item: Fields, index: nat) => UsageIssues(item, index, context),
             (item: Fields, index: nat) => UsageSays(item, index, digest, issue), issue);
    RowsHave(summary, PhrasePairs, (item: Fields, index: nat) => PhraseIssues(item, index, context),
             (item: Fields, index: nat) => PhraseSays(item, index, digest, issue), issue);
  }
}
