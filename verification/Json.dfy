/** JSON values as the briefing code sees them, and its total coercions from them. */
module Json {

  /** Object keys: those the briefing code names, and any other string. */
  datatype Key =
    | Analysis | Author | BucketId | Buckets | Caveats | CitationPath | Confidence | ConfidenceLabel
    | CrossRefs | DictionarySources | Display | DisplayGloss | DisplayText | EncounterHash
    | EncounterSchemaVersion | Evidence | Examples | Form | Forms | FosterDisplay | Gloss | GlossLang
    | GrammarFunctions | Header | Items | Label | Language | Lemma | LexemeAnchors | MeaningsKey
    | Morphology | NormalizedGloss | Note | Phrase | PhrasePairs | Query | ReaderSearch | ReaderUsages
    | Request | SchemaVersion | Short | Snippet | Source | SourceDetailSummary | SourceDictionary
    | SourceGlosses | SourceGlossLanguage | SourceLang | SourceLangs | SourceRef | SourceRefs | SourceTool
    | Sources | Summary | Text | Title | ToolFilter | TranslationId | TranslationSources
    | TranslationStatus | Warnings | Witnesses | WitnessCount | WordDecomposition | WorkId
    | OtherKey(name: string)

  type Fields = map<Key, Value>

  datatype Value =
    | Null
    | Bool(truth: bool)
    | Int(number: int)
    | Float(real_: real)
    | Str(text: string)
    | Arr(items: seq<Value>)
    | Obj(fields: map<Key, Value>)

  /** `item.get(key)` */
  function Get(fields: Fields, key: Key): Value {
    if key in fields then fields[key] else Null
  }

  /** Python's `value or other`: whether `value` counts as true. */
  predicate Truthy(value: Value) {
    match value
    case Null => false
    case Bool(truth) => truth
    case Int(number) => number != 0
    case Float(number) => number != 0.0
    case Str(text) => text != ""
    case Arr(items) => items != []
    case Obj(fields) => fields != map[]
  }

  // ----- str.strip()

  predicate IsSpace(c: char) {
    var code := c as int;
    || 0x09 <= code <= 0x0D || 0x1C <= code <= 0x20
    || code == 0x85 || code == 0xA0 || code == 0x1680
    || 0x2000 <= code <= 0x200A
    || code == 0x2028 || code == 0x2029 || code == 0x202F || code == 0x205F || code == 0x3000
  }

  function StripLeft(s: string): string {
    if s != "" && IsSpace(s[0]) then StripLeft(s[1..]) else s
  }

  function StripRight(s: string): string {
    if s != "" && IsSpace(s[|s| - 1]) then StripRight(s[..|s| - 1]) else s
  }

  function Strip(s: string): string {
    StripRight(StripLeft(s))
  }

  predicate Trimmed(s: string) {
    s != "" ==> !IsSpace(s[0]) && !IsSpace(s[|s| - 1])
  }

  lemma {:induction false} StripRightTrims(s: string)
    requires s != "" ==> !IsSpace(s[0])
    ensures Trimmed(StripRight(s))
  {
    if s != "" && IsSpace(s[|s| - 1]) { StripRightTrims(s[..|s| - 1]); }
  }

  lemma {:induction false} StripLeftTrims(s: string)
    ensures StripLeft(s) != "" ==> !IsSpace(StripLeft(s)[0])
  {
    if s != "" && IsSpace(s[0]) { StripLeftTrims(s[1..]); }
  }

  lemma StripTrims(s: string)
    ensures Trimmed(Strip(s))
  {
    StripLeftTrims(s);
    StripRightTrims(StripLeft(s));
  }

  lemma TrimmedStrips(s: string)
    requires Trimmed(s)
    ensures Strip(s) == s
  {
  }

  // ----- Coercions

  function Mapping(value: Value): Fields {
    if value.Obj? then value.fields else map[]
  }

  function Objects(items: seq<Value>): seq<Fields> {
    if items == [] then []
    else (if items[0].Obj? then [items[0].fields] else []) + Objects(items[1..])
  }

  /** The objects of a JSON list, or nothing. */
  function MappingList(value: Value): seq<Fields> {
    if value.Arr? then Objects(value.items) else []
  }

  function String(value: Value): (s: string)
    ensures Trimmed(s)
  {
    if value.Str? then StripTrims(value.text); Strip(value.text) else ""
  }

  function Strings(items: seq<Value>): (r: seq<string>)
    ensures forall s :: s in r ==> s != "" && Trimmed(s)
  {
    if items == [] then []
    else (if String(items[0]) != "" then [String(items[0])] else []) + Strings(items[1..])
  }

  function StringList(value: Value): (r: seq<string>)
    ensures forall s :: s in r ==> s != "" && Trimmed(s)
  {
    if value.Arr? then Strings(value.items) else []
  }

  function IntOf(value: Value): int {
    match value
    case Bool(truth) => if truth then 1 else 0
    case Int(number) => number
    case _ => 0
  }

  // ----- Building lists, and reading them back

  function StrList(values: seq<string>): Value {
    Arr(seq(|values|, i requires 0 <= i < |values| => Str(values[i])))
  }

  function ObjList(rows: seq<Fields>): Value {
    Arr(seq(|rows|, i requires 0 <= i < |rows| => Obj(rows[i])))
  }

  lemma {:induction false} ObjectsOfRows(rows: seq<Fields>)
    ensures MappingList(ObjList(rows)) == rows
  {
    if rows != [] {
      assert ObjList(rows).items[1..] == ObjList(rows[1..]).items;
      ObjectsOfRows(rows[1..]);
    }
  }

  lemma StringOfTrimmed(s: string)
    requires Trimmed(s)
    ensures String(Str(s)) == s
  {
    TrimmedStrips(s);
  }

  /** A list read back loses its empty strings and nothing else, if its strings are trimmed. */
  lemma {:induction false} StringsOfTrimmed(values: seq<string>)
    requires forall s :: s in values ==> Trimmed(s)
    ensures forall s :: s in StringList(StrList(values)) <==> s in values && s != ""
    ensures (forall s :: s in values ==> s != "") ==> StringList(StrList(values)) == values
  {
    if values != [] {
      assert StrList(values).items[1..] == StrList(values[1..]).items;
      StringOfTrimmed(values[0]);
      StringsOfTrimmed(values[1..]);
      assert forall s :: s in values <==> s == values[0] || s in values[1..];
    }
  }
}
