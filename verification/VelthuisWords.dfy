/**
 * Words over the phonemes of the tables, their two spellings, and what the converter makes of each.
 * A phoneme is named by the low byte of its Devanagari letter.
 */
module VelthuisWords {
  import opened Outcomes
  import opened Velthuis

  datatype Phoneme = Vowel(code: int) | Consonant(code: int) | Sign(code: int) | Plain(c: char)

  type Word = seq<Phoneme>

  const SHORT_A := 0x05

  predicate ValidPhoneme(p: Phoneme) {
    match p
    case Vowel(code) => VowelTable(code).Some? && code != VIRAMA
    case Consonant(code) => ConsonantTable(code).Some?
    case Sign(code) => SpecialTable(code).Some?
    case Plain(c) => !IsDevanagari(c) && Roma(c as int).None?
  }

  predicate ValidWord(w: Word) {
    forall i :: 0 <= i < |w| ==> ValidPhoneme(w[i])
  }

  // ----- The Velthuis spelling

  function Spelled(p: Phoneme): string
    requires ValidPhoneme(p)
  {
    match p
    case Vowel(code) => VowelTable(code).value
    case Consonant(code) => ConsonantTable(code).value
    case Sign(code) => SpecialTable(code).value
    case Plain(c) => [c]
  }

  function Spelling(w: Word): string
    requires ValidWord(w)
  {
    if w == [] then "" else Spelled(w[0]) + Spelling(w[1..])
  }

  // ----- The Roman spelling, from the transliteration standard (IAST)

  function IastVowel(code: int): seq<int> {
    match code
    case 0x05 => [0x61]
    case 0x06 => [0x101]
    case 0x07 => [0x69]
    case 0x08 => [0x12B]
    case 0x09 => [0x75]
    case 0x0A => [0x16B]
    case 0x0B => [0x1E5B]
    case 0x60 => [0x1E5D]
    case 0x0C => [0x1E37]
    case 0x0F => [0x65]
    case 0x10 => [0x61, 0x69]
    case 0x13 => [0x6F]
    case _ => [0x61, 0x75]
  }

  function IastSign(code: int): seq<int> {
    match code
    case 0x01 => [0x1E41]
    case 0x02 => [0x1E43]
    case 0x03 => [0x1E25]
    case 0x3D => [0x27]
    case 0x64 => [0x7C]
    case _ => [0x7C, 0x7C]
  }

  function IastConsonant(code: int): seq<int> {
    match code
    case 0x15 => [0x6B]
    case 0x16 => [0x6B, 0x68]
    case 0x17 => [0x67]
    case 0x18 => [0x67, 0x68]
    case 0x19 => [0x1E45]
    case 0x1A => [0x63]
    case 0x1B => [0x63, 0x68]
    case 0x1C => [0x6A]
    case 0x1D => [0x6A, 0x68]
    case 0x1E => [0xF1]
    case 0x1F => [0x1E6D]
    case 0x20 => [0x1E6D, 0x68]
    case 0x21 => [0x1E0D]
    case 0x22 => [0x1E0D, 0x68]
    case 0x23 => [0x1E47]
    case 0x24 => [0x74]
    case 0x25 => [0x74, 0x68]
    case 0x26 => [0x64]
    case 0x27 => [0x64, 0x68]
    case 0x28 => [0x6E]
    case 0x2A => [0x70]
    case 0x2B => [0x70, 0x68]
    case 0x2C => [0x62]
    case 0x2D => [0x62, 0x68]
    case 0x2E => [0x6D]
    case 0x2F => [0x79]
    case 0x30 => [0x72]
    case 0x32 => [0x6C]
    case 0x35 => [0x76]
    case 0x36 => [0x15B]
    case 0x37 => [0x1E63]
    case 0x38 => [0x73]
    case _ => [0x68]
  }

  predicate Codes(codes: seq<int>) {
    forall i :: 0 <= i < |codes| ==> 0 <= codes[i] < 0xD800 && !(DEVANAGARI_START <= codes[i] <= DEVANAGARI_END)
  }

  function TextOf(codes: seq<int>): string
    requires Codes(codes)
  {
    if codes == [] then "" else [codes[0] as char] + TextOf(codes[1..])
  }

  function IastCodes(p: Phoneme): (codes: seq<int>)
    requires !p.Plain?
    ensures Codes(codes) && 1 <= |codes| <= 2
  {
    match p
    case Vowel(code) => IastVowel(code)
    case Consonant(code) => IastConsonant(code)
    case Sign(code) => IastSign(code)
  }

  function IastOf(p: Phoneme): string {
    if p.Plain? then [p.c] else TextOf(IastCodes(p))
  }

  function Iast(w: Word): string {
    if w == [] then "" else IastOf(w[0]) + Iast(w[1..])
  }

  lemma {:induction false} ConvertRomaJoins(s: string, t: string)
    ensures ConvertRoma(s + t) == ConvertRoma(s) + ConvertRoma(t)
  {
    hide RomaChar;
    if s == "" {
      assert s + t == t;
    } else {
      assert (s + t)[0] == s[0] && (s + t)[1..] == s[1..] + t;
      ConvertRomaJoins(s[1..], t);
    }
  }

  function Romanized(code: int): string
    requires 0 <= code < 0xD800
  {
    RomaChar(code as char)
  }

  lemma ConvertRomaCodes(codes: seq<int>)
    requires Codes(codes) && 1 <= |codes| <= 2
    ensures |codes| == 1 ==> ConvertRoma(TextOf(codes)) == Romanized(codes[0])
    ensures |codes| == 2 ==> ConvertRoma(TextOf(codes)) == Romanized(codes[0]) + Romanized(codes[1])
  {
    hide RomaChar;
    assert ConvertRoma("") == "";
    var text := TextOf(codes);
    if |codes| == 1 {
      assert codes[1..] == [];
      assert TextOf(codes[1..]) == "";
      assert text == [codes[0] as char];
      assert text[1..] == "";
    } else {
      assert codes[1..][1..] == [];
      assert TextOf(codes[1..]) == [codes[1] as char];
      assert text == [codes[0] as char, codes[1] as char];
      assert text[1..][1..] == "";
      assert text[1..] == [codes[1] as char];
    }
  }

  lemma RomaSpellsVowel(code: int)
    requires ValidPhoneme(Vowel(code))
    ensures ConvertRoma(IastOf(Vowel(code))) == Spelled(Vowel(code))
  {
    hide ConvertRoma, TextOf;
    ConvertRomaCodes(IastVowel(code));
  }

  lemma RomaSpellsSign(code: int)
    requires ValidPhoneme(Sign(code))
    ensures ConvertRoma(IastOf(Sign(code))) == Spelled(Sign(code))
  {
    hide ConvertRoma, TextOf;
    ConvertRomaCodes(IastSign(code));
  }

  lemma RomaSpellsConsonant(code: int)
    requires ValidPhoneme(Consonant(code))
    ensures ConvertRoma(IastOf(Consonant(code))) == Spelled(Consonant(code))
  {
    hide ConvertRoma, TextOf;
    ConvertRomaCodes(IastConsonant(code));
  }

  lemma RomaSpellsPhoneme(p: Phoneme)
    requires ValidPhoneme(p)
    ensures ConvertRoma(IastOf(p)) == Spelled(p)
  {
    match p
    case Vowel(code) => RomaSpellsVowel(code);
    case Consonant(code) => RomaSpellsConsonant(code);
    case Sign(code) => RomaSpellsSign(code);
    case Plain(c) =>
      assert [c][1..] == "";
      assert ConvertRoma("") == "";
  }

  /** The Roman converter spells every word, without exception. */
  lemma {:induction false} RomaSpells(w: Word)
    requires ValidWord(w)
    ensures ConvertRoma(Iast(w)) == Spelling(w)
  {
    hide ValidPhoneme, Spelled, IastOf;
    if w != [] {
      RomaSpellsPhoneme(w[0]);
      RomaSpells(w[1..]);
      ConvertRomaJoins(IastOf(w[0]), Iast(w[1..]));
    }
  }

  // ----- The Devanagari spelling, from the Unicode code chart

  predicate LowByte(code: int) {
    0 <= code < 128
  }

  function Letter(code: int): char
    requires LowByte(code)
  {
    (DEVANAGARI_START + code) as char
  }

  /** The vowel sign that follows a consonant, in place of the independent letter. */
  function MatraOf(code: int): int {
    if code == 0x60 then 0x44 else if code == 0x0C then 0x62 else code + 0x38
  }

  function FirstLetter(p: Phoneme): string
    requires ValidPhoneme(p)
  {
    if p.Plain? then [p.c] else [Letter(p.code)]
  }

  predicate StartsWithVowel(w: Word) {
    w != [] && w[0].Vowel?
  }

  predicate StartsWithSign(w: Word) {
    w != [] && w[0].Sign?
  }

  /**
   * Devanagari: a consonant carries an inherent "a"; another vowel after it is a vowel sign,
   * and no vowel after it is a virama.
   */
  function Devanagari(w: Word): string
    requires ValidWord(w)
  {
    if w == [] then ""
    else if !w[0].Consonant? then FirstLetter(w[0]) + Devanagari(w[1..])
    else if !StartsWithVowel(w[1..]) then FirstLetter(w[0]) + ([Letter(VIRAMA)] + Devanagari(w[1..]))
    else if w[1].code == SHORT_A then FirstLetter(w[0]) + Devanagari(w[2..])
    else FirstLetter(w[0]) + ([Letter(MatraOf(w[1].code))] + Devanagari(w[2..]))
  }

  // ----- What the converter makes of it

  /** An "a" the converter adds to the spelling after the first phoneme of `w`. */
  predicate Stray(w: Word)
    requires w != []
  {
    w[0].Plain? || (w[0].Consonant? && StartsWithSign(w[1..]))
  }

  function Strayed(w: Word): string
    requires ValidWord(w)
  {
    if w == [] then ""
    else Spelled(w[0]) + Inherent(Stray(w), Strayed(w[1..]))
  }

  lemma OneStray(w: Word)
    requires ValidWord(w) && w != []
    ensures Strayed(w) == Spelled(w[0]) + Inherent(Stray(w), Strayed(w[1..]))
  {
  }

  predicate Clean(w: Word) {
    forall i :: 0 <= i < |w| ==> !w[i].Plain? && !(w[i].Consonant? && i + 1 < |w| && w[i + 1].Sign?)
  }

  const BARE := State(true, true)
  const PENDING := State(true, false)

  lemma ConvertHead(c: char, rest: string, st: State)
    ensures ConvertFrom([c] + rest, st)
         == ProcessDevaCharacter(c, st).text + ConvertFrom(rest, ProcessDevaCharacter(c, st).next)
  {
    hide ProcessDevaCharacter;
    assert ([c] + rest)[1..] == rest;
  }

  /** What a vowel letter or a sign does: it pays a pending "a", and leaves none. */
  predicate Pays(p: Phoneme, st: State)
    requires ValidPhoneme(p)
  {
    ProcessDevaCharacter(FirstLetter(p)[0], st) == Output(Inherent(st.wasCons, Spelled(p)), START)
  }

  /** What a consonant or a plain character does: it pays, unless after a virama, and leaves another. */
  predicate Owes(p: Phoneme, st: State)
    requires ValidPhoneme(p)
  {
    ProcessDevaCharacter(FirstLetter(p)[0], st) == Output(Inherent(!st.afterVirama && st.wasCons, Spelled(p)), PENDING)
  }

  lemma VowelStep(p: Phoneme, st: State)
    requires ValidPhoneme(p) && p.Vowel?
    ensures Pays(p, st)
  {
  }

  lemma SignStep(p: Phoneme, st: State)
    requires ValidPhoneme(p) && p.Sign?
    ensures Pays(p, st)
  {
  }

  lemma ConsonantRange(code: int)
    ensures ConsonantTable(code).Some? ==> 0x15 <= code <= 0x39
  {
  }

  lemma OtherRanges(code: int)
    requires 0x15 <= code <= 0x39
    ensures VowelTable(code).None? && MatraTable(code).None? && SpecialTable(code).None?
  {
  }

  lemma ConsonantStep(p: Phoneme, st: State)
    requires ValidPhoneme(p) && p.Consonant?
    ensures Owes(p, st)
  {
    hide VowelTable, MatraTable, SpecialTable, ConsonantTable;
    ConsonantRange(p.code);
    OtherRanges(p.code);
  }

  lemma PlainStep(p: Phoneme, st: State)
    requires ValidPhoneme(p) && p.Plain?
    ensures Owes(p, st)
  {
  }

  /** The step of each kind of letter. */
  lemma LetterSteps(p: Phoneme, st: State)
    requires ValidPhoneme(p)
    ensures if p.Vowel? || p.Sign? then Pays(p, st) else Owes(p, st)
  {
    hide ValidPhoneme, Pays, Owes;
    match p
    case Vowel(_) => VowelStep(p, st);
    case Sign(_) => SignStep(p, st);
    case Consonant(_) => ConsonantStep(p, st);
    case Plain(_) => PlainStep(p, st);
  }

  lemma MatraStep(code: int)
    requires ValidPhoneme(Vowel(code)) && code != SHORT_A
    ensures LowByte(MatraOf(code))
    ensures ProcessDevaCharacter(Letter(MatraOf(code)), PENDING) == Output(Spelled(Vowel(code)), START)
  {
  }

  lemma ViramaStep()
    ensures ProcessDevaCharacter(Letter(VIRAMA), PENDING) == Output("", BARE)
  {
  }

  /** Whether an "a" is due before the spelling of `w`, when the converter comes to it in state `st`. */
  predicate Due(w: Word, st: State) {
    st == PENDING || (st == BARE && StartsWithSign(w))
  }

  /** Exactly what the converter writes for the rest of a word, from any state it can be in there. */
  lemma {:induction false} ConvertsRest(w: Word, st: State)
    requires ValidWord(w)
    requires st in {START, PENDING, BARE} && (st == BARE ==> !StartsWithVowel(w))
    ensures ConvertFrom(Devanagari(w), st) == Inherent(Due(w, st), Strayed(w))
    decreases |w|
  {
    hide ProcessDevaCharacter, ValidPhoneme, Spelled, ConvertFrom, FirstLetter;
    if w == [] {
      assert ConvertFrom("", st) == Inherent(Due(w, st), "") by { ConvertsNothing(st); }
    } else if w[0].Consonant? {
      ConvertsConsonant(w, st);
    } else {
      OneLetter(w[0]);
      LetterSteps(w[0], st);
      ConvertHead(FirstLetter(w[0])[0], Devanagari(w[1..]), st);
      ConvertsRest(w[1..], if w[0].Plain? then PENDING else START);
    }
  }

  lemma ConvertsNothing(st: State)
    requires st in {START, PENDING, BARE}
    ensures ConvertFrom("", st) == Inherent(st == PENDING, "")
  {
    assert "a" + "" == "a";
  }

  lemma OneLetter(p: Phoneme)
    requires ValidPhoneme(p)
    ensures |FirstLetter(p)| == 1
    ensures FirstLetter(p) == [FirstLetter(p)[0]]
  {
  }

  lemma {:induction false} ConvertsConsonant(w: Word, st: State)
    requires ValidWord(w) && w != [] && w[0].Consonant?
    requires st in {START, PENDING, BARE}
    ensures ConvertFrom(Devanagari(w), st) == Inherent(Due(w, st), Strayed(w))
    decreases |w|, 1
  {
    hide ProcessDevaCharacter, Spelled, ConvertFrom, FirstLetter, ValidPhoneme, StartsWithVowel, AfterConsonant;
    hide Devanagari, Strayed;
    OneStray(w);
    OneLetter(w[0]);
    LetterSteps(w[0], st);
    ConvertsAfterConsonant(w);
    ConvertHead(FirstLetter(w[0])[0], AfterConsonant(w), st);
    DevanagariConsonant(w);
    InherentJoins(Due(w, st), Spelled(w[0]), Inherent(Stray(w), Strayed(w[1..])));
  }

  lemma InherentJoins(pending: bool, s: string, t: string)
    ensures Inherent(pending, s) + t == Inherent(pending, s + t)
  {
    assert ("a" + s) + t == "a" + (s + t);
  }

  /** What follows the letter of a consonant: a virama, nothing, or a vowel sign, and the rest of the word. */
  function AfterConsonant(w: Word): string
    requires ValidWord(w) && w != [] && w[0].Consonant?
  {
    if !StartsWithVowel(w[1..]) then [Letter(VIRAMA)] + Devanagari(w[1..])
    else if w[1].code == SHORT_A then Devanagari(w[2..])
    else [Letter(MatraOf(w[1].code))] + Devanagari(w[2..])
  }

  lemma DevanagariConsonant(w: Word)
    requires ValidWord(w) && w != [] && w[0].Consonant?
    ensures Devanagari(w) == FirstLetter(w[0]) + AfterConsonant(w)
  {
    hide FirstLetter, ValidPhoneme;
  }

  lemma {:induction false} ConvertsAfterConsonant(w: Word)
    requires ValidWord(w) && w != [] && w[0].Consonant?
    ensures ConvertFrom(AfterConsonant(w), PENDING) == Inherent(StartsWithSign(w[1..]), Strayed(w[1..]))
    decreases |w|, 0
  {
    hide ProcessDevaCharacter, Spelled, ConvertFrom, FirstLetter, ValidPhoneme, Devanagari;
    var rest := w[1..];
    if !StartsWithVowel(rest) {
      hide Strayed;
      ViramaStep();
      ConvertHead(Letter(VIRAMA), Devanagari(rest), PENDING);
      ConvertsRest(rest, BARE);
    } else {
      assert rest[0] == w[1] && rest[1..] == w[2..];
      if w[1].code == SHORT_A {
        SpelledShortA();
        ConvertsRest(w[2..], PENDING);
      } else {
        MatraStep(w[1].code);
        ConvertHead(Letter(MatraOf(w[1].code)), Devanagari(w[2..]), PENDING);
        ConvertsRest(w[2..], START);
      }
    }
  }

  lemma SpelledShortA()
    ensures ValidPhoneme(Vowel(SHORT_A)) && Spelled(Vowel(SHORT_A)) == "a"
  {
  }

  lemma {:induction false} StrayLength(w: Word)
    requires ValidWord(w)
    ensures |Strayed(w)| >= |Spelling(w)|
    ensures Strayed(w) == Spelling(w) <==> |Strayed(w)| == |Spelling(w)|
    ensures Strayed(w) == Spelling(w) <==> Clean(w)
  {
    hide ValidPhoneme, Spelled;
    if w != [] {
      var rest := w[1..];
      StrayLength(rest);
      assert Clean(w) ==> Clean(rest) && !Stray(w) by {
        forall i | 0 <= i < |rest| && Clean(w)
          ensures !rest[i].Plain? && !(rest[i].Consonant? && i + 1 < |rest| && rest[i + 1].Sign?)
        {
          assert rest[i] == w[i + 1];
        }
      }
      assert Clean(rest) && !Stray(w) ==> Clean(w) by {
        forall i | 0 <= i < |w| && Clean(rest) && !Stray(w)
          ensures !w[i].Plain? && !(w[i].Consonant? && i + 1 < |w| && w[i + 1].Sign?)
        {
          if i > 0 { assert rest[i - 1] == w[i]; }
        }
      }
    }
  }

  /**
   * The Devanagari converter spells exactly the words without a plain character and without a
   * consonant directly before a sign; in all others it adds an "a" after each of those.
   */
  lemma DevanagariSpells(w: Word)
    requires ValidWord(w)
    ensures ConvertFrom(Devanagari(w), START) == Strayed(w)
    ensures ConvertFrom(Devanagari(w), START) == Spelling(w) <==> Clean(w)
  {
    hide ConvertFrom, Devanagari, Strayed, Spelling, Clean, ValidPhoneme;
    ConvertsRest(w, START);
    StrayLength(w);
  }

  // ----- The entry point, which tells the scripts apart by itself

  predicate AllPlain(w: Word) {
    forall i :: 0 <= i < |w| ==> w[i].Plain?
  }

  lemma ContainsJoins(s: string, t: string)
    ensures ContainsDevanagari(s + t) <==> ContainsDevanagari(s) || ContainsDevanagari(t)
  {
    hide IsDevanagari;
    if ContainsDevanagari(s + t) {
      var i :| 0 <= i < |s + t| && IsDevanagari((s + t)[i]);
      assert if i < |s| then IsDevanagari(s[i]) else IsDevanagari(t[i - |s|]);
    }
    if ContainsDevanagari(s) {
      var i :| 0 <= i < |s| && IsDevanagari(s[i]);
      assert IsDevanagari((s + t)[i]);
    }
    if ContainsDevanagari(t) {
      var i :| 0 <= i < |t| && IsDevanagari(t[i]);
      assert IsDevanagari((s + t)[|s| + i]);
    }
  }

  lemma {:induction false} CodesAreRoman(codes: seq<int>)
    requires Codes(codes)
    ensures !ContainsDevanagari(TextOf(codes))
  {
    if codes != [] {
      CodesAreRoman(codes[1..]);
      ContainsJoins([codes[0] as char], TextOf(codes[1..]));
    }
  }

  lemma {:induction false} IastIsRoman(w: Word)
    requires ValidWord(w)
    ensures !ContainsDevanagari(Iast(w))
  {
    if w != [] {
      hide ContainsDevanagari, TextOf, Codes;
      IastIsRoman(w[1..]);
      ContainsJoins(IastOf(w[0]), Iast(w[1..]));
      if w[0].Plain? {
        PlainIsRoman(w[0]);
      } else {
        CodesAreRoman(IastCodes(w[0]));
      }
    }
  }

  lemma PlainIsRoman(p: Phoneme)
    requires ValidPhoneme(p) && p.Plain?
    ensures !ContainsDevanagari([p.c])
  {
  }

  lemma FirstLetterScript(p: Phoneme)
    requires ValidPhoneme(p)
    ensures ContainsDevanagari(FirstLetter(p)) <==> !p.Plain?
  {
    assert !p.Plain? ==> IsDevanagari(FirstLetter(p)[0]);
  }

  lemma {:induction false} DevanagariIsDetected(w: Word)
    requires ValidWord(w)
    ensures ContainsDevanagari(Devanagari(w)) <==> !AllPlain(w)
    ensures AllPlain(w) ==> Devanagari(w) == Iast(w)
  {
    if w != [] {
      hide ContainsDevanagari, ValidPhoneme;
      var rest := w[1..];
      FirstLetterScript(w[0]);
      if w[0].Plain? {
        DevanagariIsDetected(rest);
        ContainsJoins(FirstLetter(w[0]), Devanagari(rest));
        assert AllPlain(w) <==> AllPlain(rest) by {
          assert AllPlain(rest) ==> forall i :: 1 <= i < |w| ==> w[i] == rest[i - 1] && w[i].Plain?;
          assert AllPlain(w) ==> forall i :: 0 <= i < |rest| ==> rest[i] == w[i + 1];
        }
      } else {
        DetectedAtFirst(w);
      }
    }
  }

  lemma DetectedAtFirst(w: Word)
    requires ValidWord(w) && w != [] && !w[0].Plain?
    ensures ContainsDevanagari(Devanagari(w))
  {
    hide ContainsDevanagari, ValidPhoneme, FirstLetter;
    FirstLetterScript(w[0]);
    if w[0].Consonant? {
      hide Devanagari, AfterConsonant;
      DevanagariConsonant(w);
      ContainsJoins(FirstLetter(w[0]), AfterConsonant(w));
    } else {
      ContainsJoins(FirstLetter(w[0]), Devanagari(w[1..]));
    }
  }

  /**
   * Either script in, the same encoding out: exactly for the clean words, and for the words with no
   * Devanagari letter in them at all.
   */
  lemma ScriptsAgree(w: Word)
    requires ValidWord(w)
    ensures ToVelthuis(Iast(w)) == Spelling(w)
    ensures ToVelthuis(Devanagari(w)) == ToVelthuis(Iast(w)) <==> Clean(w) || AllPlain(w)
  {
    hide ContainsDevanagari, ConvertFrom, ConvertRoma, Devanagari, Iast, Spelling, Clean, AllPlain, ValidPhoneme;
    IastIsRoman(w);
    RomaSpells(w);
    DevanagariIsDetected(w);
    DevanagariSpells(w);
  }

  // ----- Texts on which the two scripts part

  const KA := Consonant(0x15)
  const SPACE := Plain(' ')

  /** A bare consonant before a nasal sign reads as if its vowel had been written. */
  lemma BareConsonantBeforeSign()
    ensures ConvertFrom(Devanagari([KA, Sign(0x02)]), START) == "ka.m"
    ensures ConvertFrom(Devanagari([KA, Vowel(SHORT_A), Sign(0x02)]), START) == "ka.m"
    ensures Spelling([KA, Sign(0x02)]) == "k.m"
  {
    hide ConvertFrom, Devanagari;
    var bare, full := [KA, Sign(0x02)], [KA, Vowel(SHORT_A), Sign(0x02)];
    assert bare[1..] == [Sign(0x02)] && full[1..] == [Vowel(SHORT_A), Sign(0x02)] && full[1..][1..] == [Sign(0x02)];
    assert [Sign(0x02)][1..] == [];
    DevanagariSpells(bare);
    DevanagariSpells(full);
  }

  /** After a space, and at the end after one, an "a" appears that nothing spells. */
  lemma StrayAfterSpace()
    ensures ConvertFrom(Devanagari([KA, SPACE, KA]), START) == "k ak"
    ensures ConvertFrom(Devanagari([SPACE]), START) == " a"
    ensures Spelling([KA, SPACE, KA]) == "k k"
  {
    hide ConvertFrom, Devanagari;
    var two := [KA, SPACE, KA];
    assert two[1..] == [SPACE, KA] && two[1..][1..] == [KA] && [KA][1..] == [] && [SPACE][1..] == [];
    assert Strayed([KA]) == "k" && Spelling([KA]) == "k";
    OneStray([SPACE, KA]);
    OneStray(two);
    assert Spelling([SPACE, KA]) == " k";
    DevanagariSpells(two);
    DevanagariSpells([SPACE]);
  }
}
