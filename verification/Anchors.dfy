/** The scoped anchors of the claims layer, as texts that are printed and read back. */
module Anchors {
  import opened Outcomes
  import opened Splitting

  const HASH: char := '#'
  const COLON: char := ':'
  const ARROW: char := '\U{2192}'

  /** How surfaces and parts of speech are normalized. */
  datatype Normalizer = Normalizer(surface: string -> string, pos: string -> string)

  // ----- Printing

  function FormAnchor(n: Normalizer, surface: string): string {
    "form:" + n.surface(surface)
  }

  function LexAnchor(n: Normalizer, word: string, pos: Option<string>): string {
    if pos.Some? && pos.value != "" then "lex:" + (n.surface(word) + [HASH] + n.pos(pos.value))
    else "lex:" + n.surface(word)
  }

  function Unscoped(lex: string): string {
    if "lex:" <= lex then lex[4..] else lex
  }

  function SenseAnchor(lex: string, senseKey: string): string {
    "sense:lex:" + (Unscoped(lex) + [HASH] + senseKey)
  }

  function ScopedForm(n: Normalizer, form: string): string {
    if "form:" <= form then form else FormAnchor(n, form)
  }

  function ScopedLex(n: Normalizer, lex: string): string {
    if "lex:" <= lex then lex else LexAnchor(n, lex, None)
  }

  function InterpAnchor(n: Normalizer, form: string, lex: string): string {
    "interp:" + (ScopedForm(n, form) + [ARROW] + ScopedLex(n, lex))
  }

  // ----- Reading

  datatype Parsed =
    | Form(surface: string)
    | Lex(lexeme: string, pos: Option<string>)
    | Sense(lex: string, senseKey: string)
    | Interp(form: string, lexPart: string)

  datatype Invalid = MissingScope | NoLexInSense | NoSenseKey | NoArrow | UnknownScope

  /** `parse_anchor` */
  function ParseAnchor(anchor: string): Attempt<Parsed, Invalid> {
    if !Has(anchor, COLON) then Raised(MissingScope)
    else
      var scope := Head(anchor, COLON);
      var rest := Tail(anchor, COLON);
      if scope == "form" then Done(Form(rest))
      else if scope == "lex" then
        Done(if Has(rest, HASH) then Lex(Head(rest, HASH), Some(Tail(rest, HASH))) else Lex(rest, None))
      else if scope == "sense" then
        if !("lex:" <= rest) then Raised(NoLexInSense)
        else if !Has(rest[4..], HASH) then Raised(NoSenseKey)
        else Done(Sense(Front(rest[4..], HASH), Rear(rest[4..], HASH)))
      else if scope == "interp" then
        if !Has(rest, ARROW) then Raised(NoArrow) else Done(Interp(Head(rest, ARROW), Tail(rest, ARROW)))
      else Raised(UnknownScope)
  }

  /** `extract_lemma` */
  function ExtractLemma(anchor: string): Attempt<Option<string>, Invalid> {
    var parsed := ParseAnchor(anchor);
    if parsed.Raised? then Raised(parsed.error)
    else Done(match parsed.value
      case Form(_) => None
      case Lex(lexeme, _) => Some(lexeme)
      case Sense(lex, _) => Some(Head(lex, HASH))
      case Interp(_, lexPart) => Some(Head(Unscoped(lexPart), HASH)))
  }

  lemma Scoped(scope: string, rest: string)
    requires !Has(scope, COLON)
    ensures var anchor := scope + ":" + rest;
      Has(anchor, COLON) && Head(anchor, COLON) == scope && Tail(anchor, COLON) == rest
  {
    HeadOfJoined(scope, rest, COLON);
  }

  // ----- Round trips

  lemma FormReadsBack(n: Normalizer, surface: string)
    ensures ParseAnchor(FormAnchor(n, surface)) == Done(Form(n.surface(surface)))
  {
    hide Head, Tail;
    Scoped("form", n.surface(surface));
    assert FormAnchor(n, surface) == "form" + ":" + n.surface(surface);
  }

  function PosOf(n: Normalizer, pos: Option<string>): Option<string> {
    if pos.Some? && pos.value != "" then Some(n.pos(pos.value)) else None
  }

  /** A lexeme reads back exactly if its normalized lemma has no `#`. */
  lemma LexReadsBack(n: Normalizer, word: string, pos: Option<string>)
    ensures ParseAnchor(LexAnchor(n, word, pos)) == Done(Lex(n.surface(word), PosOf(n, pos))) <==>
      !Has(n.surface(word), HASH)
    ensures ExtractLemma(LexAnchor(n, word, pos)) == Done(Some(n.surface(word))) <==> !Has(n.surface(word), HASH)
  {
    hide Head, Tail;
    var rest := LexAnchor(n, word, pos)[4..];
    Scoped("lex", rest);
    assert LexAnchor(n, word, pos) == "lex" + ":" + rest;
    if !Has(n.surface(word), HASH) && PosOf(n, pos).Some? {
      HeadOfJoined(n.surface(word), n.pos(pos.value), HASH);
    }
  }

  lemma SenseRest(lex: string, senseKey: string)
    ensures ParseAnchor(SenseAnchor(lex, senseKey))
         == var rest := Unscoped(lex) + [HASH] + senseKey; Done(Sense(Front(rest, HASH), Rear(rest, HASH)))
  {
    hide Head, Tail, Front, Rear;
    var rest := Unscoped(lex) + [HASH] + senseKey;
    Scoped("sense", "lex:" + rest);
    assert SenseAnchor(lex, senseKey) == "sense" + ":" + ("lex:" + rest);
    assert ("lex:" + rest)[4..] == rest && "lex:" <= "lex:" + rest;
    assert rest[|Unscoped(lex)|] == HASH;
  }

  /** A sense reads back exactly if its key has no `#`. */
  lemma SenseReadsBack(lex: string, senseKey: string)
    ensures ParseAnchor(SenseAnchor(lex, senseKey)) == Done(Sense(Unscoped(lex), senseKey)) <==> !Has(senseKey, HASH)
  {
    hide Front, Rear, Head, Tail;
    var rest := Unscoped(lex) + [HASH] + senseKey;
    SenseRest(lex, senseKey);
    assert rest[|Unscoped(lex)|] == HASH;
    RearIsFree(rest, HASH);
    if !Has(senseKey, HASH) {
      FrontOfJoined(Unscoped(lex), senseKey, HASH);
    }
  }

  /** Whatever its key, a sense gives back the lemma of its lexeme exactly if that has no `#`. */
  lemma SenseKeepsLemma(n: Normalizer, word: string, pos: Option<string>, senseKey: string)
    ensures ExtractLemma(SenseAnchor(LexAnchor(n, word, pos), senseKey)) == Done(Some(n.surface(word))) <==>
      !Has(n.surface(word), HASH)
  {
    hide Front, Rear, Head, Tail;
    var lex := Unscoped(LexAnchor(n, word, pos));
    SenseRest(LexAnchor(n, word, pos), senseKey);
    var rest := lex + [HASH] + senseKey;
    assert rest[|lex|] == HASH;
    if !Has(n.surface(word), HASH) {
      var more := if PosOf(n, pos).Some? then n.pos(pos.value) + [HASH] + senseKey else senseKey;
      HeadBeforeLast(n.surface(word), more, rest);
    }
  }

  /** Cutting at the last separator and then at the first leaves what stood before the first. */
  lemma HeadBeforeLast(word: string, more: string, rest: string)
    requires !Has(word, HASH) && rest == word + [HASH] + more
    ensures Has(rest, HASH) && Head(Front(rest, HASH), HASH) == word
  {
    hide Front, Rear, Head, Tail;
    assert rest[|word|] == HASH;
    RearIsFree(rest, HASH);
    if Has(more, HASH) {
      RearIsFree(more, HASH);
      assert rest == (word + [HASH] + Front(more, HASH)) + [HASH] + Rear(more, HASH);
      FrontOfJoined(word + [HASH] + Front(more, HASH), Rear(more, HASH), HASH);
      HeadOfJoined(word, Front(more, HASH), HASH);
    } else {
      FrontOfJoined(word, more, HASH);
      HeadWithout(word, HASH);
    }
  }

  /** An interpretation reads back exactly if its form has no arrow. */
  lemma InterpReadsBack(n: Normalizer, form: string, lex: string)
    ensures ParseAnchor(InterpAnchor(n, form, lex)) == Done(Interp(ScopedForm(n, form), ScopedLex(n, lex)))
       <==> !Has(ScopedForm(n, form), ARROW)
  {
    hide Head, Tail, ScopedForm, ScopedLex;
    var rest := ScopedForm(n, form) + [ARROW] + ScopedLex(n, lex);
    Scoped("interp", rest);
    assert InterpAnchor(n, form, lex) == "interp" + ":" + rest;
    assert rest[|ScopedForm(n, form)|] == ARROW;
    if !Has(ScopedForm(n, form), ARROW) {
      HeadOfJoined(ScopedForm(n, form), ScopedLex(n, lex), ARROW);
    }
  }

  /** Without an arrow in the form, the lemma is read from the lexeme. */
  lemma PlainInterpLemma(n: Normalizer, form: string, word: string, pos: Option<string>)
    requires !Has(ScopedForm(n, form), ARROW)
    ensures ExtractLemma(InterpAnchor(n, form, LexAnchor(n, word, pos))) == Done(Some(n.surface(word)))
       <==> !Has(n.surface(word), HASH)
  {
    hide Head, Tail, ScopedForm;
    var lex := LexAnchor(n, word, pos);
    InterpReadsBack(n, form, lex);
    assert "lex:" <= lex && ScopedLex(n, lex) == lex;
    if !Has(n.surface(word), HASH) {
      if PosOf(n, pos).Some? {
        HeadOfJoined(n.surface(word), n.pos(pos.value), HASH);
        assert Unscoped(lex) == n.surface(word) + [HASH] + n.pos(pos.value);
      } else {
        HeadWithout(n.surface(word), HASH);
        assert Unscoped(lex) == n.surface(word);
      }
    }
  }

  /** The first separator of a text is the first of a longer one. */
  lemma {:induction false} HeadOfLonger(s: string, more: string, c: char)
    requires Has(s, c)
    ensures Has(s + more, c) && Head(s + more, c) == Head(s, c) && Tail(s + more, c) == Tail(s, c) + more
  {
    assert s + more == [s[0]] + (s[1..] + more);
    assert (s + more)[0] == s[0];
    if s[0] != c {
      HeadOfLonger(s[1..], more, c);
    }
  }

  lemma {:induction false} HeadPastPart(s: string, more: string, c: char)
    requires !Has(s, c)
    ensures Head(s + more, c) == s + Head(more, c)
  {
    if s == "" {
      assert s + more == more;
    } else {
      assert (s + more)[1..] == s[1..] + more;
      HeadPastPart(s[1..], more, c);
    }
  }

  lemma {:induction false} HeadIsPrefix(s: string, head: string, c: char)
    ensures Has(s, c) && Head(s, c) == head <==> !Has(head, c) && head + [c] <= s
  {
    if Has(s, c) {
      PrefixToHead(s, c);
    }
    if !Has(head, c) && head + [c] <= s {
      assert s == head + [c] + s[|head| + 1..];
      HeadOfJoined(head, s[|head| + 1..], c);
    }
  }

  lemma {:induction false} PrefixToHead(s: string, c: char)
    requires Has(s, c)
    ensures Head(s, c) + [c] <= s
  {
    if s[0] != c {
      PrefixToHead(s[1..], c);
    }
  }

  /** With an arrow in the form, the lemma is read from what stands behind that arrow. */
  lemma CutInterpLemma(n: Normalizer, form: string, word: string, pos: Option<string>)
    requires Has(ScopedForm(n, form), ARROW)
    ensures var part := Unscoped(Tail(ScopedForm(n, form), ARROW));
      ExtractLemma(InterpAnchor(n, form, LexAnchor(n, word, pos))) == Done(Some(n.surface(word))) <==>
        !Has(n.surface(word), HASH) && n.surface(word) + [HASH] <= part
  {
    hide Head, Tail, ScopedForm;
    var lex := LexAnchor(n, word, pos);
    var scoped := ScopedForm(n, form);
    var part := Unscoped(Tail(scoped, ARROW));
    var rest := scoped + [ARROW] + lex;
    assert "lex:" <= lex && ScopedLex(n, lex) == lex;
    Scoped("interp", rest);
    assert InterpAnchor(n, form, lex) == "interp" + ":" + rest;
    assert rest == scoped + ([ARROW] + lex);
    HeadOfLonger(scoped, [ARROW] + lex, ARROW);
    UnscopedLonger(Tail(scoped, ARROW), lex);
    HeadIsPrefix(part, n.surface(word), HASH);
    if Has(part, HASH) {
      HeadOfLonger(part, [ARROW] + lex, HASH);
    } else {
      HeadPastPart(part, [ARROW] + lex, HASH);
      LongerThanWord(n, word, pos);
    }
  }

  lemma UnscopedLonger(s: string, lex: string)
    ensures Unscoped(s + ([ARROW] + lex)) == Unscoped(s) + ([ARROW] + lex)
  {
    var longer := s + ([ARROW] + lex);
    if |s| < 4 {
      assert longer[|s|] == ARROW;
    } else {
      assert longer[..4] == s[..4];
    }
  }

  /** What is read up to the first `#` of a lexeme behind an arrow is longer than the lemma, or lacks its `#`. */
  lemma LongerThanWord(n: Normalizer, word: string, pos: Option<string>)
    ensures !Has(n.surface(word), HASH) ==> |Head([ARROW] + LexAnchor(n, word, pos), HASH)| > |n.surface(word)|
  {
    hide Head;
    var normalized := n.surface(word);
    if !Has(normalized, HASH) {
      var ahead := [ARROW] + ("lex:" + normalized);
      assert !Has(ahead, HASH);
      HeadWithout(ahead, HASH);
      if PosOf(n, pos).Some? {
        assert [ARROW] + LexAnchor(n, word, pos) == ahead + [HASH] + n.pos(pos.value);
        HeadOfJoined(ahead, n.pos(pos.value), HASH);
      }
    }
  }

  /**
   * An interpretation gives the lemma of its lexeme back exactly if the lemma has no `#` and either the form has no
   * arrow, or what stands behind its first arrow happens to start with the lemma and a `#` itself.
   */
  lemma InterpKeepsLemma(n: Normalizer, form: string, word: string, pos: Option<string>)
    ensures var scoped := ScopedForm(n, form);
      ExtractLemma(InterpAnchor(n, form, LexAnchor(n, word, pos))) == Done(Some(n.surface(word))) <==>
        && !Has(n.surface(word), HASH)
        && (Has(scoped, ARROW) ==> n.surface(word) + [HASH] <= Unscoped(Tail(scoped, ARROW)))
  {
    hide Head, Tail, ScopedForm, ExtractLemma, InterpAnchor, LexAnchor;
    if Has(ScopedForm(n, form), ARROW) {
      CutInterpLemma(n, form, word, pos);
    } else {
      PlainInterpLemma(n, form, word, pos);
    }
  }

  // ----- The texts of the anchors

  lemma UnscopedText(id: string)
    ensures Unscoped("lex:" + id) == id
    ensures !("lex:" <= id) ==> Unscoped(id) == id
  {
    assert "lex:" <= "lex:" + id && ("lex:" + id)[4..] == id;
  }

  /** A sense names its lexeme, with or without the prefix given, and its key. */
  lemma SenseText(id: string, key: string)
    ensures SenseAnchor("lex:" + id, key) == "sense:lex:" + id + "#" + key
    ensures !("lex:" <= id) ==> SenseAnchor(id, key) == "sense:lex:" + id + "#" + key
  {
    hide Unscoped;
    UnscopedText(id);
    var prefix := "sense:lex:";
    assert prefix + (id + [HASH] + key) == prefix + id + "#" + key;
  }

  lemma ScopedText(n: Normalizer, word: string)
    ensures ScopedForm(n, "form:" + word) == "form:" + word && ScopedLex(n, "lex:" + word) == "lex:" + word
    ensures !("form:" <= word) ==> ScopedForm(n, word) == "form:" + n.surface(word)
    ensures !("lex:" <= word) ==> ScopedLex(n, word) == "lex:" + n.surface(word)
  {
    assert "form:" <= "form:" + word && "lex:" <= "lex:" + word;
  }

  /** An interpretation names its form and its lexeme, with or without the prefixes given, around an arrow. */
  lemma InterpText(n: Normalizer, form: string, lex: string)
    ensures InterpAnchor(n, "form:" + form, "lex:" + lex) == "interp:" + ("form:" + form + "\U{2192}" + ("lex:" + lex))
    ensures !("form:" <= form) && !("lex:" <= lex) ==>
      InterpAnchor(n, form, lex) == "interp:" + ("form:" + n.surface(form) + "\U{2192}" + ("lex:" + n.surface(lex)))
  {
    hide ScopedForm, ScopedLex;
    ScopedText(n, form);
    ScopedText(n, lex);
    assert [ARROW] == "\U{2192}";
  }
}
