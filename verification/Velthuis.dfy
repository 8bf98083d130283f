/** Devanagari and Roman text to the Velthuis encoding of the Heritage platform. */
module Velthuis {
  import opened Outcomes

  const DEVANAGARI_START := 0x0900
  const DEVANAGARI_END := 0x097F
  const VIRAMA := 0x4D

  // ----- The tables; Devanagari entries are keyed by the low byte of the code point

  function Roma(code: int): Option<string> {
    match code
    case 7773 => Some(".rr")
    case 257 => Some("aa")
    case 299 => Some("ii")
    case 363 => Some("uu")
    case 7771 => Some(".r")
    case 7735 => Some(".l")
    case 7749 => Some("f")
    case 241 => Some("~n")
    case 7789 => Some(".t")
    case 7693 => Some(".d")
    case 7751 => Some(".n")
    case 7747 => Some(".m")
    case 7779 => Some(".s")
    case 347 => Some("z")
    case 7717 => Some(".h")
    case 7745 => Some("~~")
    case _ => None
  }

  function VowelTable(suffix: int): Option<string> {
    match suffix
    case 0x05 => Some("a")
    case 0x06 => Some("aa")
    case 0x07 => Some("i")
    case 0x08 => Some("ii")
    case 0x09 => Some("u")
    case 0x0A => Some("uu")
    case 0x0B => Some(".r")
    case 0x60 => Some(".rr")
    case 0x0C => Some(".l")
    case 0x0F => Some("e")
    case 0x10 => Some("ai")
    case 0x13 => Some("o")
    case 0x14 => Some("au")
    case 0x4D => Some("")
    case _ => None
  }

  function MatraTable(suffix: int): Option<string> {
    match suffix
    case 0x3E => Some("aa")
    case 0x3F => Some("i")
    case 0x40 => Some("ii")
    case 0x41 => Some("u")
    case 0x42 => Some("uu")
    case 0x43 => Some(".r")
    case 0x44 => Some(".rr")
    case 0x62 => Some(".l")
    case 0x47 => Some("e")
    case 0x48 => Some("ai")
    case 0x4B => Some("o")
    case 0x4C => Some("au")
    case _ => None
  }

  function ConsonantTable(suffix: int): Option<string> {
    match suffix
    case 0x15 => Some("k")
    case 0x16 => Some("kh")
    case 0x17 => Some("g")
    case 0x18 => Some("gh")
    case 0x19 => Some("f")
    case 0x1A => Some("c")
    case 0x1B => Some("ch")
    case 0x1C => Some("j")
    case 0x1D => Some("jh")
    case 0x1E => Some("~n")
    case 0x1F => Some(".t")
    case 0x20 => Some(".th")
    case 0x21 => Some(".d")
    case 0x22 => Some(".dh")
    case 0x23 => Some(".n")
    case 0x24 => Some("t")
    case 0x25 => Some("th")
    case 0x26 => Some("d")
    case 0x27 => Some("dh")
    case 0x28 => Some("n")
    case 0x2A => Some("p")
    case 0x2B => Some("ph")
    case 0x2C => Some("b")
    case 0x2D => Some("bh")
    case 0x2E => Some("m")
    case 0x2F => Some("y")
    case 0x30 => Some("r")
    case 0x32 => Some("l")
    case 0x35 => Some("v")
    case 0x36 => Some("z")
    case 0x37 => Some(".s")
    case 0x38 => Some("s")
    case 0x39 => Some("h")
    case _ => None
  }

  function SpecialTable(suffix: int): Option<string> {
    match suffix
    case 0x01 => Some("~~")
    case 0x02 => Some(".m")
    case 0x03 => Some(".h")
    case 0x3D => Some("'")
    case 0x64 => Some("|")
    case 0x65 => Some("||")
    case _ => None
  }

  function HexDigit(n: int): char
    requires 0 <= n < 16
  {
    "0123456789abcdef"[n]
  }

  /** The two hex digits of a low byte, as they stand in the text of the code point. */
  function HexText(suffix: int): string
    requires 0 <= suffix < 256
  {
    [HexDigit(suffix / 16), HexDigit(suffix % 16)]
  }

  // ----- The converters

  /** What the Devanagari converter remembers: a pending inherent "a", and whether a virama just passed. */
  datatype State = State(wasCons: bool, afterVirama: bool)

  datatype Output = Output(text: string, next: State)

  function Inherent(pending: bool, text: string): string {
    if pending then "a" + text else text
  }

  /** `_convert_deva_char` */
  function ConvertDevaChar(suffix: int, st: State): Output
    requires 0 <= suffix < 256
  {
    if VowelTable(suffix).Some? then
      if suffix == VIRAMA then Output("", State(true, true))
      else Output(Inherent(st.wasCons, VowelTable(suffix).value), State(false, false))
    else if MatraTable(suffix).Some? then
      Output(MatraTable(suffix).value, State(false, false))
    else if SpecialTable(suffix).Some? then
      Output(Inherent(st.wasCons, SpecialTable(suffix).value), State(false, false))
    else if ConsonantTable(suffix).Some? then
      Output(Inherent(!st.afterVirama && st.wasCons, ConsonantTable(suffix).value), State(true, false))
    else
      Output(Inherent(!st.afterVirama && st.wasCons, HexText(suffix)), State(true, false))
  }

  predicate IsDevanagari(c: char) {
    DEVANAGARI_START <= c as int <= DEVANAGARI_END
  }

  /** `_process_deva_character` */
  function ProcessDevaCharacter(c: char, st: State): Output {
    if IsDevanagari(c) then ConvertDevaChar(c as int - DEVANAGARI_START, st)
    else Output(Inherent(!st.afterVirama && st.wasCons, [c]), State(true, false))
  }

  /** The rest of a conversion, from a state on. */
  function ConvertFrom(text: string, st: State): string {
    if text == "" then
      if st.wasCons && !st.afterVirama then "a" else ""
    else
      var step := ProcessDevaCharacter(text[0], st);
      step.text + ConvertFrom(text[1..], step.next)
  }

  const START := State(false, false)

  lemma ConvertFromStep(output: string, text: string, i: nat, st: State)
    requires i < |text|
    ensures var step := ProcessDevaCharacter(text[i], st);
      output + ConvertFrom(text[i..], st) == (output + step.text) + ConvertFrom(text[i + 1..], step.next)
  {
    hide ProcessDevaCharacter;
    assert text[i..][0] == text[i] && text[i..][1..] == text[i + 1..];
  }

  /** `convert_deva_to_velthuis` */
  method ConvertDevaToVelthuis(text: string) returns (output: string)
    ensures output == ConvertFrom(text, START)
  {
    output := "";
    var wasCons, afterVirama := false, false;
    for i := 0 to |text|
      invariant output + ConvertFrom(text[i..], State(wasCons, afterVirama)) == ConvertFrom(text, START)
    {
      hide ProcessDevaCharacter, ConvertFrom;
      ConvertFromStep(output, text, i, State(wasCons, afterVirama));
      var step := ProcessDevaCharacter(text[i], State(wasCons, afterVirama));
      output := output + step.text;
      wasCons, afterVirama := step.next.wasCons, step.next.afterVirama;
    }
    assert text[|text|..] == "";
    if wasCons && !afterVirama {
      output := output + "a";
    }
  }

  function RomaChar(c: char): string {
    match Roma(c as int)
    case Some(text) => text
    case None => [c]
  }

  function ConvertRoma(text: string): string {
    if text == "" then "" else RomaChar(text[0]) + ConvertRoma(text[1..])
  }

  /** `convert_roma_to_velthuis` */
  method ConvertRomaToVelthuis(text: string) returns (output: string)
    ensures output == ConvertRoma(text)
  {
    output := "";
    for i := 0 to |text|
      invariant output + ConvertRoma(text[i..]) == ConvertRoma(text)
    {
      hide RomaChar;
      assert text[i..][0] == text[i] && text[i..][1..] == text[i + 1..];
      output := output + RomaChar(text[i]);
    }
    assert text[|text|..] == "";
  }

  predicate ContainsDevanagari(text: string) {
    exists i :: 0 <= i < |text| && IsDevanagari(text[i])
  }

  /** What `to_heritage_velthuis` computes. */
  function ToVelthuis(text: string): string {
    if ContainsDevanagari(text) then ConvertFrom(text, START) else ConvertRoma(text)
  }

  /** `to_heritage_velthuis` */
  method ToHeritageVelthuis(text: string) returns (output: string)
    ensures output == ToVelthuis(text)
  {
    if ContainsDevanagari(text) {
      output := ConvertDevaToVelthuis(text);
    } else {
      output := ConvertRomaToVelthuis(text);
    }
  }

  // ----- What the tables do not have, and where they apply

  /** Only characters of the Devanagari block switch converters. */
  lemma BlockDecides(text: string)
    ensures ContainsDevanagari(text) <==> exists i :: 0 <= i < |text| && 0x0900 <= text[i] as int <= 0x097F
  {
  }

  /** The value of a hex digit in lower case. */
  function HexValue(c: char): int {
    if '0' <= c <= '9' then c as int - '0' as int
    else if 'a' <= c <= 'f' then c as int - 'a' as int + 10
    else -1
  }

  lemma HexDigitValue(n: nat)
    requires n < 16
    ensures HexValue(HexDigit(n)) == n
  {
  }

  /** Two hex digits of this value. */
  ghost predicate HexOf(digits: string, value: int) {
    |digits| == 2 && HexValue(digits[0]) >= 0 && HexValue(digits[1]) >= 0
    && 16 * HexValue(digits[0]) + HexValue(digits[1]) == value
  }

  lemma HexTextReads(suffix: int)
    requires 0 <= suffix < 256
    ensures HexOf(HexText(suffix), suffix)
  {
    HexDigitValue(suffix / 16);
    HexDigitValue(suffix % 16);
  }

  /** A character of the block that no table has is written as the two hex digits of its place in the block. */
  lemma UntabledIsHex(c: char, st: State) returns (digits: string)
    requires 0x0900 <= c as int <= 0x097F
    requires var place := c as int - 0x0900;
      VowelTable(place).None? && MatraTable(place).None? && SpecialTable(place).None? && ConsonantTable(place).None?
    ensures HexOf(digits, c as int - 0x0900)
    ensures ProcessDevaCharacter(c, st) ==
      Output(if st.wasCons && !st.afterVirama then "a" + digits else digits, State(true, false))
  {
    hide VowelTable, MatraTable, SpecialTable, ConsonantTable, HexText, HexOf;
    var place := c as int - 0x0900;
    HexTextReads(place);
    digits := HexText(place);
  }

  /** Dandas are written as bars, and the virama writes nothing. */
  lemma DandasAndVirama(st: State)
    ensures ProcessDevaCharacter('\U{0964}', st).text == (if st.wasCons then "a|" else "|")
    ensures ProcessDevaCharacter('\U{0965}', st).text == (if st.wasCons then "a||" else "||")
    ensures ProcessDevaCharacter('\U{094D}', st) == Output("", State(true, true))
  {
    assert "a" + "|" == "a|" && "a" + "||" == "a||";
  }
}
