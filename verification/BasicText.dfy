/**
 Characters, keywords and number runs of tools/make-bas.py and
 tools/nextbasic_detok.py. Letters, digits and spaces are those of ASCII.
 */
module BasicText {
  import opened Common
  import opened Decimals

  predicate Letter(c: char) { 'A' <= c <= 'Z' || 'a' <= c <= 'z' }

  predicate Alnum(c: char) { Digit(c) || Letter(c) }

  predicate Printable(c: char) { ' ' <= c <= '~' }

  predicate EightBit(s: string) { forall i | 0 <= i < |s| :: s[i] as int < 256 }

  // The characters' codes.
  function Bytes(s: string): (b: seq<byte>)
    requires EightBit(s)
    ensures |b| == |s| && forall i | 0 <= i < |b| :: b[i] == s[i] as int
  {
    seq(|s|, i requires 0 <= i < |s| => s[i] as byte)
  }

  predicate AllPrintable(s: string) { forall i | 0 <= i < |s| :: Printable(s[i]) }

  function UpperOf(c: char): char { if 'a' <= c <= 'z' then (c as int - 32) as char else c }

  function Upper(s: string): (u: string)
    ensures |u| == |s| && forall i | 0 <= i < |s| :: u[i] == UpperOf(s[i])
  {
    seq(|s|, i requires 0 <= i < |s| => UpperOf(s[i]))
  }

  datatype Keyword = Keyword(name: string, token: byte)

  const COUNT := 14

  // The token subset, longest names first.
  function Keywords(k: nat): Keyword
    requires k < COUNT
  {
    match k
    case 0 => Keyword("BORDER", 0xE7)
    case 1 => Keyword("PRINT", 0xF5)
    case 2 => Keyword("CODE", 0xAF)
    case 3 => Keyword("PEEK", 0xBE)
    case 4 => Keyword("NEXT", 0xF3)
    case 5 => Keyword("POKE", 0xF4)
    case 6 => Keyword("SAVE", 0xF8)
    case 7 => Keyword("OUT", 0xDF)
    case 8 => Keyword("REM", REM)
    case 9 => Keyword("FOR", 0xEB)
    case 10 => Keyword("LET", 0xF1)
    case 11 => Keyword("RUN", 0xF7)
    case 12 => Keyword("IN", 0xBF)
    case _ => Keyword("TO", 0xCC)
  }

  // The detokeniser's names for 0x81..0xFF, in quarters.
  function NextNames(b: byte): string
    requires 0x81 <= b <= 0xA2
  {
    match b
    case 0x81 => "TIME" case 0x82 => "PRIVATE" case 0x83 => "IFELSE" case 0x84 => "ENDIF"
    case 0x85 => "EXIT" case 0x86 => "REF" case 0x87 => "PEEK$" case 0x88 => "REG" case 0x89 => "DPOKE"
    case 0x8A => "DPEEK" case 0x8B => "MOD" case 0x8C => "<<" case 0x8D => ">>" case 0x8E => "UNTIL"
    case 0x8F => "ERROR" case 0x90 => "ON" case 0x91 => "DEFPROC" case 0x92 => "ENDPROC" case 0x93 => "PROC"
    case 0x94 => "LOCAL" case 0x95 => "DRIVER" case 0x96 => "WHILE" case 0x97 => "REPEAT"
    case 0x98 => "ELSE" case 0x99 => "REMOUNT" case 0x9A => "BANK" case 0x9B => "TILE" case 0x9C => "LAYER"
    case 0x9D => "PALETTE" case 0x9E => "SPRITE" case 0x9F => "PWD" case 0xA0 => "CD" case 0xA1 => "MKDIR"
    case _ => "RMDIR"
  }

  function SpectrumNames(b: byte): string
    requires 0xA3 <= b <= 0xC0
  {
    match b
    case 0xA3 => "SPECTRUM" case 0xA4 => "PLAY" case 0xA5 => "RND" case 0xA6 => "INKEY$" case 0xA7 => "PI"
    case 0xA8 => "FN" case 0xA9 => "POINT" case 0xAA => "SCREEN$" case 0xAB => "ATTR" case 0xAC => "AT"
    case 0xAD => "TAB" case 0xAE => "VAL$" case 0xAF => "CODE" case 0xB0 => "VAL" case 0xB1 => "LEN"
    case 0xB2 => "SIN" case 0xB3 => "COS" case 0xB4 => "TAN" case 0xB5 => "ASN" case 0xB6 => "ACS"
    case 0xB7 => "ATN" case 0xB8 => "LN" case 0xB9 => "EXP" case 0xBA => "INT" case 0xBB => "SQR"
    case 0xBC => "SGN" case 0xBD => "ABS" case 0xBE => "PEEK" case 0xBF => "IN" case _ => "USR"
  }

  function OperatorNames(b: byte): string
    requires 0xC1 <= b <= 0xDF
  {
    match b
    case 0xC1 => "STR$" case 0xC2 => "CHR$" case 0xC3 => "NOT" case 0xC4 => "BIN" case 0xC5 => "OR"
    case 0xC6 => "AND" case 0xC7 => "<=" case 0xC8 => ">=" case 0xC9 => "<>" case 0xCA => "LINE"
    case 0xCB => "THEN" case 0xCC => "TO" case 0xCD => "STEP" case 0xCE => "DEF FN" case 0xCF => "CAT"
    case 0xD0 => "FORMAT" case 0xD1 => "MOVE" case 0xD2 => "ERASE" case 0xD3 => "OPEN #"
    case 0xD4 => "CLOSE #" case 0xD5 => "MERGE" case 0xD6 => "VERIFY" case 0xD7 => "BEEP"
    case 0xD8 => "CIRCLE" case 0xD9 => "INK" case 0xDA => "PAPER" case 0xDB => "FLASH" case 0xDC => "BRIGHT"
    case 0xDD => "INVERSE" case 0xDE => "OVER" case _ => "OUT"
  }

  function CommandNames(b: byte): string
    requires 0xE0 <= b <= 0xFF
  {
    match b
    case 0xE0 => "LPRINT" case 0xE1 => "LLIST" case 0xE2 => "STOP" case 0xE3 => "READ" case 0xE4 => "DATA"
    case 0xE5 => "RESTORE" case 0xE6 => "NEW" case 0xE7 => "BORDER" case 0xE8 => "CONTINUE"
    case 0xE9 => "DIM" case 0xEA => "REM" case 0xEB => "FOR" case 0xEC => "GOTO" case 0xED => "GOSUB"
    case 0xEE => "INPUT" case 0xEF => "LOAD" case 0xF0 => "LIST" case 0xF1 => "LET" case 0xF2 => "PAUSE"
    case 0xF3 => "NEXT" case 0xF4 => "POKE" case 0xF5 => "PRINT" case 0xF6 => "PLOT" case 0xF7 => "RUN"
    case 0xF8 => "SAVE" case 0xF9 => "RANDOMIZE" case 0xFA => "IF" case 0xFB => "CLS" case 0xFC => "DRAW"
    case 0xFD => "CLEAR" case 0xFE => "RETURN" case _ => "COPY"
  }

  // What the detokeniser prints for a token byte.
  function NameOf(b: byte): string
    requires 0x81 <= b
  {
    if b <= 0xA2 then NextNames(b) else if b <= 0xC0 then SpectrumNames(b)
    else if b <= 0xDF then OperatorNames(b) else CommandNames(b)
  }

  const REM: byte := 0xEA

  // Is keyword number k spelt at i, in any case, as a whole word?
  predicate SpeltAt(text: string, i: nat, k: nat)
    requires k < COUNT
  {
    var name := Keywords(k).name;
    && i + |name| <= |text|
    && Upper(text[i..i + |name|]) == name
    && (i == 0 || !Alnum(text[i - 1]))
    && (i + |name| >= |text| || !Alnum(text[i + |name|]))
  }

  // Which keywords are spelt at i?
  function SpeltHere(text: string, i: nat): (r: seq<bool>)
    ensures |r| == COUNT && forall k | 0 <= k < COUNT :: r[k] == SpeltAt(text, i, k)
  {
    seq(COUNT, k requires 0 <= k < COUNT => SpeltAt(text, i, k))
  }

  // The first true place from k on.
  function FirstFrom(s: seq<bool>, k: nat): (r: nat)
    requires k <= |s|
    ensures k <= r <= |s|
    ensures r < |s| ==> s[r]
    decreases |s| - k
  {
    if k == |s| || s[k] then k else FirstFrom(s, k + 1)
  }

  // The first keyword that is spelt at i; COUNT for none.
  function KeywordAt(text: string, i: nat): (r: nat)
    ensures r <= COUNT
    ensures r < COUNT ==> SpeltAt(text, i, r)
  {
    FirstFrom(SpeltHere(text, i), 0)
  }

  // The two tools' token tables agree on every keyword of the first.
  lemma KeywordFacts(k: nat)
    requires k < COUNT
    ensures var w := Keywords(k);
            && 0x81 <= w.token && NameOf(w.token) == w.name
            && 2 <= |w.name| && (w.token == REM <==> w.name == "REM")
  {
  }

  lemma KeywordSize(k: nat)
    requires k < COUNT
    ensures 2 <= |Keywords(k).name|
  {
  }

  lemma KeywordLetters(k: nat, p: nat)
    requires k < COUNT && p < |Keywords(k).name|
    ensures Letter(Keywords(k).name[p])
  {
  }

  predicate NumberRun(s: string) { forall i | 0 <= i < |s| :: Digit(s[i]) || s[i] == '.' }

  // Past the digits and dots of a number.
  function NumEnd(text: string, i: nat): (j: nat)
    requires i <= |text|
    ensures i <= j <= |text|
    ensures NumberRun(text[i..j])
    ensures j < |text| ==> !(Digit(text[j]) || text[j] == '.')
    decreases |text| - i
  {
    if i < |text| && (Digit(text[i]) || text[i] == '.') then
      var j := NumEnd(text, i + 1);
      assert text[i..j] == [text[i]] + text[i + 1..j];
      j
    else i
  }

  // Two lower-case hexadecimal digits.
  function Hex2(b: byte): string {
    var digits := "0123456789abcdef";
    [digits[b / 16], digits[b % 16]]
  }
}
