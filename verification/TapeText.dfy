/**
 The decimal texts that a tape member's 64-bit values are read from.
 */
module TapeText {
  import opened Common
  import opened Decimals
  import opened TapeJson

  // Blanks as strtoll skips them: tab to carriage return, and the space.
  predicate Blank(c: char) { c as int == 32 || 9 <= c as int <= 13 }

  ghost predicate Blanks(s: string) { forall p | 0 <= p < |s| :: Blank(s[p]) }

  ghost predicate Digits(s: string) { s != "" && forall p | 0 <= p < |s| :: Digit(s[p]) }

  // Blanks, a sign or none, and digits; what they stand for.
  ghost predicate Numeral(t: string, sp: string, sign: string, digits: string) {
    Blanks(sp) && (sign == "" || sign == "+" || sign == "-") && Digits(digits) && t == sp + (sign + digits)
  }

  function ValueOf(sign: string, digits: string): int
    requires forall p | 0 <= p < |digits| :: Digit(digits[p])
  {
    if sign == "-" then 0 - Decimal(digits) as int else Decimal(digits)
  }

  predicate Fits64(n: int) { -0x8000_0000_0000_0000 <= n < 0x8000_0000_0000_0000 }

  lemma {:induction false} SpacesSkipped(sp: string, u: string)
    requires Blanks(sp) && (u == "" || !Blank(u[0]))
    ensures SkipSpaces(sp + u) == u
  {
    var t := sp + u;
    if sp == "" {
      assert t == u;
    } else {
      assert t[0] == sp[0] && t[1..] == sp[1..] + u;
      SpacesSkipped(sp[1..], u);
    }
  }

  lemma {:induction false} SpacesFound(t: string) returns (sp: string)
    ensures Blanks(sp) && t == sp + SkipSpaces(t)
  {
    if t != "" && IsSpace(t[0]) {
      var more := SpacesFound(t[1..]);
      sp := [t[0]] + more;
      FrontJoins(t, more, SkipSpaces(t));
    } else {
      sp := "";
    }
  }

  lemma FrontJoins(t: string, more: string, u: string)
    requires t != "" && t[1..] == more + u
    ensures t == [t[0]] + more + u
  {
  }

  lemma SignedIs(sign: string, digits: string)
    requires (sign == "" || sign == "+" || sign == "-") && Digits(digits)
    ensures SignedDecimal(sign + digits) == if Fits64(ValueOf(sign, digits)) then Some(ValueOf(sign, digits)) else None
  {
    var u := sign + digits;
    DigitsAre(digits, 0, |digits|);
    if sign == "" {
      assert u == digits;
    } else {
      assert u[0] == sign[0] && u[1..] == digits;
    }
  }

  /** A text of blanks, a sign or none, and digits is read as its value when that fits
      64 bits, and refused when not. */
  lemma NumeralIsRead(t: string, sp: string, sign: string, digits: string)
    requires Numeral(t, sp, sign, digits)
    ensures Strtoll(t) == if Fits64(ValueOf(sign, digits)) then Some(ValueOf(sign, digits)) else None
  {
    var u := sign + digits;
    assert !Blank(u[0]);
    NoNul(t, sp, sign, digits);
    CStringOfPlain(t);
    SpacesSkipped(sp, u);
    SignedIs(sign, digits);
  }

  lemma NoNul(t: string, sp: string, sign: string, digits: string)
    requires Numeral(t, sp, sign, digits)
    ensures '\0' !in t && t != ""
  {
    forall p | 0 <= p < |t| ensures t[p] != '\0' {
      if p < |sp| {
        assert t[p] == sp[p];
      } else if p < |sp| + |sign| {
        assert t[p] == sign[p - |sp|];
      } else {
        assert t[p] == digits[p - |sp| - |sign|];
      }
    }
  }

  lemma SignAndDigits(u: string) returns (sign: string, digits: string)
    requires SignedDecimal(u).Some?
    ensures (sign == "" || sign == "+" || sign == "-") && Digits(digits) && u == sign + digits
  {
    if u[0] == '-' || u[0] == '+' {
      sign, digits := [u[0]], u[1..];
    } else {
      sign, digits := "", u;
    }
    assert DigitsEnd(digits, 0) == |digits|;
  }

  /** And no other text without a NUL is read. */
  lemma OnlyNumerals(t: string)
    requires '\0' !in t && Strtoll(t).Some?
    ensures exists sp, sign, digits :: Numeral(t, sp, sign, digits)
  {
    CStringOfPlain(t);
    var sp := SpacesFound(t);
    var sign, digits := SignAndDigits(SkipSpaces(t));
    assert Numeral(t, sp, sign, digits);
  }

  /** What stands behind a NUL is not looked at; a text that starts with one is 0. */
  lemma NulEnds(t: string, rest: string)
    requires '\0' !in t
    ensures Strtoll(t + "\0" + rest) == if t == "" then Some(0) else Strtoll(t)
  {
    CutAtNul(t, rest);
    CStringOfPlain(t);
  }

  lemma {:induction false} CutAtNul(t: string, rest: string)
    requires '\0' !in t
    ensures CString(t + "\0" + rest) == t
  {
    var u := t + "\0" + rest;
    if t != "" {
      assert u[0] == t[0] && u[1..] == t[1..] + "\0" + rest;
      CutAtNul(t[1..], rest);
    }
  }
}
