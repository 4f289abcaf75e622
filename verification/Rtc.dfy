/**
 parse_rtc_datetime of src/core/emulator_config.h: six fields of digits, checked
 against the calendar, and the time they make.
 */
module Rtc {
  import opened Common
  import opened Decimals
  import opened Calendar

  datatype Tm = Tm(year: int, mon: nat, mday: nat, hour: nat, min: nat, sec: nat, wday: nat)

  // May c follow field i?
  predicate Separates(c: char, i: nat)
    requires i < 5
  {
    if i < 2 then c == '-' else if i == 2 then c == 'T' || c == ' ' else c == ':'
  }

  datatype Field = Field(value: nat, next: nat)

  // Field i at pos and where the next one starts; None for no digits, a value
  // over INT_MAX, or a wrong separator.
  function FieldAt(s: string, pos: nat, i: nat): (r: Option<Field>)
    requires pos <= |s| && i < 6
    ensures r.Some? ==> pos < r.value.next <= |s| && r.value.value <= INT_MAX
  {
    var end := DigitsEnd(s, pos);
    if end == pos || Decimal(s[pos..end]) > INT_MAX then None
    else if i == 5 then Some(Field(Decimal(s[pos..end]), end))
    else if end == |s| || !Separates(s[end], i) then None
    else Some(Field(Decimal(s[pos..end]), end + 1))
  }

  // The values of fields i..5 from pos on.
  function FieldsFrom(s: string, pos: nat, i: nat): (r: Option<seq<nat>>)
    requires pos <= |s| && i <= 6
    ensures r.Some? ==> |r.value| == 6 - i
    decreases 6 - i
  {
    if i == 6 then (if pos == |s| then Some([]) else None)
    else
      match FieldAt(s, pos, i)
      case None => None
      case Some(f) => Prepend([f.value], FieldsFrom(s, f.next, i + 1))
  }

  predicate RealTime(v: seq<nat>)
    requires |v| == 6
  {
    RealDate(Date(v[0], v[1], v[2])) && v[3] <= 23 && v[4] <= 59 && v[5] <= 59
  }

  function TmOf(v: seq<nat>): Tm
    requires |v| == 6 && RealTime(v)
  {
    Tm(v[0] - 1900, v[1] - 1, v[2], v[3], v[4], v[5], Weekday(Date(v[0], v[1], v[2])))
  }

  function Parsed(s: string): Option<Tm> {
    var v := FieldsFrom(s, 0, 0);
    if v.Some? && RealTime(v.value) then Some(TmOf(v.value)) else None
  }

  // One pass of the loop below: the scan over the digits and the checks after it.
  method ReadField(s: string, pos: nat, i: nat) returns (r: Option<Field>)
    requires pos <= |s| && i < 6
    ensures r == FieldAt(s, pos, i)
  {
    var end := pos;
    while end < |s| && Digit(s[end])
      invariant pos <= end <= |s| && DigitsEnd(s, pos) == DigitsEnd(s, end)
    {
      end := end + 1;
    }
    if end == pos {
      return None;
    }
    var n := Decimal(s[pos..end]);
    if n > INT_MAX {
      return None;
    }
    if i < 5 {
      if end == |s| || !Separates(s[end], i) {
        return None;
      }
      end := end + 1;
    }
    r := Some(Field(n, end));
  }

  method SplitFields(s: string) returns (r: Option<seq<nat>>)
    ensures r == FieldsFrom(s, 0, 0)
  {
    var v := new nat[6](_ => 0);
    var pos: nat := 0;
    PrependNothing(FieldsFrom(s, 0, 0));
    assert v[..0] == [];
    for i := 0 to 6
      invariant pos <= |s| && FieldsFrom(s, 0, 0) == Prepend(v[..i], FieldsFrom(s, pos, i))
    {
      var f := ReadField(s, pos, i);
      if f.None? {
        return None;
      }
      ghost var done := v[..i];
      v[i] := f.value.value;
      pos := f.value.next;
      PrependTwice(done, [v[i]], FieldsFrom(s, pos, i + 1));
      assert v[..i + 1] == done + [v[i]];
    }
    if pos != |s| {
      return None;
    }
    assert v[..6] + [] == v[..];
    r := Some(v[..]);
  }

  method ParseRtcDatetime(s: string) returns (r: Option<Tm>)
    ensures r == Parsed(s)
  {
    var v := SplitFields(s);
    if v.None? || !RealTime(v.value) {
      return None;
    }
    r := Some(TmOf(v.value));
  }

  // Fields written out with their separators, from field i on.
  predicate DigitRun(f: string) { f != "" && forall p | 0 <= p < |f| :: Digit(f[p]) }

  ghost predicate AllRuns(f: seq<string>) { |f| == 6 && forall i | 0 <= i < 6 :: DigitRun(f[i]) }

  function SeparatorOf(i: nat, mid: char): char { if i < 2 then '-' else if i == 2 then mid else ':' }

  function Written(f: seq<string>, i: nat, mid: char): string
    requires |f| == 6 && i <= 6
    decreases 6 - i
  {
    if i == 6 then ""
    else if i == 5 then f[5]
    else f[i] + [SeparatorOf(i, mid)] + Written(f, i + 1, mid)
  }

  ghost function Values(f: seq<string>, i: nat): (v: seq<nat>)
    requires AllRuns(f) && i <= 6
    ensures |v| == 6 - i && forall k | i <= k < 6 :: v[k - i] == Decimal(f[k])
    decreases 6 - i
  {
    if i == 6 then [] else [Decimal(f[i])] + Values(f, i + 1)
  }

  // The first field of a text stands from pos up to its separator or the end.
  lemma FieldStands(s: string, pos: nat, f: seq<string>, i: nat, mid: char)
    requires AllRuns(f) && i < 6 && pos <= |s| && s[pos..] == Written(f, i, mid) && (mid == 'T' || mid == ' ')
    ensures var end := pos + |f[i]|;
            && end <= |s| && DigitsEnd(s, pos) == end && s[pos..end] == f[i]
            && (if i == 5 then end == |s|
                else end < |s| && Separates(s[end], i) && s[end + 1..] == Written(f, i + 1, mid))
  {
    var end := pos + |f[i]|;
    var w := Written(f, i, mid);
    assert |w| >= |f[i]| && w[..|f[i]|] == f[i];
    assert s[pos..end] == s[pos..][..|f[i]|] == f[i];
    assert forall p | pos <= p < end :: s[p] == f[i][p - pos];
    if i < 5 {
      assert s[end] == s[pos..][|f[i]|] == SeparatorOf(i, mid);
      assert s[end + 1..] == s[pos..][|f[i]| + 1..] == Written(f, i + 1, mid);
    }
    DigitsAre(s, pos, end);
  }

  lemma FieldIsTaken(s: string, pos: nat, f: seq<string>, i: nat, mid: char)
    requires AllRuns(f) && i < 6 && pos <= |s| && s[pos..] == Written(f, i, mid) && (mid == 'T' || mid == ' ')
    requires Decimal(f[i]) <= INT_MAX
    ensures var next := pos + |f[i]| + if i < 5 then 1 else 0;
            && FieldAt(s, pos, i) == Some(Field(Decimal(f[i]), next)) && next <= |s|
            && s[next..] == Written(f, i + 1, mid)
  {
    var run := f[i];
    assert DigitRun(run);
    FieldStands(s, pos, f, i, mid);
    if i == 5 {
      LastFieldIsTaken(s, pos, run);
    } else {
      FieldEnds(s, pos, i, run);
    }
  }

  lemma LastFieldIsTaken(s: string, pos: nat, run: string)
    requires DigitRun(run) && Decimal(run) <= INT_MAX
    requires pos + |run| == |s| == DigitsEnd(s, pos) && s[pos..] == run
    ensures FieldAt(s, pos, 5) == Some(Field(Decimal(run), |s|)) && s[|s|..] == ""
  {
    assert s[pos..|s|] == s[pos..];
  }

  lemma FieldEnds(s: string, pos: nat, i: nat, run: string)
    requires i < 5 && DigitRun(run) && Decimal(run) <= INT_MAX
    requires var end := pos + |run|;
             end < |s| && DigitsEnd(s, pos) == end && s[pos..end] == run && Separates(s[end], i)
    ensures FieldAt(s, pos, i) == Some(Field(Decimal(run), pos + |run| + 1))
  {
  }

  lemma {:induction false} WrittenIsRead(s: string, pos: nat, f: seq<string>, i: nat, mid: char)
    requires AllRuns(f) && i <= 6 && pos <= |s| && s[pos..] == Written(f, i, mid) && (mid == 'T' || mid == ' ')
    requires forall k | i <= k < 6 :: Decimal(f[k]) <= INT_MAX
    ensures FieldsFrom(s, pos, i) == Some(Values(f, i))
    decreases 6 - i
  {
    if i < 6 {
      FieldIsTaken(s, pos, f, i, mid);
      WrittenIsRead(s, FieldAt(s, pos, i).value.next, f, i + 1, mid);
    }
  }

  /** Six runs of digits with the separators in place are read as their values,
      leading zeros or not, and taken exactly when they are a real time. */
  lemma PrintedTimeIsParsed(f: seq<string>, mid: char)
    requires AllRuns(f) && (mid == 'T' || mid == ' ')
    requires forall k | 0 <= k < 6 :: Decimal(f[k]) <= INT_MAX
    ensures Parsed(Written(f, 0, mid)) == if RealTime(Values(f, 0)) then Some(TmOf(Values(f, 0))) else None
  {
    WrittenIsRead(Written(f, 0, mid), 0, f, 0, mid);
  }

  // Two digits at least.
  function Two(n: nat): string { if n < 10 then "0" + Dec(n) else Dec(n) }

  lemma TwoDigits(n: nat)
    ensures DigitRun(Two(n)) && Decimal(Two(n)) == n
  {
    DecimalOfDec(n);
    if n < 10 {
      var s := Two(n);
      assert s[..1] == "0" && "0"[..0] == "" && Dec(n)[..0] == "";
    }
  }

  function Print(t: Date, h: nat, mi: nat, se: nat, mid: char): string {
    Written([Dec(t.y), Two(t.m), Two(t.d), Two(h), Two(mi), Two(se)], 0, mid)
  }

  lemma ValuesAre(f: seq<string>, v: seq<nat>)
    requires AllRuns(f) && |v| == 6 && forall k | 0 <= k < 6 :: Decimal(f[k]) == v[k]
    ensures Values(f, 0) == v
  {
    assert forall k | 0 <= k < 6 :: Values(f, 0)[k - 0] == Decimal(f[k]) == v[k];
  }

  lemma PrintIsRead(t: Date, h: nat, mi: nat, se: nat, mid: char)
    requires RealDate(t) && t.y <= INT_MAX && h <= 23 && mi <= 59 && se <= 59 && (mid == 'T' || mid == ' ')
    ensures FieldsFrom(Print(t, h, mi, se, mid), 0, 0) == Some([t.y, t.m, t.d, h, mi, se])
  {
    var f := [Dec(t.y), Two(t.m), Two(t.d), Two(h), Two(mi), Two(se)];
    DecimalOfDec(t.y);
    TwoDigits(t.m);
    TwoDigits(t.d);
    TwoDigits(h);
    TwoDigits(mi);
    TwoDigits(se);
    ValuesAre(f, [t.y, t.m, t.d, h, mi, se]);
    WrittenIsRead(Written(f, 0, mid), 0, f, 0, mid);
  }

  // The fields of a real time, the weekday left open.
  predicate SameFields(tm: Tm, t: Date, h: nat, mi: nat, se: nat) {
    tm.year == t.y - 1900 && tm.mon == t.m - 1 && tm.mday == t.d && tm.hour == h && tm.min == mi && tm.sec == se
  }

  lemma FieldsAreGiven(text: string, t: Date, h: nat, mi: nat, se: nat)
    requires RealDate(t) && h <= 23 && mi <= 59 && se <= 59
    requires FieldsFrom(text, 0, 0) == Some([t.y, t.m, t.d, h, mi, se])
    ensures Parsed(text).Some? && SameFields(Parsed(text).value, t, h, mi, se)
    ensures Parsed(text).value.wday == Weekday(t)
  {
    assert Date(t.y, t.m, t.d) == t;
  }

  /** Printing a real date and time and parsing it gives it back in both separator
      forms, with its weekday wherever the weekday's formula does not overflow. */
  lemma PrintThenParse(t: Date, h: nat, mi: nat, se: nat, mid: char)
    requires RealDate(t) && t.y <= INT_MAX && h <= 23 && mi <= 59 && se <= 59 && (mid == 'T' || mid == ' ')
    ensures var tm := Parsed(Print(t, h, mi, se, mid));
            && tm.Some? && SameFields(tm.value, t, h, mi, se)
            && (FormulaFits(t) ==> tm.value.wday == (DayNumber(t) + 1) % 7)
  {
    PrintIsRead(t, h, mi, se, mid);
    FieldsAreGiven(Print(t, h, mi, se, mid), t, h, mi, se);
    WeekdayCountsDays(t);
  }

  // What is written from field i on depends on those fields only.
  lemma {:induction false} WrittenTail(f: seq<string>, g: seq<string>, i: nat, mid: char, other: char)
    requires |f| == |g| == 6 && i <= 6 && (forall k | i <= k < 6 :: f[k] == g[k]) && (mid == other || i > 2)
    ensures Written(f, i, mid) == Written(g, i, other)
    decreases 6 - i
  {
    if i < 5 {
      WrittenTail(f, g, i + 1, mid, other);
    }
  }

  // f are runs of digits, and what they make from field i on stands at pos and
  // is read as their values.
  ghost predicate Reads(s: string, pos: nat, i: nat, f: seq<string>, mid: char)
    requires pos <= |s| && i <= 6
  {
    && AllRuns(f) && (mid == 'T' || mid == ' ') && s[pos..] == Written(f, i, mid)
    && forall k | i <= k < 6 :: Decimal(f[k]) <= INT_MAX
  }

  // The field at pos in front of what follows it.
  lemma FieldInFront(s: string, pos: nat, i: nat, f: seq<string>, mid: char)
    requires |f| == 6 && i < 6 && pos <= |s| && FieldAt(s, pos, i).Some?
    requires var end := DigitsEnd(s, pos); f[i] == s[pos..end] && (i == 2 ==> end < |s| && mid == s[end])
    requires s[FieldAt(s, pos, i).value.next..] == Written(f, i + 1, mid)
    ensures s[pos..] == Written(f, i, mid)
  {
    var end := DigitsEnd(s, pos);
    if i < 5 {
      assert s[end] == SeparatorOf(i, mid);
      assert s[pos..] == s[pos..end] + [s[end]] + s[end + 1..];
    } else {
      assert s[pos..] == s[pos..end] + s[end..];
      assert s[pos..end] + "" == s[pos..end];
    }
  }

  lemma OneMore(s: string, pos: nat, i: nat, g: seq<string>, other: char) returns (f: seq<string>, mid: char)
    requires i < 6 && pos <= |s| && FieldAt(s, pos, i).Some?
    requires Reads(s, FieldAt(s, pos, i).value.next, i + 1, g, other)
    ensures Reads(s, pos, i, f, mid)
  {
    var end := DigitsEnd(s, pos);
    f := g[i := s[pos..end]];
    mid := if i == 2 then s[end] else other;
    WrittenTail(f, g, i + 1, mid, other);
    FieldInFront(s, pos, i, f, mid);
    assert DigitRun(f[i]);
  }

  lemma NoMore(s: string, pos: nat) returns (f: seq<string>, mid: char)
    requires pos == |s|
    ensures Reads(s, pos, 6, f, mid)
  {
    f, mid := ["0", "0", "0", "0", "0", "0"], 'T';
    assert forall i | 0 <= i < 6 :: f[i] == "0";
  }

  lemma {:induction false} ReadIsWritten(s: string, pos: nat, i: nat) returns (f: seq<string>, mid: char)
    requires pos <= |s| && i <= 6 && FieldsFrom(s, pos, i).Some?
    ensures Reads(s, pos, i, f, mid)
    decreases 6 - i
  {
    if i == 6 {
      f, mid := NoMore(s, pos);
    } else {
      var g, other := ReadIsWritten(s, FieldAt(s, pos, i).value.next, i + 1);
      f, mid := OneMore(s, pos, i, g, other);
    }
  }

  /** An accepted text is six runs of digits with the separators in place, and
      they name a real date and time. */
  lemma ParsedIsARealTime(s: string) returns (f: seq<string>, mid: char)
    requires Parsed(s).Some?
    ensures AllRuns(f) && (mid == 'T' || mid == ' ') && s == Written(f, 0, mid)
    ensures RealTime(Values(f, 0)) && Parsed(s) == Some(TmOf(Values(f, 0)))
  {
    f, mid := ReadIsWritten(s, 0, 0);
    assert s[0..] == s;
    WrittenIsRead(s, 0, f, 0, mid);
  }

  // Six runs of digits as a date and time text, with the times it may stand for.
  ghost predicate Stands(s: string, f: seq<string>, mid: char) {
    && AllRuns(f) && (mid == 'T' || mid == ' ')
    && s == f[0] + "-" + f[1] + "-" + f[2] + [mid] + f[3] + ":" + f[4] + ":" + f[5]
    && (forall k | 0 <= k < 6 :: Decimal(f[k]) <= 0x7FFF_FFFF)
    && (exists n :: DaysOn(n) == Date(Decimal(f[0]), Decimal(f[1]), Decimal(f[2])))
    && Decimal(f[3]) < 24 && Decimal(f[4]) < 60 && Decimal(f[5]) < 60
  }

  lemma TimeOut(f: seq<string>, mid: char)
    requires |f| == 6
    ensures Written(f, 3, mid) == f[3] + ":" + f[4] + ":" + f[5]
  {
    assert Written(f, 4, mid) == f[4] + [':'] + f[5];
    ThreeJoined(f[3], f[4], f[5]);
  }

  lemma ThreeJoined(a: string, b: string, c: string)
    ensures a + [':'] + (b + [':'] + c) == a + ":" + b + ":" + c
  {
  }

  lemma DateOut(f: seq<string>, mid: char)
    requires |f| == 6
    ensures Written(f, 0, mid) == f[0] + "-" + f[1] + "-" + f[2] + [mid] + Written(f, 3, mid)
  {
    var rest := Written(f, 3, mid);
    assert Written(f, 2, mid) == f[2] + [mid] + rest;
    assert Written(f, 1, mid) == f[1] + ['-'] + (f[2] + [mid] + rest);
    FourJoined(f[0], f[1], f[2], [mid], rest);
  }

  lemma FourJoined(a: string, b: string, c: string, mid: string, rest: string)
    ensures a + ['-'] + (b + ['-'] + (c + mid + rest)) == a + "-" + b + "-" + c + mid + rest
  {
  }

  lemma WrittenOut(f: seq<string>, mid: char)
    requires |f| == 6
    ensures Written(f, 0, mid) == f[0] + "-" + f[1] + "-" + f[2] + [mid] + f[3] + ":" + f[4] + ":" + f[5]
  {
    DateOut(f, mid);
    TimeOut(f, mid);
    BothOut(f[0] + "-" + f[1] + "-" + f[2] + [mid], f[3], f[4], f[5]);
  }

  lemma BothOut(date: string, a: string, b: string, c: string)
    ensures date + (a + ":" + b + ":" + c) == date + a + ":" + b + ":" + c
  {
  }

  // A date is real exactly when counting days from the anchor reaches it.
  lemma RealDatesAreReached(t: Date)
    ensures RealDate(t) <==> exists n :: DaysOn(n) == t
  {
    if RealDate(t) {
      EveryDateIsReached(t);
      assert DaysOn(DayNumber(t)) == t;
    }
  }

  /** A text is accepted exactly when it is six runs of digits, with '-', '-', 'T' or a
      blank, ':' and ':' between them and nothing around them, none over 2147483647;
      the first three a day that counting from 1 January 1900 comes to, the others a
      time of day. What it then gives are those numbers, the year from 1900 and the
      month from 0. */
  lemma AcceptedTexts(s: string)
    ensures Parsed(s).Some? <==> exists f, mid :: Stands(s, f, mid)
  {
    if Parsed(s).Some? {
      var f, mid := ReadIsWritten(s, 0, 0);
      assert s[0..] == s;
      WrittenIsRead(s, 0, f, 0, mid);
      WrittenOut(f, mid);
      RealDatesAreReached(Date(Decimal(f[0]), Decimal(f[1]), Decimal(f[2])));
      ValuesListed(f);
      assert Stands(s, f, mid);
    }
    if exists f, mid :: Stands(s, f, mid) {
      var f, mid :| Stands(s, f, mid);
      GivenNumbers(s, f, mid);
    }
  }

  lemma ValuesListed(f: seq<string>)
    requires AllRuns(f)
    ensures Values(f, 0) == [Decimal(f[0]), Decimal(f[1]), Decimal(f[2]), Decimal(f[3]), Decimal(f[4]), Decimal(f[5])]
  {
    assert forall k | 0 <= k < 6 :: Values(f, 0)[k - 0] == Decimal(f[k]);
  }

  lemma GivenNumbers(s: string, f: seq<string>, mid: char)
    requires Stands(s, f, mid)
    ensures var tm := Parsed(s);
            && tm.Some? && tm.value.year == Decimal(f[0]) - 1900 && tm.value.mon == Decimal(f[1]) - 1
            && tm.value.mday == Decimal(f[2]) && tm.value.hour == Decimal(f[3]) && tm.value.min == Decimal(f[4])
            && tm.value.sec == Decimal(f[5])
  {
    WrittenOut(f, mid);
    RealDatesAreReached(Date(Decimal(f[0]), Decimal(f[1]), Decimal(f[2])));
    ValuesListed(f);
    PrintedTimeIsParsed(f, mid);
  }
}
