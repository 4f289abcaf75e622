/**
 The state/tape.json member of a snapshot (src/core/emulator_jns.cpp): what is
 written for a tape deck and what reading accepts. JSON is a small datatype here;
 a member's decks are tables of typed fields, in the order they are read.
 */
module TapeJson {
  import opened Common
  import opened Decimals

  // Numbers are the whole numbers of JSON; Other stands for null, arrays and
  // fractions.
  datatype Json = Bool(on: bool) | Int(n: int) | Str(s: string) | Obj(members: map<string, Json>) | Other

  datatype Result<+T> = Ok(value: T) | Err(why: string) {
    predicate IsFailure() { Err? }

    function PropagateFailure<U>(): Result<U>
      requires Err?
    {
      Err(why)
    }

    function Extract(): T
      requires Ok?
    {
      value
    }
  }

  datatype Outcome = Pass | Fail(why: string) {
    predicate IsFailure() { Fail? }

    function PropagateFailure<U>(): Result<U>
      requires Fail?
    {
      Err(why)
    }
  }

  function Need(ok: bool, why: string): Outcome { if ok then Pass else Fail(why) }

  const U32_MAX := 0xFFFF_FFFF
  const I32_MIN := -0x8000_0000
  const I32_MAX := 0x7FFF_FFFF
  const I64_MIN := -0x8000_0000_0000_0000
  const I64_MAX := 0x7FFF_FFFF_FFFF_FFFF
  const TWO64 := 0x1_0000_0000_0000_0000

  // ---- typed reads ----

  predicate Has(o: Json, key: string) { o.Obj? && key in o.members }

  // The range check of a number: a non-negative one is held against hi only.
  predicate InBounds(n: int, lo: int, hi: int) { if n >= 0 then n <= hi else lo <= n <= hi }

  function NumOf(o: Json, at: string, key: string, lo: int, hi: int): (r: Result<int>)
    ensures r.Ok? && lo <= 0 ==> lo <= r.value <= hi
  {
    var name := at + "." + key;
    :- Need(Has(o, key), name + " is missing");
    :- Need(o.members[key].Int?, name + " is not an integer");
    var n := o.members[key].n;
    :- Need(InBounds(n, lo, hi), name + " is out of range");
    Ok(n)
  }

  function FlagOf(o: Json, at: string, key: string): Result<bool> {
    var name := at + "." + key;
    :- Need(Has(o, key), name + " is missing");
    :- Need(o.members[key].Bool?, name + " is not a boolean");
    Ok(o.members[key].on)
  }

  function StrOf(o: Json, at: string, key: string): Result<string> {
    var name := at + "." + key;
    :- Need(Has(o, key), name + " is missing");
    :- Need(o.members[key].Str?, name + " is not a string");
    Ok(o.members[key].s)
  }

  function ObjOf(o: Json, key: string): (r: Result<Json>)
    ensures r.Ok? ==> r.value.Obj?
  {
    var there := Has(o, key) && o.members[key].Obj?;
    :- Need(there, key + " is missing or not an object");
    Ok(o.members[key])
  }

  // ---- 64-bit values as decimal text ----

  function CString(t: string): string {
    if t == "" || t[0] == '\0' then "" else [t[0]] + CString(t[1..])
  }

  predicate IsSpace(c: char) { c == ' ' || 9 <= c as int <= 13 }

  function SkipSpaces(t: string): string { if t != "" && IsSpace(t[0]) then SkipSpaces(t[1..]) else t }

  // An optional sign and digits, and nothing else, within 64 bits.
  function SignedDecimal(u: string): (r: Option<int>)
    ensures r.Some? ==> I64_MIN <= r.value <= I64_MAX
  {
    var digits := if u != "" && (u[0] == '-' || u[0] == '+') then u[1..] else u;
    if digits == "" || DigitsEnd(digits, 0) < |digits| then None
    else
      var n: int := if u[0] == '-' then 0 - Decimal(digits) as int else Decimal(digits);
      if I64_MIN <= n <= I64_MAX then Some(n) else None
  }

  // The whole of t as strtoll takes it; None when something is left over, the
  // value does not fit, or there is no number. A text that begins with NUL has
  // nothing left over and counts as 0.
  function Strtoll(t: string): (r: Option<int>)
    ensures r.Some? ==> I64_MIN <= r.value <= I64_MAX
  {
    if t == "" then None
    else if CString(t) == "" then Some(0)
    else SignedDecimal(SkipSpaces(CString(t)))
  }

  function I64Of(o: Json, at: string, key: string): (r: Result<int>)
    ensures r.Ok? ==> I64_MIN <= r.value <= I64_MAX
  {
    var t :- StrOf(o, at, key);
    var n := Strtoll(t);
    :- Need(n.Some?, at + "." + key + " is not a decimal integer");
    Ok(n.value)
  }

  // std::to_string.
  function Decimals64(n: int): string { if n < 0 then "-" + Dec(-n) else Dec(n) }

  lemma {:induction false} CStringOfPlain(t: string)
    requires '\0' !in t
    ensures CString(t) == t
  {
    if t != "" {
      CStringOfPlain(t[1..]);
    }
  }

  lemma NoSpaces(t: string)
    requires t != "" && !IsSpace(t[0]) && '\0' !in t
    ensures SkipSpaces(CString(t)) == t
  {
    CStringOfPlain(t);
  }

  lemma SignedDecimalOf(d: string, negative: bool)
    requires d != "" && (forall p | 0 <= p < |d| :: Digit(d[p]))
    ensures var n := if negative then 0 - Decimal(d) as int else Decimal(d);
            I64_MIN <= n <= I64_MAX ==> SignedDecimal(if negative then "-" + d else d) == Some(n)
  {
    DigitsAre(d, 0, |d|);
    assert Digit(d[0]);
    assert ("-" + d)[1..] == d;
  }

  // Writing a signed 64-bit value and reading it gives it back.
  lemma StrtollOfDecimals(n: int)
    requires I64_MIN <= n <= I64_MAX
    ensures Strtoll(Decimals64(n)) == Some(n)
  {
    var m := if n < 0 then -n else n;
    DecimalOfDec(m);
    assert Digit(Dec(m)[0]);
    NoSpaces(Decimals64(n));
    SignedDecimalOf(Dec(m), n < 0);
  }

  // ---- the decks ----

  datatype Kind = U32 | I32 | I64Text | Boolean | Text

  datatype Spec = Spec(key: string, kind: Kind)

  datatype Value = Num(n: int) | Flag(on: bool) | Word(s: string)

  const TAP: seq<Spec> :=
    [Spec("block", U32), Spec("playing", Boolean), Spec("held", Boolean), Spec("phase", Text),
     Spec("pulse_left", U32), Spec("leader_left", U32), Spec("byte", U32), Spec("bit", U32),
     Spec("half", U32), Spec("ear", U32)]

  const TZX_PULSES: seq<Spec> :=
    [Spec("fast_offset", I32), Spec("offset", I32), Spec("playing", Boolean), Spec("held", Boolean),
     Spec("level", U32), Spec("edge_in", I64Text), Spec("phase", Text), Spec("pilot_pulse", U32),
     Spec("sync1", U32), Spec("sync2", U32)]

  const TZX_DATA: seq<Spec> :=
    [Spec("zero_pulse", U32), Spec("one_pulse", U32), Spec("pilot_left", I32), Spec("block_data", I32),
     Spec("data_len", I32), Spec("data_pos", I32), Spec("bit_pos", I32), Spec("pulse_half", I32),
     Spec("used_bits_last", I32), Spec("pause_tstates", U32)]

  const TZX_TONES: seq<Spec> :=
    [Spec("tone_pulse", U32), Spec("tone_left", I32), Spec("pulse_lengths", I32), Spec("pulse_count", I32),
     Spec("pulse_idx", I32), Spec("sample_tstates", U32), Spec("direct_level", U32),
     Spec("loop_start", I32), Spec("loop_count", I32), Spec("gap_done", U32)]

  const TZX: seq<Spec> := TZX_PULSES + TZX_DATA + TZX_TONES

  const WAV: seq<Spec> := [Spec("playing", Boolean), Spec("start_in", I64Text)]

  predicate Fits(v: Value, kind: Kind) {
    match kind
    case U32 => v.Num? && 0 <= v.n <= U32_MAX
    case I32 => v.Num? && I32_MIN <= v.n <= I32_MAX
    case I64Text => v.Num? && I64_MIN <= v.n <= I64_MAX
    case Boolean => v.Flag?
    case Text => v.Word?
  }

  ghost predicate DeckFits(deck: seq<Value>, table: seq<Spec>) {
    |deck| == |table| && forall i | 0 <= i < |table| :: Fits(deck[i], table[i].kind)
  }

  function Written(v: Value, kind: Kind): Json
    requires Fits(v, kind)
  {
    match kind
    case I64Text => Str(Decimals64(v.n))
    case Boolean => Bool(v.on)
    case Text => Str(v.s)
    case _ => Int(v.n)
  }

  function ValueOf(o: Json, at: string, f: Spec): (r: Result<Value>)
    ensures r.Ok? ==> Fits(r.value, f.kind)
  {
    match f.kind
    case U32 => var n :- NumOf(o, at, f.key, 0, U32_MAX); Ok(Num(n))
    case I32 => var n :- NumOf(o, at, f.key, I32_MIN, I32_MAX); Ok(Num(n))
    case I64Text => var n :- I64Of(o, at, f.key); Ok(Num(n))
    case Boolean => var b :- FlagOf(o, at, f.key); Ok(Flag(b))
    case Text => var s :- StrOf(o, at, f.key); Ok(Word(s))
  }

  lemma WrittenIsRead(o: Json, at: string, f: Spec, v: Value)
    requires Fits(v, f.kind) && Has(o, f.key) && o.members[f.key] == Written(v, f.kind)
    ensures ValueOf(o, at, f) == Ok(v)
  {
    if f.kind == I64Text {
      StrtollOfDecimals(v.n);
    }
  }

  // The fields from number i on.
  function DeckFrom(o: Json, at: string, table: seq<Spec>, i: nat): (r: Result<seq<Value>>)
    requires i <= |table|
    ensures r.Ok? ==> |r.value| == |table| - i && forall k | i <= k < |table| :: Fits(r.value[k - i], table[k].kind)
    decreases |table| - i
  {
    if i == |table| then Ok([])
    else
      var v :- ValueOf(o, at, table[i]);
      var more :- DeckFrom(o, at, table, i + 1);
      Ok([v] + more)
  }

  function DeckMembers(deck: seq<Value>, table: seq<Spec>, i: nat): (m: map<string, Json>)
    requires DeckFits(deck, table) && i <= |table|
  {
    if i == 0 then map[] else DeckMembers(deck, table, i - 1)[table[i - 1].key := Written(deck[i - 1], table[i - 1].kind)]
  }

  ghost predicate DistinctKeys(table: seq<Spec>) {
    forall i, j | 0 <= i < j < |table| :: table[i].key != table[j].key
  }

  lemma {:induction false} MembersAreThere(deck: seq<Value>, table: seq<Spec>, i: nat, k: nat)
    requires DeckFits(deck, table) && DistinctKeys(table) && k < i <= |table|
    ensures table[k].key in DeckMembers(deck, table, i)
    ensures DeckMembers(deck, table, i)[table[k].key] == Written(deck[k], table[k].kind)
    decreases i
  {
    if k < i - 1 {
      MembersAreThere(deck, table, i - 1, k);
    }
  }

  lemma {:induction false} DeckIsRead(deck: seq<Value>, table: seq<Spec>, o: Json, at: string, i: nat)
    requires DeckFits(deck, table) && DistinctKeys(table) && i <= |table|
    requires o == Obj(DeckMembers(deck, table, |table|))
    ensures DeckFrom(o, at, table, i) == Ok(deck[i..])
    decreases |table| - i
  {
    if i == |table| {
      assert deck[i..] == [];
    } else {
      MembersAreThere(deck, table, |table|, i);
      WrittenIsRead(o, at, table[i], deck[i]);
      DeckIsRead(deck, table, o, at, i + 1);
      assert [deck[i]] + deck[i + 1..] == deck[i..];
    }
  }

  lemma TapKeys()
    ensures DistinctKeys(TAP)
  {
  }

  lemma WavKeys()
    ensures DistinctKeys(WAV)
  {
  }

  // A mark that tells the keys of the TZX table apart, and each mark's row.
  function Mark(key: string): int
    requires |key| >= 3
  {
    3 * key[0] as int + 5 * key[1] as int + 29 * key[|key| - 1] as int + 14 * key[|key| - 3] as int
  }

  function RowOf(mark: int): nat {
    match mark
    case 5765 => 0 case 5817 => 1 case 5333 => 2 case 5131 => 3 case 5613 => 4 case 5323 => 5
    case 5143 => 6 case 5302 => 7 case 3911 => 8 case 3940 => 9 case 5312 => 10 case 5324 => 11
    case 5639 => 12 case 5005 => 13 case 5487 => 14 case 5688 => 15 case 5722 => 16 case 5237 => 17
    case 5648 => 18 case 5780 => 19 case 5344 => 20 case 5681 => 21 case 5880 => 22 case 5923 => 23
    case 5871 => 24 case 5789 => 25 case 5609 => 26 case 5601 => 27 case 5881 => 28 case 5277 => 29
    case _ => 30
  }

  lemma PulseRow(i: nat)
    requires i < 10
    ensures |TZX_PULSES[i].key| >= 3 && RowOf(Mark(TZX_PULSES[i].key)) == i
  {
  }

  lemma DataRow(i: nat)
    requires i < 10
    ensures |TZX_DATA[i].key| >= 3 && RowOf(Mark(TZX_DATA[i].key)) == 10 + i
  {
  }

  lemma ToneRow(i: nat)
    requires i < 10
    ensures |TZX_TONES[i].key| >= 3 && RowOf(Mark(TZX_TONES[i].key)) == 20 + i
  {
  }

  lemma TzxRow(i: nat)
    requires i < 30
    ensures |TZX[i].key| >= 3 && RowOf(Mark(TZX[i].key)) == i
  {
    if i < 10 {
      PulseRow(i);
    } else if i < 20 {
      DataRow(i - 10);
    } else {
      ToneRow(i - 20);
    }
  }

  lemma TzxKeys()
    ensures DistinctKeys(TZX)
  {
    forall i, j | 0 <= i < j < 30 ensures TZX[i].key != TZX[j].key {
      TzxRow(i);
      TzxRow(j);
    }
  }
}
