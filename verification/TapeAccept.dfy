/**
 Which JSON objects are read as a tape member: key by key, type by type and range
 by range.
 */
module TapeAccept {
  import opened Common
  import opened TapeJson
  import opened TapeMember

  predicate HasFlag(o: Json, key: string) { o.Obj? && key in o.members && o.members[key].Bool? }

  predicate HasNumber(o: Json, key: string, lo: int, hi: int) {
    o.Obj? && key in o.members && o.members[key].Int? && lo <= o.members[key].n <= hi
  }

  predicate HasText(o: Json, key: string) { o.Obj? && key in o.members && o.members[key].Str? }

  // A text that is one of some names.
  predicate HasName(o: Json, key: string, names: seq<string>) { HasText(o, key) && o.members[key].s in names }

  predicate HasNumeral(o: Json, key: string) { HasText(o, key) && Strtoll(o.members[key].s).Some? }

  predicate HasObject(o: Json, key: string) { o.Obj? && key in o.members && o.members[key].Obj? }

  predicate HasField(o: Json, f: Spec) {
    match f.kind
    case U32 => HasNumber(o, f.key, 0, 0xFFFF_FFFF)
    case I32 => HasNumber(o, f.key, -0x8000_0000, 0x7FFF_FFFF)
    case I64Text => HasNumeral(o, f.key)
    case Boolean => HasFlag(o, f.key)
    case Text => HasText(o, f.key)
  }

  ghost predicate HasFields(o: Json, table: seq<Spec>, i: nat) {
    forall k | i <= k < |table| :: HasField(o, table[k])
  }

  lemma FieldTaken(o: Json, at: string, f: Spec)
    ensures ValueOf(o, at, f).Ok? <==> HasField(o, f)
  {
    match f.kind
    case U32 =>
    case I32 =>
    case I64Text =>
    case Boolean =>
    case Text =>
  }

  // What a field's value is when it is taken.
  predicate ValueIs(o: Json, f: Spec, v: Value) {
    match f.kind
    case I64Text => HasText(o, f.key) && v.Num? && Strtoll(o.members[f.key].s) == Some(v.n)
    case Boolean => HasFlag(o, f.key) && v == Flag(o.members[f.key].on)
    case Text => HasText(o, f.key) && v == Word(o.members[f.key].s)
    case _ => o.Obj? && f.key in o.members && o.members[f.key].Int? && v == Num(o.members[f.key].n)
  }

  lemma FieldValue(o: Json, at: string, f: Spec)
    requires ValueOf(o, at, f).Ok?
    ensures ValueIs(o, f, ValueOf(o, at, f).value)
  {
    match f.kind
    case U32 =>
    case I32 =>
    case I64Text =>
    case Boolean =>
    case Text =>
  }

  /** A deck is read exactly when every row of its table is there, of its type and
      within its range; then row k has the value of its key. */
  lemma {:induction false} DeckTaken(o: Json, at: string, table: seq<Spec>, i: nat)
    requires i <= |table|
    ensures DeckFrom(o, at, table, i).Ok? <==> HasFields(o, table, i)
    ensures DeckFrom(o, at, table, i).Ok? ==>
              forall k | i <= k < |table| :: ValueIs(o, table[k], DeckFrom(o, at, table, i).value[k - i])
    decreases |table| - i
  {
    if i < |table| {
      FieldTaken(o, at, table[i]);
      DeckTaken(o, at, table, i + 1);
      if ValueOf(o, at, table[i]).Ok? { FieldValue(o, at, table[i]); }
      assert HasFields(o, table, i) <==> HasField(o, table[i]) && HasFields(o, table, i + 1);
    }
  }

  predicate PollThere(o: Json) {
    HasFlag(o, "valid") && HasNumber(o, "run", 0, 0xFFFF_FFFF) && HasNumeral(o, "last_in")
  }

  lemma PollTaken(o: Json, now: nat)
    ensures ReadPoll(o, now).Ok? <==> PollThere(o)
    ensures ReadPoll(o, now).Ok? ==>
              var p := ReadPoll(o, now).value;
              && p.valid == o.members["valid"].on && p.run == o.members["run"].n && p.last < 0x1_0000_0000_0000_0000
              && (p.last - now - Strtoll(o.members["last_in"].s).value) % 0x1_0000_0000_0000_0000 == 0
  {
    if PollThere(o) {
      Congruent(now + Strtoll(o.members["last_in"].s).value);
    }
  }

  lemma Congruent(n: int)
    ensures (Wrap(n) - n) % TWO64 == 0
  {
    var q := n / TWO64;
    assert Wrap(n) - n == -q * TWO64;
    SameWrap(Wrap(n) - n, 0, -q);
  }

  predicate TypistThere(o: Json) {
    && HasName(o, "state", ["inactive", "waiting", "post_delay"]) && HasName(o, "mode", ["jpp", "enter"])
    && HasNumber(o, "ports_read", 0, 255) && HasNumber(o, "post_delay", 0, 8)
  }

  lemma {:induction false} NamesFound(names: seq<string>, s: string, i: nat)
    requires i <= |names|
    ensures NameIndexFrom(names, s, i) >= 0 <==> s in names[i..]
    decreases |names| - i
  {
    if i < |names| {
      NamesFound(names, s, i + 1);
      assert names[i..] == [names[i]] + names[i + 1..];
    }
  }

  lemma NameTaken(o: Json, key: string, names: seq<string>)
    ensures NameOf(o, key, names).Ok? <==> HasName(o, key, names)
    ensures NameOf(o, key, names).Ok? ==> names[NameOf(o, key, names).value] == o.members[key].s
  {
    if HasText(o, key) {
      NamesFound(names, o.members[key].s, 0);
      assert names[0..] == names;
    }
  }

  lemma TypistTaken(o: Json)
    ensures ReadTypist(o).Ok? <==> TypistThere(o)
    ensures ReadTypist(o).Ok? ==>
              var t := ReadTypist(o).value;
              && STATES[t.state] == o.members["state"].s && MODES[t.mode] == o.members["mode"].s
              && t.portsRead == o.members["ports_read"].n && t.postDelay == o.members["post_delay"].n
  {
    NameTaken(o, "state", STATES);
    NameTaken(o, "mode", MODES);
  }

  // What has to be there, whatever else there is.
  ghost predicate MemberThere(j: Json) {
    && HasName(j, "loader", ["tap", "tzx", "wav"]) && HasFlag(j, "auto_play")
    && HasObject(j, "poll") && PollThere(j.members["poll"])
    && HasObject(j, "typist") && TypistThere(j.members["typist"])
    && var loader := j.members["loader"].s;
       HasObject(j, loader)
       && HasFields(j.members[loader], if loader == "tap" then TAP else if loader == "tzx" then TZX else WAV, 0)
  }

  lemma BodyTaken(j: Json, now: nat, loader: string, autoPlay: bool)
    requires j.Obj?
    ensures BodyPart(j, now, loader, autoPlay).Ok? <==>
              && HasObject(j, "poll") && PollThere(j.members["poll"])
              && HasObject(j, "typist") && TypistThere(j.members["typist"])
              && HasObject(j, loader) && HasFields(j.members[loader], Table(loader), 0)
  {
    if HasObject(j, "poll") { PollTaken(j.members["poll"], now); }
    if HasObject(j, "typist") { TypistTaken(j.members["typist"]); }
    if HasObject(j, loader) { DeckTaken(j.members[loader], loader, Table(loader), 0); }
  }

  /** A member is read exactly when all of that is there. */
  lemma MemberTaken(parsed: Option<Json>, now: nat)
    ensures ReadPosition(parsed, now).Ok? <==> parsed.Some? && MemberThere(parsed.value)
  {
    if parsed.Some? && HasText(parsed.value, "loader") && HasFlag(parsed.value, "auto_play") {
      var j := parsed.value;
      BodyTaken(j, now, j.members["loader"].s, j.members["auto_play"].on);
    }
  }

  /** And then loader, auto play, poll, typist and deck are those of its keys. */
  lemma MemberValues(j: Json, now: nat)
    requires ReadPosition(Some(j), now).Ok?
    ensures var p := ReadPosition(Some(j), now).value;
            && HasText(j, "loader") && p.loader == j.members["loader"].s
            && HasFlag(j, "auto_play") && p.autoPlay == j.members["auto_play"].on
            && HasObject(j, "poll") && ReadPoll(j.members["poll"], now) == Ok(p.poll)
            && HasObject(j, "typist") && ReadTypist(j.members["typist"]) == Ok(p.typist)
            && HasObject(j, p.loader) && DeckFrom(j.members[p.loader], p.loader, Table(p.loader), 0) == Ok(p.deck)
  {
  }
}
