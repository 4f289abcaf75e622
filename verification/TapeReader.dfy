/**
 The tape member's writer and reader as they run: the writer assigns keys into an
 object; the reader fills a member field by field and remembers why it failed.
 */
module TapeReader {
  import opened Common
  import opened TapeJson
  import opened TapeMember

  method DeckToJson(deck: seq<Value>, table: seq<Spec>) returns (j: Json)
    requires DeckFits(deck, table)
    ensures j == DeckJson(deck, table)
  {
    var m: map<string, Json> := map[];
    for i := 0 to |table|
      invariant m == DeckMembers(deck, table, i)
    {
      m := m[table[i].key := Written(deck[i], table[i].kind)];
    }
    j := Obj(m);
  }

  method ToJson(t: Member, now: nat) returns (j: Json)
    requires Writable(t)
    ensures j == Write(t, now)
  {
    var m: map<string, Json> := map[];
    m := m["loader" := Str(t.loader)];
    m := m["auto_play" := Bool(t.autoPlay)];
    m := m["poll" := PollJson(t.poll, now)];
    m := m["typist" := TypistJson(t.typist)];
    var deck;
    if t.loader == "tap" {
      deck := DeckToJson(t.tap, TAP);
      m := m["tap" := deck];
    } else if t.loader == "tzx" {
      deck := DeckToJson(t.tzx, TZX);
      m := m["tzx" := deck];
    } else {
      deck := DeckToJson(t.wav, WAV);
      m := m["wav" := deck];
    }
    j := Obj(m);
  }

  method NameIndex(names: seq<string>, s: string) returns (r: int)
    ensures r == NameIndexFrom(names, s, 0)
  {
    for i := 0 to |names|
      invariant NameIndexFrom(names, s, 0) == NameIndexFrom(names, s, i)
    {
      if s == names[i] {
        return i;
      }
    }
    r := -1;
  }

  // What a typed read leaves behind: its value, or the reason in why.
  twostate predicate Took<T>(r: TapeJsonReader, ok: bool, v: T, spec: Result<T>)
    reads r
  {
    && ok == spec.Ok?
    && (ok ==> v == spec.value && r.why == old(r.why))
    && (!ok ==> r.why == spec.why)
  }

  class TapeJsonReader {
    var why: string

    constructor ()
      ensures why == ""
    {
      why := "";
    }

    method Fail(at: string, key: string, what: string) returns (ok: bool)
      modifies this
      ensures !ok && why == at + "." + key + what
    {
      why := at + "." + key + what;
      ok := false;
    }

    method Num(o: Json, at: string, key: string, lo: int, hi: int) returns (ok: bool, v: int)
      modifies this
      ensures Took(this, ok, v, NumOf(o, at, key, lo, hi))
    {
      v := 0;
      if !Has(o, key) {
        ok := Fail(at, key, " is missing");
      } else if !o.members[key].Int? {
        ok := Fail(at, key, " is not an integer");
      } else {
        v := o.members[key].n;
        ok := true;
        if v >= 0 {
          if v > hi {
            ok := Fail(at, key, " is out of range");
          }
        } else if v < lo || v > hi {
          ok := Fail(at, key, " is out of range");
        }
      }
    }

    method FlagAt(o: Json, at: string, key: string) returns (ok: bool, v: bool)
      modifies this
      ensures Took(this, ok, v, FlagOf(o, at, key))
    {
      v := false;
      if !Has(o, key) {
        ok := Fail(at, key, " is missing");
      } else if !o.members[key].Bool? {
        ok := Fail(at, key, " is not a boolean");
      } else {
        ok, v := true, o.members[key].on;
      }
    }

    method StrAt(o: Json, at: string, key: string) returns (ok: bool, v: string)
      modifies this
      ensures Took(this, ok, v, StrOf(o, at, key))
    {
      v := "";
      if !Has(o, key) {
        ok := Fail(at, key, " is missing");
      } else if !o.members[key].Str? {
        ok := Fail(at, key, " is not a string");
      } else {
        ok, v := true, o.members[key].s;
      }
    }

    method I64s(o: Json, at: string, key: string) returns (ok: bool, v: int)
      modifies this
      ensures Took(this, ok, v, I64Of(o, at, key))
    {
      v := 0;
      var t;
      ok, t := StrAt(o, at, key);
      if ok {
        var n := Strtoll(t);
        if n.None? {
          ok := Fail(at, key, " is not a decimal integer");
        } else {
          v := n.value;
        }
      }
    }

    method ObjAt(o: Json, key: string) returns (ok: bool, v: Json)
      modifies this
      ensures Took(this, ok, v, ObjOf(o, key))
    {
      ok := Has(o, key) && o.members[key].Obj?;
      if ok {
        v := o.members[key];
      } else {
        v := Other;
        why := key + " is missing or not an object";
      }
    }

    method ReadValue(o: Json, at: string, f: Spec) returns (ok: bool, v: Value)
      modifies this
      ensures Took(this, ok, v, ValueOf(o, at, f))
    {
      var n, b, s;
      match f.kind {
        case U32 =>
          ok, n := Num(o, at, f.key, 0, U32_MAX);
          v := Value.Num(n);
        case I32 =>
          ok, n := Num(o, at, f.key, I32_MIN, I32_MAX);
          v := Value.Num(n);
        case I64Text =>
          ok, n := I64s(o, at, f.key);
          v := Value.Num(n);
        case Boolean =>
          ok, b := FlagAt(o, at, f.key);
          v := Flag(b);
        case Text =>
          ok, s := StrAt(o, at, f.key);
          v := Word(s);
      }
    }

    // The chain of typed reads of one deck: it stops at the first that fails.
    method ReadDeck(o: Json, at: string, table: seq<Spec>) returns (ok: bool, deck: seq<Value>)
      modifies this
      ensures Took(this, ok, deck, DeckFrom(o, at, table, 0))
    {
      ok, deck := true, [];
      var i := 0;
      Nothing(DeckFrom(o, at, table, 0));
      while i < |table|
        invariant i <= |table| && ok && why == old(why)
        invariant DeckFrom(o, at, table, 0) == Extend(deck, DeckFrom(o, at, table, i))
      {
        var v;
        ok, v := ReadValue(o, at, table[i]);
        if !ok {
          return;
        }
        ExtendTwice(deck, v, DeckFrom(o, at, table, i + 1));
        deck := deck + [v];
        i := i + 1;
      }
      assert deck + [] == deck;
    }

    method ReadPollAt(j: Json, now: nat) returns (ok: bool, p: Poll)
      modifies this
      ensures Took(this, ok, p, PollPart(j, now))
    {
      p := Poll(false, 0, 0);
      var o;
      ok, o := ObjAt(j, "poll");
      if !ok {
        return;
      }
      var valid, run, last;
      ok, valid := FlagAt(o, "poll", "valid");
      if ok {
        ok, run := Num(o, "poll", "run", 0, U32_MAX);
      }
      if ok {
        ok, last := I64s(o, "poll", "last_in");
      }
      if ok {
        p := Poll(valid, run, Wrap(now + last));
      }
    }

    method NameAt(o: Json, key: string, names: seq<string>) returns (ok: bool, i: nat)
      modifies this
      ensures Took(this, ok, i, NameOf(o, key, names))
    {
      i := 0;
      var s;
      ok, s := StrAt(o, "typist", key);
      if ok {
        var found := NameIndex(names, s);
        if found < 0 {
          ok := Fail("typist", key, " is unknown");
        } else {
          i := found;
        }
      }
    }

    method NumbersAt(o: Json, state: nat, mode: nat) returns (ok: bool, t: Typist)
      modifies this
      ensures Took(this, ok, t, TypistOf(o, state, mode))
    {
      t := Typist(0, 0, 0, 0);
      var portsRead, postDelay;
      ok, portsRead := Num(o, "typist", "ports_read", 0, 255);
      if !ok {
        return;
      }
      ok, postDelay := Num(o, "typist", "post_delay", 0, 255);
      if !ok {
        return;
      }
      t := Typist(state, mode, portsRead, postDelay);
      if !Restorable(t) {
        ok := Fail("typist", "post_delay", " is out of range");
      }
    }

    method ReadTypistAt(j: Json) returns (ok: bool, t: Typist)
      modifies this
      ensures Took(this, ok, t, TypistPart(j))
    {
      t := Typist(0, 0, 0, 0);
      var o, state, mode;
      ok, o := ObjAt(j, "typist");
      if !ok {
        return;
      }
      ok, state := NameAt(o, "state", STATES);
      if !ok {
        return;
      }
      ok, mode := NameAt(o, "mode", MODES);
      if !ok {
        return;
      }
      ok, t := NumbersAt(o, state, mode);
    }
  }

  // deck in front of what the later fields give.
  function Extend(deck: seq<Value>, more: Result<seq<Value>>): Result<seq<Value>> {
    match more
    case Ok(values) => Ok(deck + values)
    case Err(e) => Err(e)
  }

  lemma Nothing(more: Result<seq<Value>>)
    ensures Extend([], more) == more
  {
    if more.Ok? {
      assert [] + more.value == more.value;
    }
  }

  lemma ExtendTwice(deck: seq<Value>, v: Value, more: Result<seq<Value>>)
    ensures Extend(deck, Extend([v], more)) == Extend(deck + [v], more)
  {
    if more.Ok? {
      assert deck + ([v] + more.value) == (deck + [v]) + more.value;
    }
  }

  // The member that is filled in place.
  class TapeMemberRecord {
    var loader: string
    var autoPlay: bool
    var poll: Poll
    var typist: Typist
    var tap: seq<Value>
    var tzx: seq<Value>
    var wav: seq<Value>

    function View(): Member
      reads this
    {
      Member(loader, autoPlay, poll, typist, tap, tzx, wav)
    }

    constructor (t: Member)
      ensures View() == t
    {
      loader, autoPlay, poll, typist := t.loader, t.autoPlay, t.poll, t.typist;
      tap, tzx, wav := t.tap, t.tzx, t.wav;
    }

    // The deck part, into the field of its loader.
    method FillDeck(r: TapeJsonReader, j: Json) returns (ok: bool)
      requires Known(loader)
      modifies this`tap, this`tzx, this`wav, r
      ensures ok == DeckPart(j, loader).Ok?
      ensures ok ==> View() == WithDeck(old(View()), loader, DeckPart(j, loader).value)
      ensures !ok ==> r.why == DeckPart(j, loader).why
    {
      var o, deck;
      ok, o := r.ObjAt(j, loader);
      if !ok {
        return;
      }
      ok, deck := r.ReadDeck(o, loader, Table(loader));
      if loader == "tap" {
        tap := deck;
      } else if loader == "tzx" {
        tzx := deck;
      } else {
        wav := deck;
      }
    }

    // Poll, typist and deck, in this order.
    method FillBody(r: TapeJsonReader, j: Json, now: nat) returns (ok: bool)
      requires Known(loader)
      modifies this`poll, this`typist, this`tap, this`tzx, this`wav, r
      ensures ok == BodyPart(j, now, loader, autoPlay).Ok?
      ensures ok ==> View() == Filled(old(View()), BodyPart(j, now, loader, autoPlay).value)
      ensures !ok ==> r.why == BodyPart(j, now, loader, autoPlay).why
    {
      ok, poll := r.ReadPollAt(j, now);
      if !ok {
        return;
      }
      ok, typist := r.ReadTypistAt(j);
      if !ok {
        return;
      }
      ok := FillDeck(r, j);
    }

    method FromJson(parsed: Option<Json>, now: nat) returns (ok: bool, why: string)
      modifies this
      ensures ok == ReadPosition(parsed, now).Ok?
      ensures ok ==> View() == Filled(old(View()), ReadPosition(parsed, now).value)
      ensures !ok ==> why == ReadPosition(parsed, now).why
    {
      why := "";
      if parsed.None? || !parsed.value.Obj? {
        return false, "state/tape.json is not a JSON object";
      }
      var j := parsed.value;
      var r := new TapeJsonReader();
      ok, loader := r.StrAt(j, "tape", "loader");
      if !ok {
        return false, r.why;
      }
      if !Known(loader) {
        return false, "tape.loader is not tap, tzx or wav";
      }
      ok, autoPlay := r.FlagAt(j, "tape", "auto_play");
      if !ok {
        return false, r.why;
      }
      ok := FillBody(r, j, now);
      why := r.why;
    }
  }
}
