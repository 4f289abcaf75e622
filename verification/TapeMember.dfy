/**
 The whole tape member: writing it at one clock and reading it at another.
 */
module TapeMember {
  import opened Common
  import opened TapeJson

  datatype Poll = Poll(valid: bool, run: nat, last: nat)

  datatype Typist = Typist(state: nat, mode: nat, portsRead: nat, postDelay: nat)

  datatype Member = Member(loader: string, autoPlay: bool, poll: Poll, typist: Typist,
                           tap: seq<Value>, tzx: seq<Value>, wav: seq<Value>)

  const STATES := ["inactive", "waiting", "post_delay"]
  const MODES := ["jpp", "enter"]
  const LAST_DELAY := 8

  // 64-bit unsigned arithmetic and its signed reading.
  function Wrap(n: int): nat { n % TWO64 }

  function Signed(u: nat): int
    requires u < TWO64
  {
    if u <= I64_MAX then u else u - TWO64
  }

  // How far the clock is from t, as a signed 64-bit value.
  function Distance(t: nat, now: nat): (d: int)
    ensures I64_MIN <= d <= I64_MAX
  {
    Signed(Wrap(t - now))
  }

  function NameIndexFrom(names: seq<string>, s: string, i: nat): (r: int)
    requires i <= |names|
    ensures r == -1 || (i <= r < |names| && names[r] == s)
    decreases |names| - i
  {
    if i == |names| then -1 else if names[i] == s then i else NameIndexFrom(names, s, i + 1)
  }

  // ---- writing ----

  // The clock of a poll is 64 bits wide; the rest is what the fields' types hold.
  ghost predicate Writable(t: Member) {
    && t.poll.run <= U32_MAX && t.poll.last < TWO64
    && t.typist.state < |STATES| && t.typist.mode < |MODES| && t.typist.portsRead <= 255
    && t.typist.postDelay <= 255
    && DeckFits(t.tap, TAP) && DeckFits(t.tzx, TZX) && DeckFits(t.wav, WAV)
  }

  function PollJson(p: Poll, now: nat): Json {
    Obj(map["valid" := Bool(p.valid), "run" := Int(p.run), "last_in" := Str(Decimals64(Distance(p.last, now)))])
  }

  function TypistJson(t: Typist): Json
    requires t.state < |STATES| && t.mode < |MODES|
  {
    Obj(map["state" := Str(STATES[t.state]), "mode" := Str(MODES[t.mode]),
            "ports_read" := Int(t.portsRead), "post_delay" := Int(t.postDelay)])
  }

  // Anything but tap and tzx is written as a wav deck.
  function Section(loader: string): string { if loader == "tap" || loader == "tzx" then loader else "wav" }

  function Table(section: string): seq<Spec> {
    if section == "tap" then TAP else if section == "tzx" then TZX else WAV
  }

  function Deck(t: Member, section: string): seq<Value> {
    if section == "tap" then t.tap else if section == "tzx" then t.tzx else t.wav
  }

  function DeckJson(deck: seq<Value>, table: seq<Spec>): Json
    requires DeckFits(deck, table)
  {
    Obj(DeckMembers(deck, table, |table|))
  }

  function Write(t: Member, now: nat): Json
    requires Writable(t)
  {
    var section := Section(t.loader);
    Obj(map["loader" := Str(t.loader), "auto_play" := Bool(t.autoPlay),
            "poll" := PollJson(t.poll, now), "typist" := TypistJson(t.typist),
            section := DeckJson(Deck(t, section), Table(section))])
  }

  // ---- reading ----

  function ReadPoll(o: Json, now: nat): (r: Result<Poll>)
    ensures r.Ok? ==> r.value.run <= U32_MAX && r.value.last < TWO64
  {
    var valid :- FlagOf(o, "poll", "valid");
    var run :- NumOf(o, "poll", "run", 0, U32_MAX);
    var last :- I64Of(o, "poll", "last_in");
    Ok(Poll(valid, run, Wrap(now + last)))
  }

  function NameOf(o: Json, key: string, names: seq<string>): (r: Result<nat>)
    ensures r.Ok? ==> r.value < |names|
  {
    var s :- StrOf(o, "typist", key);
    :- Need(NameIndexFrom(names, s, 0) >= 0, "typist" + "." + key + " is unknown");
    Ok(NameIndexFrom(names, s, 0))
  }

  // What the phantom typist can be restored to.
  predicate Restorable(t: Typist) { t.state <= 2 && t.mode <= 1 && t.postDelay <= LAST_DELAY }

  function TypistOf(o: Json, state: nat, mode: nat): (r: Result<Typist>)
    ensures r.Ok? ==> Restorable(r.value) && r.value.portsRead <= 255
  {
    var portsRead :- NumOf(o, "typist", "ports_read", 0, 255);
    var postDelay :- NumOf(o, "typist", "post_delay", 0, 255);
    var t := Typist(state, mode, portsRead, postDelay);
    :- Need(Restorable(t), "typist" + "." + "post_delay" + " is out of range");
    Ok(t)
  }

  function ReadTypist(o: Json): (r: Result<Typist>)
    ensures r.Ok? ==> Restorable(r.value) && r.value.portsRead <= 255
  {
    var state :- NameOf(o, "state", STATES);
    var mode :- NameOf(o, "mode", MODES);
    TypistOf(o, state, mode)
  }

  function WithDeck(t: Member, section: string, deck: seq<Value>): Member {
    if section == "tap" then t.(tap := deck) else if section == "tzx" then t.(tzx := deck) else t.(wav := deck)
  }

  predicate Known(loader: string) { loader == "tap" || loader == "tzx" || loader == "wav" }

  // What a text says of the deck it was written for.
  datatype Position = Position(loader: string, autoPlay: bool, poll: Poll, typist: Typist, deck: seq<Value>)

  function PollPart(j: Json, now: nat): (r: Result<Poll>)
    ensures r.Ok? ==> r.value.run <= U32_MAX && r.value.last < TWO64
  {
    var o :- ObjOf(j, "poll");
    ReadPoll(o, now)
  }

  function TypistPart(j: Json): (r: Result<Typist>)
    ensures r.Ok? ==> Restorable(r.value) && r.value.portsRead <= 255
  {
    var o :- ObjOf(j, "typist");
    ReadTypist(o)
  }

  function DeckPart(j: Json, loader: string): (r: Result<seq<Value>>)
    ensures r.Ok? ==> |r.value| == |Table(loader)|
  {
    var o :- ObjOf(j, loader);
    DeckFrom(o, loader, Table(loader), 0)
  }

  // What comes after the loader's name.
  function BodyPart(j: Json, now: nat, loader: string, autoPlay: bool): Result<Position> {
    var poll :- PollPart(j, now);
    var typist :- TypistPart(j);
    var deck :- DeckPart(j, loader);
    Ok(Position(loader, autoPlay, poll, typist, deck))
  }

  // None for a text that is no JSON.
  function ReadPosition(parsed: Option<Json>, now: nat): Result<Position> {
    var isObject := parsed.Some? && parsed.value.Obj?;
    :- Need(isObject, "state/tape.json is not a JSON object");
    var j := parsed.value;
    var loader :- StrOf(j, "tape", "loader");
    :- Need(Known(loader), "tape.loader is not tap, tzx or wav");
    var autoPlay :- FlagOf(j, "tape", "auto_play");
    BodyPart(j, now, loader, autoPlay)
  }

  // A member that held t before; the decks of other loaders stay as they are.
  function Filled(t: Member, p: Position): Member {
    WithDeck(t.(loader := p.loader, autoPlay := p.autoPlay, poll := p.poll, typist := p.typist), p.loader, p.deck)
  }

  // ---- round trip ----

  lemma SameWrap(a: int, b: int, k: int)
    requires a == b + k * TWO64
    ensures Wrap(a) == Wrap(b)
  {
  }

  // A time kept as a distance comes back with the same distance from the new
  // clock, and as the same time when the clock is the same.
  lemma DistanceIsKept(t: nat, now: nat, now2: nat)
    requires t < TWO64
    ensures var back := Wrap(now2 + Distance(t, now));
            back < TWO64 && Distance(back, now2) == Distance(t, now) && (now == now2 ==> back == t)
  {
    var w := Wrap(t - now);
    var d := Distance(t, now);
    var k, q := (now2 + d) / TWO64, (t - now) / TWO64;
    var back := Wrap(now2 + d);
    assert now2 + d == back + k * TWO64 && t - now == w + q * TWO64;
    SameWrap(w, d, if w <= I64_MAX then 0 else 1);
    SameWrap(d, back - now2, k);
    if now == now2 {
      SameWrap(now2 + d, t, if w <= I64_MAX then -q else -q - 1);
    }
  }

  lemma PollIsRead(p: Poll, now: nat, now2: nat)
    requires p.run <= U32_MAX && p.last < TWO64
    ensures ReadPoll(PollJson(p, now), now2) == Ok(RebasedPoll(p, now, now2))
  {
    StrtollOfDecimals(Distance(p.last, now));
  }

  lemma NamesAreRead(i: nat)
    ensures i < |STATES| ==> NameIndexFrom(STATES, STATES[i], 0) == i
    ensures i < |MODES| ==> NameIndexFrom(MODES, MODES[i], 0) == i
  {
  }

  lemma TypistIsRead(t: Typist)
    requires Restorable(t) && t.portsRead <= 255
    ensures ReadTypist(TypistJson(t)) == Ok(t)
  {
    NamesAreRead(t.state);
    NamesAreRead(t.mode);
  }

  lemma SectionIsRead(t: Member, section: string)
    requires Writable(t) && Known(section)
    ensures DeckFits(Deck(t, section), Table(section))
    ensures DeckFrom(DeckJson(Deck(t, section), Table(section)), section, Table(section), 0) == Ok(Deck(t, section))
  {
    var deck, table := Deck(t, section), Table(section);
    TapKeys();
    TzxKeys();
    WavKeys();
    DeckIsRead(deck, table, DeckJson(deck, table), section, 0);
    assert deck[0..] == deck;
  }

  // The poll as a new clock sees it.
  function RebasedPoll(p: Poll, now: nat, now2: nat): Poll {
    p.(last := Wrap(now2 + Distance(p.last, now)))
  }

  /** A rebased poll keeps its signed distance from the clock, modulo 2^64, and
      is the same at the same clock. */
  lemma RebasingKeepsDistance(p: Poll, now: nat, now2: nat)
    requires p.last < TWO64
    ensures RebasedPoll(p, now, now2).last < TWO64
    ensures Distance(RebasedPoll(p, now, now2).last, now2) == Distance(p.last, now)
    ensures RebasedPoll(p, now, now) == p
  {
    DistanceIsKept(p.last, now, now2);
    DistanceIsKept(p.last, now, now);
  }

  function PositionOf(t: Member): Position { Position(t.loader, t.autoPlay, t.poll, t.typist, Deck(t, t.loader)) }

  lemma Parts(t: Member, now: nat)
    requires Writable(t)
    ensures var j := Write(t, now);
            var section := Section(t.loader);
            && StrOf(j, "tape", "loader") == Ok(t.loader) && FlagOf(j, "tape", "auto_play") == Ok(t.autoPlay)
            && ObjOf(j, "poll") == Ok(PollJson(t.poll, now)) && ObjOf(j, "typist") == Ok(TypistJson(t.typist))
            && ObjOf(j, section) == Ok(DeckJson(Deck(t, section), Table(section)))
  {
  }

  // A member whose parts are read one by one, as m has them.
  lemma ReadFromParts(j: Json, now: nat, m: Position, p: Json, ty: Json, d: Json)
    requires j.Obj? && StrOf(j, "tape", "loader") == Ok(m.loader) && FlagOf(j, "tape", "auto_play") == Ok(m.autoPlay)
    requires ObjOf(j, "poll") == Ok(p) && ReadPoll(p, now) == Ok(m.poll)
    requires ObjOf(j, "typist") == Ok(ty) && ReadTypist(ty) == Ok(m.typist)
    requires ObjOf(j, m.loader) == Ok(d) && DeckFrom(d, m.loader, Table(m.loader), 0) == Ok(m.deck)
    requires Known(m.loader)
    ensures ReadPosition(Some(j), now) == Ok(m)
  {
  }

  lemma ReadWritten(t: Member, now: nat, now2: nat, j: Json)
    requires Writable(t) && Known(t.loader) && Restorable(t.typist) && j == Write(t, now)
    ensures ReadPosition(Some(j), now2) == Ok(PositionOf(t).(poll := RebasedPoll(t.poll, now, now2)))
  {
    Parts(t, now);
    PollIsRead(t.poll, now, now2);
    TypistIsRead(t.typist);
    SectionIsRead(t, t.loader);
    ReadFromParts(j, now2, PositionOf(t).(poll := RebasedPoll(t.poll, now, now2)),
                  PollJson(t.poll, now), TypistJson(t.typist), DeckJson(Deck(t, t.loader), Table(t.loader)));
  }

  lemma TypistIsRefused(t: Typist)
    requires t.state < |STATES| && t.mode < |MODES| && t.portsRead <= 255 && t.postDelay <= 255
    ensures ReadTypist(TypistJson(t)).Ok? ==> Restorable(t)
  {
    NamesAreRead(t.state);
    NamesAreRead(t.mode);
  }

  lemma BadMemberIsRefused(t: Member, now: nat, now2: nat, j: Json)
    requires Writable(t) && !(Known(t.loader) && Restorable(t.typist)) && j == Write(t, now)
    ensures !ReadPosition(Some(j), now2).Ok?
  {
    Parts(t, now);
    TypistIsRefused(t.typist);
  }

  // Every field within its declared range.
  ghost predicate InRange(p: Position) {
    && Known(p.loader) && p.poll.run <= U32_MAX && p.poll.last < TWO64
    && Restorable(p.typist) && p.typist.portsRead <= 255
    && DeckFits(p.deck, Table(p.loader))
  }

  /** Whatever the JSON, an accepted position has every field within its range. */
  lemma AcceptedIsInRange(parsed: Option<Json>, now: nat)
    requires ReadPosition(parsed, now).Ok?
    ensures InRange(ReadPosition(parsed, now).value)
  {
  }

  /** Writing at one clock and reading at another gives the same loader, typist
      and deck, and the poll rebased to the new clock; a member is refused
      exactly when its loader is unknown or its typist out of range. */
  lemma WrittenMemberIsRead(t: Member, now: nat, now2: nat, j: Json)
    requires Writable(t) && j == Write(t, now)
    ensures ReadPosition(Some(j), now2).Ok? <==> Known(t.loader) && Restorable(t.typist)
    ensures ReadPosition(Some(j), now2).Ok? ==>
              ReadPosition(Some(j), now2).value == PositionOf(t).(poll := RebasedPoll(t.poll, now, now2))
  {
    if Known(t.loader) && Restorable(t.typist) {
      ReadWritten(t, now, now2, j);
    } else {
      BadMemberIsRefused(t, now, now2, j);
    }
  }

  /** What was read can be written and read again, any number of clocks later,
      without further loss. */
  lemma ReadWriteRead(parsed: Option<Json>, now: nat, now2: nat, t: Member, j: Json)
    requires ReadPosition(parsed, now).Ok? && Writable(t)
    requires PositionOf(t) == ReadPosition(parsed, now).value && j == Write(t, now)
    ensures ReadPosition(Some(j), now) == ReadPosition(parsed, now)
    ensures ReadPosition(Some(j), now2).Ok?
  {
    AcceptedIsInRange(parsed, now);
    RebasingKeepsDistance(t.poll, now, now);
    WrittenMemberIsRead(t, now, now, j);
    WrittenMemberIsRead(t, now, now2, j);
  }
}
