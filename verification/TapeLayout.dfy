/**
 The tape member as it stands in a snapshot: its keys, and how each value is
 written.
 */
module TapeLayout {
  import opened Common
  import opened TapeJson
  import opened TapeMember

  // A signed 64-bit number as the text that a whole-number reader takes for it.
  predicate Spells(j: Json, n: int) { j.Str? && Strtoll(j.s) == Some(n) }

  lemma DecimalsSpell(n: int)
    requires I64_MIN <= n <= I64_MAX
    ensures Spells(Str(Decimals64(n)), n)
  {
    StrtollOfDecimals(n);
  }

  lemma DistanceIsExact(t: nat, now: nat)
    ensures (t - now - Distance(t, now)) % 0x1_0000_0000_0000_0000 == 0
    ensures -0x8000_0000_0000_0000 <= Distance(t, now) < 0x8000_0000_0000_0000
  {
    var w, q := Wrap(t - now), (t - now) / TWO64;
    assert t - now == w + q * TWO64;
    SameWrap(t - now - Distance(t, now), 0, if w <= I64_MAX then q else q + 1);
  }

  /** The poll: valid, run, and its instant as the signed 64-bit distance from the
      clock, in decimal text. */
  lemma PollLayout(p: Poll, now: nat) returns (d: int)
    ensures var j := PollJson(p, now);
            && j.Obj? && j.members.Keys == {"valid", "run", "last_in"}
            && j.members["valid"] == Bool(p.valid) && j.members["run"] == Int(p.run) && Spells(j.members["last_in"], d)
    ensures (p.last - now - d) % 0x1_0000_0000_0000_0000 == 0 && -0x8000_0000_0000_0000 <= d < 0x8000_0000_0000_0000
  {
    d := Distance(p.last, now);
    DecimalsSpell(d);
    DistanceIsExact(p.last, now);
  }

  /** The typist: state and mode by name, and two numbers. */
  lemma TypistLayout(t: Typist)
    requires t.state < 3 && t.mode < 2
    ensures TypistJson(t)
         == Obj(map["state" := Str(if t.state == 0 then "inactive" else if t.state == 1 then "waiting" else "post_delay"),
                    "mode" := Str(if t.mode == 0 then "jpp" else "enter"),
                    "ports_read" := Int(t.portsRead), "post_delay" := Int(t.postDelay)])
  {
  }

  /** The member: loader, auto play, poll, typist, and one deck under the loader's
      name, under "wav" for any loader but "tap" and "tzx". */
  lemma MemberLayout(t: Member, now: nat)
    requires Writable(t)
    ensures var deck := if t.loader == "tap" then DeckJson(t.tap, TAP)
                        else if t.loader == "tzx" then DeckJson(t.tzx, TZX) else DeckJson(t.wav, WAV);
            Write(t, now)
            == Obj(map["loader" := Str(t.loader), "auto_play" := Bool(t.autoPlay), "poll" := PollJson(t.poll, now),
                       "typist" := TypistJson(t.typist),
                       (if t.loader == "tap" || t.loader == "tzx" then t.loader else "wav") := deck])
  {
  }

  // ---- a deck's object ----

  predicate HasNumber(m: map<string, Json>, key: string, v: Value) { v.Num? && key in m && m[key] == Int(v.n) }

  predicate HasFlag(m: map<string, Json>, key: string, v: Value) { v.Flag? && key in m && m[key] == Bool(v.on) }

  predicate HasWord(m: map<string, Json>, key: string, v: Value) { v.Word? && key in m && m[key] == Str(v.s) }

  predicate HasSpelt(m: map<string, Json>, key: string, v: Value) { v.Num? && key in m && Spells(m[key], v.n) }

  predicate HasValue(m: map<string, Json>, f: Spec, v: Value) {
    match f.kind
    case Boolean => HasFlag(m, f.key, v)
    case Text => HasWord(m, f.key, v)
    case I64Text => HasSpelt(m, f.key, v)
    case _ => HasNumber(m, f.key, v)
  }

  // The object holds row after row of the table.
  ghost predicate Holds(m: map<string, Json>, deck: seq<Value>, table: seq<Spec>) {
    |deck| == |table| && forall i | 0 <= i < |table| :: HasValue(m, table[i], deck[i])
  }

  lemma WrittenHas(m: map<string, Json>, f: Spec, v: Value)
    requires Fits(v, f.kind) && f.key in m && m[f.key] == Written(v, f.kind)
    ensures HasValue(m, f, v)
  {
    if f.kind == I64Text { DecimalsSpell(v.n); }
  }

  /** A written deck's object holds every row of its table. */
  lemma DeckHolds(deck: seq<Value>, table: seq<Spec>)
    requires DeckFits(deck, table) && DistinctKeys(table)
    ensures Holds(DeckJson(deck, table).members, deck, table)
  {
    var m := DeckMembers(deck, table, |table|);
    forall i | 0 <= i < |table| ensures HasValue(m, table[i], deck[i]) {
      MembersAreThere(deck, table, |table|, i);
      WrittenHas(m, table[i], deck[i]);
    }
  }

  /** A tap deck's ten fields. */
  lemma TapLayout(m: map<string, Json>, deck: seq<Value>)
    requires Holds(m, deck, TAP)
    ensures |deck| == 10
            && HasNumber(m, "block", deck[0]) && HasFlag(m, "playing", deck[1])
            && HasFlag(m, "held", deck[2]) && HasWord(m, "phase", deck[3])
            && HasNumber(m, "pulse_left", deck[4]) && HasNumber(m, "leader_left", deck[5])
            && HasNumber(m, "byte", deck[6]) && HasNumber(m, "bit", deck[7])
            && HasNumber(m, "half", deck[8]) && HasNumber(m, "ear", deck[9])
  {
    assert TAP[0] == Spec("block", U32);
    assert TAP[1] == Spec("playing", Boolean);
    assert TAP[2] == Spec("held", Boolean);
    assert TAP[3] == Spec("phase", Text);
    assert TAP[4] == Spec("pulse_left", U32);
    assert TAP[5] == Spec("leader_left", U32);
    assert TAP[6] == Spec("byte", U32);
    assert TAP[7] == Spec("bit", U32);
    assert TAP[8] == Spec("half", U32);
    assert TAP[9] == Spec("ear", U32);
  }

  /** A wav deck's two fields. */
  lemma WavLayout(m: map<string, Json>, deck: seq<Value>)
    requires Holds(m, deck, WAV)
    ensures |deck| == 2 && HasFlag(m, "playing", deck[0]) && HasSpelt(m, "start_in", deck[1])
  {
    assert WAV[0] == Spec("playing", Boolean);
    assert WAV[1] == Spec("start_in", I64Text);
  }

  // A tzx deck's thirty, ten by ten.
  lemma TzxThirds(m: map<string, Json>, deck: seq<Value>)
    requires Holds(m, deck, TZX)
    ensures |deck| == 30 && Holds(m, deck[..10], TZX_PULSES) && Holds(m, deck[10..20], TZX_DATA)
            && Holds(m, deck[20..], TZX_TONES)
  {
    forall i | 0 <= i < 10
      ensures HasValue(m, TZX_PULSES[i], deck[i]) && HasValue(m, TZX_DATA[i], deck[10 + i])
              && HasValue(m, TZX_TONES[i], deck[20 + i])
    {
      assert TZX[i] == TZX_PULSES[i] && TZX[10 + i] == TZX_DATA[i] && TZX[20 + i] == TZX_TONES[i];
    }
  }

  /** The first ten. */
  lemma TzxPulsesLayout(m: map<string, Json>, deck: seq<Value>)
    requires Holds(m, deck, TZX_PULSES)
    ensures |deck| == 10
            && HasNumber(m, "fast_offset", deck[0]) && HasNumber(m, "offset", deck[1])
            && HasFlag(m, "playing", deck[2]) && HasFlag(m, "held", deck[3])
            && HasNumber(m, "level", deck[4]) && HasSpelt(m, "edge_in", deck[5])
            && HasWord(m, "phase", deck[6]) && HasNumber(m, "pilot_pulse", deck[7])
            && HasNumber(m, "sync1", deck[8]) && HasNumber(m, "sync2", deck[9])
  {
    assert TZX_PULSES[0] == Spec("fast_offset", I32);
    assert TZX_PULSES[1] == Spec("offset", I32);
    assert TZX_PULSES[2] == Spec("playing", Boolean);
    assert TZX_PULSES[3] == Spec("held", Boolean);
    assert TZX_PULSES[4] == Spec("level", U32);
    assert TZX_PULSES[5] == Spec("edge_in", I64Text);
    assert TZX_PULSES[6] == Spec("phase", Text);
    assert TZX_PULSES[7] == Spec("pilot_pulse", U32);
    assert TZX_PULSES[8] == Spec("sync1", U32);
    assert TZX_PULSES[9] == Spec("sync2", U32);
  }

  /** The second ten. */
  lemma TzxDataLayout(m: map<string, Json>, deck: seq<Value>)
    requires Holds(m, deck, TZX_DATA)
    ensures |deck| == 10
            && HasNumber(m, "zero_pulse", deck[0]) && HasNumber(m, "one_pulse", deck[1])
            && HasNumber(m, "pilot_left", deck[2]) && HasNumber(m, "block_data", deck[3])
            && HasNumber(m, "data_len", deck[4]) && HasNumber(m, "data_pos", deck[5])
            && HasNumber(m, "bit_pos", deck[6]) && HasNumber(m, "pulse_half", deck[7])
            && HasNumber(m, "used_bits_last", deck[8]) && HasNumber(m, "pause_tstates", deck[9])
  {
    assert TZX_DATA[0] == Spec("zero_pulse", U32);
    assert TZX_DATA[1] == Spec("one_pulse", U32);
    assert TZX_DATA[2] == Spec("pilot_left", I32);
    assert TZX_DATA[3] == Spec("block_data", I32);
    assert TZX_DATA[4] == Spec("data_len", I32);
    assert TZX_DATA[5] == Spec("data_pos", I32);
    assert TZX_DATA[6] == Spec("bit_pos", I32);
    assert TZX_DATA[7] == Spec("pulse_half", I32);
    assert TZX_DATA[8] == Spec("used_bits_last", I32);
    assert TZX_DATA[9] == Spec("pause_tstates", U32);
  }

  /** The last ten. */
  lemma TzxTonesLayout(m: map<string, Json>, deck: seq<Value>)
    requires Holds(m, deck, TZX_TONES)
    ensures |deck| == 10
            && HasNumber(m, "tone_pulse", deck[0]) && HasNumber(m, "tone_left", deck[1])
            && HasNumber(m, "pulse_lengths", deck[2]) && HasNumber(m, "pulse_count", deck[3])
            && HasNumber(m, "pulse_idx", deck[4]) && HasNumber(m, "sample_tstates", deck[5])
            && HasNumber(m, "direct_level", deck[6]) && HasNumber(m, "loop_start", deck[7])
            && HasNumber(m, "loop_count", deck[8]) && HasNumber(m, "gap_done", deck[9])
  {
    assert TZX_TONES[0] == Spec("tone_pulse", U32);
    assert TZX_TONES[1] == Spec("tone_left", I32);
    assert TZX_TONES[2] == Spec("pulse_lengths", I32);
    assert TZX_TONES[3] == Spec("pulse_count", I32);
    assert TZX_TONES[4] == Spec("pulse_idx", I32);
    assert TZX_TONES[5] == Spec("sample_tstates", U32);
    assert TZX_TONES[6] == Spec("direct_level", U32);
    assert TZX_TONES[7] == Spec("loop_start", I32);
    assert TZX_TONES[8] == Spec("loop_count", I32);
    assert TZX_TONES[9] == Spec("gap_done", U32);
  }

  /** A written member is read exactly when its loader is one of the three and its
      typist's delay is at most 8. */
  lemma WrittenIsTaken(t: Member, now: nat, now2: nat)
    requires Writable(t)
    ensures ReadPosition(Some(Write(t, now)), now2).Ok?
        <==> (t.loader == "tap" || t.loader == "tzx" || t.loader == "wav") && t.typist.postDelay <= 8
  {
    WrittenMemberIsRead(t, now, now2, Write(t, now));
  }
}
