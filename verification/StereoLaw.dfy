/**
 What each channel of each chip adds to either side of the latched mix, and how
 the select and panning command is read.
 */
module StereoLaw {
  import opened Common
  import opened Ay
  import opened Turbo

  // Flag i of three.
  predicate Flag(bits: byte, i: nat)
    requires i < 3
  {
    if i == 0 then Bit(bits, 1) else if i == 1 then Bit(bits, 2) else Bit(bits, 4)
  }

  // Is chip i, which ay_select names 3 - i, let into the mix?
  predicate LetIn(ctl: Control, i: nat)
    requires i < 3
  {
    (ctl.select == 3 - i || ctl.enabled) && !Flag(ctl.mute, i)
  }

  // Of chip i's channels, do A, B and C go to the left? To the right? A mono chip
  // sends all to both; else the left has A and B in ABC order, A and C in ACB, and
  // the right B and C.
  datatype Sides = Sides(a: bool, b: bool, c: bool)

  function LeftOf(ctl: Control, i: nat): Sides
    requires i < 3
  {
    if !LetIn(ctl, i) || !Bit(ctl.pan[i], 2) then Sides(false, false, false)
    else if Flag(ctl.mono, i) then Sides(true, true, true)
    else Sides(true, !ctl.stereo, ctl.stereo)
  }

  function RightOf(ctl: Control, i: nat): Sides
    requires i < 3
  {
    if !LetIn(ctl, i) || !Bit(ctl.pan[i], 1) then Sides(false, false, false)
    else Sides(Flag(ctl.mono, i), true, true)
  }

  function Adds(s: Sides, out: Levels): nat {
    (if s.a then out.a else 0) + (if s.b then out.b else 0) + (if s.c then out.c else 0)
  }

  lemma ShareIs(out: Levels, ctl: Control, i: nat)
    requires i < 3
    ensures ChipStereo(out, ctl, i) == Stereo(Adds(LeftOf(ctl, i), out), Adds(RightOf(ctl, i), out))
  {
  }

  lemma SumsOf(s0: Stereo, s1: Stereo, s2: Stereo)
    requires s0.left <= 765 && s1.left <= 765 && s2.left <= 765
    requires s0.right <= 765 && s1.right <= 765 && s2.right <= 765
    ensures var p := Joined(s0, s1, s2);
            && p.valid && p.chipL == [s0.left, s1.left, s2.left] && p.chipR == [s0.right, s1.right, s2.right]
            && p.left == s0.left + s1.left + s2.left && p.right == s0.right + s1.right + s2.right
  {
  }

  /** After a tick, under any settings, each chip's share is the channels that go to
      that side, and the latched sums are the shares. */
  lemma MixAfterTick(t: Ts)
    ensures var p := TickAll(t).pcm;
            var o0, o1, o2 := Tick(t.chips[0]).out, Tick(t.chips[1]).out, Tick(t.chips[2]).out;
            && p.chipL == [Adds(LeftOf(t.ctl, 0), o0), Adds(LeftOf(t.ctl, 1), o1), Adds(LeftOf(t.ctl, 2), o2)]
            && p.chipR == [Adds(RightOf(t.ctl, 0), o0), Adds(RightOf(t.ctl, 1), o1), Adds(RightOf(t.ctl, 2), o2)]
            && p.left == p.chipL[0] + p.chipL[1] + p.chipL[2] && p.right == p.chipR[0] + p.chipR[1] + p.chipR[2]
  {
    var o0, o1, o2 := Tick(t.chips[0]).out, Tick(t.chips[1]).out, Tick(t.chips[2]).out;
    ChipStereoBound(o0, t.ctl, 0);
    ChipStereoBound(o1, t.ctl, 1);
    ChipStereoBound(o2, t.ctl, 2);
    SumsOf(ChipStereo(o0, t.ctl, 0), ChipStereo(o1, t.ctl, 1), ChipStereo(o2, t.ctl, 2));
    ShareIs(o0, t.ctl, 0);
    ShareIs(o1, t.ctl, 1);
    ShareIs(o2, t.ctl, 2);
  }

  // Two machines of the same settings that sound alike but for chip i.
  ghost predicate DifferIn(t: Ts, u: Ts, i: nat)
    requires i < 3
  {
    t.ctl == u.ctl && forall j | 0 <= j < 3 && j != i :: Tick(t.chips[j]).out == Tick(u.chips[j]).out
  }

  lemma AddsDiffer(s: Sides, x: Levels, y: Levels)
    ensures Adds(s, y) - Adds(s, x)
         == (if s.a then y.a - x.a else 0) + (if s.b then y.b - x.b else 0) + (if s.c then y.c - x.c else 0)
  {
  }

  lemma OnlyOneMoves(t: Ts, u: Ts, i: nat)
    requires i < 3 && DifferIn(t, u, i)
    ensures var x, y := Tick(t.chips[i]).out, Tick(u.chips[i]).out;
            && TickAll(u).pcm.left - TickAll(t).pcm.left == Adds(LeftOf(t.ctl, i), y) - Adds(LeftOf(t.ctl, i), x)
            && TickAll(u).pcm.right - TickAll(t).pcm.right == Adds(RightOf(t.ctl, i), y) - Adds(RightOf(t.ctl, i), x)
  {
    MixAfterTick(t);
    MixAfterTick(u);
  }

  /** In ABC order a chip moves the left one for one with A and B, whatever C does;
      in ACB order with A and C, whatever B does; the right with B and C, whatever A
      does. A mono chip moves both with all three. Each pan bit takes away its own
      side only, and a chip that is neither selected nor let in by TurboSound, or that
      is muted, moves nothing. */
  lemma OneForOne(t: Ts, u: Ts, i: nat)
    requires i < 3 && DifferIn(t, u, i)
    ensures var x, y := Tick(t.chips[i]).out, Tick(u.chips[i]).out;
            var left, right := TickAll(u).pcm.left - TickAll(t).pcm.left, TickAll(u).pcm.right - TickAll(t).pcm.right;
            var mono, on := Flag(t.ctl.mono, i), LetIn(t.ctl, i);
            && (on && Bit(t.ctl.pan[i], 2) ==>
                  && (mono ==> left == (y.a - x.a) + (y.b - x.b) + (y.c - x.c))
                  && (!mono && !t.ctl.stereo ==> left == (y.a - x.a) + (y.b - x.b))
                  && (!mono && t.ctl.stereo ==> left == (y.a - x.a) + (y.c - x.c)))
            && (on && Bit(t.ctl.pan[i], 1) ==>
                  && (mono ==> right == (y.a - x.a) + (y.b - x.b) + (y.c - x.c))
                  && (!mono ==> right == (y.b - x.b) + (y.c - x.c)))
            && (!on || !Bit(t.ctl.pan[i], 2) ==> left == 0)
            && (!on || !Bit(t.ctl.pan[i], 1) ==> right == 0)
  {
    var x, y := Tick(t.chips[i]).out, Tick(u.chips[i]).out;
    OnlyOneMoves(t, u, i);
    AddsDiffer(LeftOf(t.ctl, i), x, y);
    AddsDiffer(RightOf(t.ctl, i), x, y);
  }

  // ------------------------------------------------- the command bytes -----

  // The chip a two-bit code names.
  function Named(code: nat): nat { if code == 2 then 1 else if code == 1 then 2 else 0 }

  lemma CommandBits(pan: nat, code: nat)
    requires pan < 4 && code < 4
    ensures var data := 128 + 32 * pan + 28 + code;
            Bit(data, 128) && data / 4 % 8 == 7 && data % 4 == code && data / 32 % 4 == pan && data / 32 != 0
  {
  }

  /** 1 pp 111 cc: with TurboSound on, it selects the chip that cc names (11 the
      first, 10 the second, 01 the third, 00 the first) and sets the pan of that chip
      only to pp. Off, it does nothing. */
  lemma SelectAndPan(t: Ts, pan: byte, code: byte)
    requires pan < 4 && code < 4 && !t.ctl.resetHeld
    ensures var u := RegAddr(t, 128 + 32 * pan + 28 + code);
            if t.ctl.enabled then
              u == t.(ctl := t.ctl.(select := 3 - Named(code), pan := t.ctl.pan[Named(code) := pan]))
            else u == t
  {
    CommandBits(pan, code);
  }

  /** A byte below 32 selects that register of the active chip and touches nothing
      else; any other byte that is no command does nothing; and with reset held no
      byte does. */
  lemma RegisterSelect(t: Ts, data: byte)
    requires data < 128 || data / 4 % 8 != 7
    ensures var u := RegAddr(t, data);
            var i := Named(t.ctl.select);
            if data < 32 && !t.ctl.resetHeld then
              && u.ctl == t.ctl && u.pcm == t.pcm && u.chips == t.chips[i := u.chips[i]]
              && u.chips[i] == t.chips[i].(port := t.chips[i].port.(addr := data))
            else u == t
  {
    assert Bit(data, 128) <==> data >= 128;
    assert data / 32 == 0 <==> data < 32;
  }

  // ------------------------------------------------- settings and resets ----

  lemma FlagsKept(bits: byte, i: nat)
    requires i < 3
    ensures Flag(bits % 8, i) == Flag(bits, i)
  {
    var q, r := bits / 8, bits % 8;
    assert bits == 8 * q + r;
  }

  /** Each setter reaches its own setting and no other; of the mono and mute flags the
      three chips' are kept. */
  lemma SettersReach(t: Ts, on: bool, flags: byte, i: nat)
    requires i < 3
    ensures var u := Apply(t, OpMono(flags)).ctl; Flag(u.mono, i) == Flag(flags, i) && u == t.ctl.(mono := u.mono)
    ensures var u := Apply(t, OpMute(flags)).ctl; Flag(u.mute, i) == Flag(flags, i) && u == t.ctl.(mute := u.mute)
    ensures Apply(t, OpStereo(on)).ctl == t.ctl.(stereo := on) && Apply(t, OpEnabled(on)).ctl == t.ctl.(enabled := on)
    ensures Apply(t, OpResetHeld(on)).ctl == t.ctl.(resetHeld := on)
    ensures var c := Apply(t, OpAyMode(on)).chips[i]; c == t.chips[i].(port := t.chips[i].port.(ayMode := on))
  {
    FlagsKept(flags, i);
  }

  /** A reset selects the first chip, pans all three both ways, silences the sums, and
      leaves the listener's mute alone; the full one also turns TurboSound, ACB and mono
      off and lets go of a held reset. */
  lemma ResetSettings(t: Ts)
    ensures var u := Apply(t, OpReset);
            u.ctl == Control(3, [3, 3, 3], false, false, false, 0, t.ctl.mute) && u.pcm.left == 0 == u.pcm.right
    ensures var u := Apply(t, OpResetAyOnly);
            u.ctl == t.ctl.(select := 3, pan := [3, 3, 3]) && u.pcm.left == 0 == u.pcm.right
    ensures Apply(t, OpPowerOn).ctl == Apply(t, OpReset).ctl
  {
  }

  // -------------------------------------------------- through the port ----

  /** A write and a read go to the chip that the command byte named last, and no other
      chip changes; with reset held a write does nothing. */
  lemma PortReaches(t: Ts, val: byte, regMode: bool)
    ensures var u := RegWrite(t, val);
            var i := Named(t.ctl.select);
            && u.ctl == t.ctl && u.pcm == t.pcm && u.chips == t.chips[i := u.chips[i]]
            && u.chips[i] == (if t.ctl.resetHeld then t.chips[i] else Write(t.chips[i], val))
            && RegRead(t, regMode) == Read(t.chips[i].port, regMode)
  {
  }

  // Chip i answers to the number 3 - i.
  ghost predicate Numbered(chips: Chips) { forall i | 0 <= i < 3 :: chips[i].port.id == 3 - i }

  lemma ApplyKeepsNumbers(t: Ts, op: Op)
    requires Numbered(t.chips)
    ensures Numbered(Apply(t, op).chips)
  {
  }

  /** Over every history of writes, settings, resets, ticks and loads the chips keep
      their numbers: 3, 2 and 1. */
  lemma {:induction false} NumbersStay(t: Ts, ops: seq<Op>)
    requires Numbered(t.chips)
    ensures Numbered(Run(t, ops).chips)
    decreases |ops|
  {
    if ops != [] {
      ApplyKeepsNumbers(t, ops[0]);
      NumbersStay(Apply(t, ops[0]), ops[1..]);
    }
  }
}
