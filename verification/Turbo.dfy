/**
 Three chips with port routing and stereo mixing as a value, after
 src/audio/turbosound.cpp, recomputing the mix on EVERY tick.  The caching
 object in TurboSound.dfy is proved against these functions.
 */
module Turbo {
  import opened Common
  import opened Ay

  type Chips = s: seq<Chip> | |s| == 3
    witness [PoweredOn(3, true), PoweredOn(2, true), PoweredOn(1, true)]

  type Pans = s: seq<byte> | |s| == 3 witness [3, 3, 3]

  type Pair3 = s: seq<nat> | |s| == 3 witness [0, 0, 0]

  // Everything but the chips that steers the mix or the ports.
  datatype Control = Control(
    select: byte, pan: Pans, resetHeld: bool, enabled: bool, stereo: bool, mono: byte, mute: byte)

  // What the mixer reads: the latched sum and each chip's share of it.
  datatype Pcm = Pcm(left: nat, right: nat, chipL: Pair3, chipR: Pair3, valid: bool)

  datatype Ts = Ts(chips: Chips, ctl: Control, pcm: Pcm)

  // What a snapshot carries.
  datatype Saved = Saved(chips: Chips, select: byte, pan: Pans, enabled: bool, stereo: bool,
                         mono: byte, pcmLeft: nat, pcmRight: nat)

  function ActiveIndex(select: byte): nat { if select == 2 then 1 else if select == 1 then 2 else 0 }

  // The value of ay_select that names chip i.
  function SelectOf(i: nat): byte
    requires i < 3
  {
    3 - i
  }

  // ------------------------------------------------------------ the mix ----

  predicate Muted(mask: byte, i: nat)
    requires i < 3
  {
    Bit(mask, if i == 0 then 1 else if i == 1 then 2 else 4)
  }

  predicate Mono(ctl: Control, i: nat)
    requires i < 3
  {
    Bit(ctl.mono, if i == 0 then 1 else if i == 1 then 2 else 4)
  }

  datatype Stereo = Stereo(left: nat, right: nat)

  // One chip's share of the mix: mode, then panning, then the debugger's mute.
  function ChipStereo(out: Levels, ctl: Control, i: nat): Stereo
    requires i < 3
  {
    if !(ctl.select == SelectOf(i) || ctl.enabled) || Muted(ctl.mute, i) then Stereo(0, 0)
    else
      var mono := Mono(ctl, i);
      var leftSum := (if ctl.stereo || mono then out.c else out.b) as nat + out.a as nat;
      var rightSum := (if mono then leftSum else out.c as nat) + out.b as nat;
      var leftFinal := if mono then rightSum else leftSum;
      Stereo(if Bit(ctl.pan[i], 2) then leftFinal else 0, if Bit(ctl.pan[i], 1) then rightSum else 0)
  }

  function Mix(chips: Chips, ctl: Control): Pcm {
    Joined(ChipStereo(chips[0].out, ctl, 0), ChipStereo(chips[1].out, ctl, 1), ChipStereo(chips[2].out, ctl, 2))
  }

  // The three shares and their sums.
  function Joined(s0: Stereo, s1: Stereo, s2: Stereo): Pcm {
    Pcm((s0.left + s1.left + s2.left) % 4096, (s0.right + s1.right + s2.right) % 4096,
        [s0.left, s1.left, s2.left], [s0.right, s1.right, s2.right], true)
  }

  const SILENT: Pcm := Pcm(0, 0, [0, 0, 0], [0, 0, 0], true)

  // ---------------------------------------------------------- operations ---

  datatype Op =
    | OpRegAddr(data: byte)
    | OpRegWrite(data: byte)
    | OpEnabled(on: bool)
    | OpAyMode(on: bool)
    | OpStereo(on: bool)
    | OpMono(flags: byte)
    | OpMute(mask: byte)
    | OpResetHeld(on: bool)
    | OpReset
    | OpResetAyOnly
    | OpPowerOn
    | OpTick
    | OpLoad(saved: Saved)

  function Update(chips: Chips, i: nat, c: Chip): Chips
    requires i < 3
  {
    chips[i := c]
  }

  function RegAddr(t: Ts, data: byte): Ts {
    if t.ctl.resetHeld then t
    else if t.ctl.enabled && Bit(data, 128) && data / 4 % 8 == 7 then
      var pan := data / 32 % 4;
      var i := ActiveIndex(data % 4);
      t.(ctl := t.ctl.(pan := t.ctl.pan[i := pan], select := SelectOf(i)))
    else if data / 32 == 0 then
      var i := ActiveIndex(t.ctl.select);
      t.(chips := Update(t.chips, i, Select(t.chips[i], data)))
    else t
  }

  function RegWrite(t: Ts, data: byte): Ts {
    if t.ctl.resetHeld then t
    else
      var i := ActiveIndex(t.ctl.select);
      t.(chips := Update(t.chips, i, Write(t.chips[i], data)))
  }

  function RegRead(t: Ts, regMode: bool): byte {
    Read(t.chips[ActiveIndex(t.ctl.select)].port, regMode)
  }

  function ResetAyOnly(t: Ts): Ts {
    Ts([Reset(t.chips[0]), Reset(t.chips[1]), Reset(t.chips[2])],
       t.ctl.(select := 3, pan := [3, 3, 3]), SILENT)
  }

  function ResetAll(t: Ts): Ts {
    var t1 := ResetAyOnly(t);
    t1.(ctl := t1.ctl.(enabled := false, stereo := false, mono := 0, resetHeld := false))
  }

  function PowerOn(t: Ts): Ts {
    ResetAll(t.(chips := [PoweredOn(t.chips[0].port.id, t.chips[0].port.ayMode),
                          PoweredOn(t.chips[1].port.id, t.chips[1].port.ayMode),
                          PoweredOn(t.chips[2].port.id, t.chips[2].port.ayMode)]))
  }

  function TickAll(t: Ts): Ts {
    var chips: Chips := [Tick(t.chips[0]), Tick(t.chips[1]), Tick(t.chips[2])];
    Ts(chips, t.ctl, Mix(chips, t.ctl))
  }

  function KeepId(c: Chip, loaded: Chip): Chip { loaded.(port := loaded.port.(id := c.port.id)) }

  function Load(t: Ts, s: Saved): Ts {
    Ts([KeepId(t.chips[0], s.chips[0]), KeepId(t.chips[1], s.chips[1]), KeepId(t.chips[2], s.chips[2])],
       t.ctl.(select := s.select, pan := s.pan, enabled := s.enabled, stereo := s.stereo, mono := s.mono),
       Pcm(s.pcmLeft, s.pcmRight, [0, 0, 0], [0, 0, 0], false))
  }

  function SetAyMode(t: Ts, on: bool): Ts {
    t.(chips := [SetMode(t.chips[0], on), SetMode(t.chips[1], on), SetMode(t.chips[2], on)])
  }

  function Apply(t: Ts, op: Op): Ts {
    match op
    case OpRegAddr(data) => RegAddr(t, data)
    case OpRegWrite(data) => RegWrite(t, data)
    case OpEnabled(on) => t.(ctl := t.ctl.(enabled := on))
    case OpAyMode(on) => SetAyMode(t, on)
    case OpStereo(on) => t.(ctl := t.ctl.(stereo := on))
    case OpMono(flags) => t.(ctl := t.ctl.(mono := flags % 8))
    case OpMute(mask) => t.(ctl := t.ctl.(mute := mask % 8))
    case OpResetHeld(on) => t.(ctl := t.ctl.(resetHeld := on))
    case OpReset => ResetAll(t)
    case OpResetAyOnly => ResetAyOnly(t)
    case OpPowerOn => PowerOn(t)
    case OpTick => TickAll(t)
    case OpLoad(saved) => Load(t, saved)
  }

  function Run(t: Ts, ops: seq<Op>): Ts
    decreases |ops|
  {
    if ops == [] then t else Run(Apply(t, ops[0]), ops[1..])
  }

  const NEW: Ts :=
    Ts([PoweredOn(3, true), PoweredOn(2, true), PoweredOn(1, true)],
       Control(3, [3, 3, 3], false, false, false, 0, 0), SILENT)

  // -------------------------------------------------- what guests can see --

  // The settings that only a listener has: mute, stereo order, mono flags.
  predicate ListenerOnly(op: Op) { op.OpMute? || op.OpStereo? || op.OpMono? }

  function WithoutListener(ops: seq<Op>): seq<Op>
    decreases |ops|
  {
    if ops == [] then []
    else if ListenerOnly(ops[0]) then WithoutListener(ops[1..])
    else [ops[0]] + WithoutListener(ops[1..])
  }

  // The machine below the mix: chips in full, and everything that routes ports.
  ghost predicate SameMachine(t: Ts, u: Ts) {
    && t.chips == u.chips
    && t.ctl.select == u.ctl.select && t.ctl.pan == u.ctl.pan
    && t.ctl.resetHeld == u.ctl.resetHeld && t.ctl.enabled == u.ctl.enabled
  }

  lemma ApplyKeepsSame(t: Ts, u: Ts, op: Op)
    requires SameMachine(t, u)
    ensures SameMachine(Apply(t, op), Apply(u, op))
  {
  }

  lemma ListenerKeepsSame(t: Ts, op: Op)
    requires ListenerOnly(op)
    ensures SameMachine(Apply(t, op), t)
  {
  }

  lemma {:induction false} ListenerIsInvisible(t: Ts, u: Ts, ops: seq<Op>)
    requires SameMachine(t, u)
    ensures SameMachine(Run(t, ops), Run(u, WithoutListener(ops)))
    decreases |ops|
  {
    if ops != [] {
      if ListenerOnly(ops[0]) {
        ListenerKeepsSame(t, ops[0]);
        ListenerIsInvisible(Apply(t, ops[0]), u, ops[1..]);
      } else {
        ApplyKeepsSame(t, u, ops[0]);
        ListenerIsInvisible(Apply(t, ops[0]), Apply(u, ops[0]), ops[1..]);
        var rest := WithoutListener(ops[1..]);
        assert ([ops[0]] + rest)[1..] == rest;
      }
    }
  }

  // Two histories that agree but for mute, stereo and mono settings leave all
  // three chips, and every port read, the same.
  lemma {:induction false} MuteNeverReachesTheGuest(t: Ts, u: Ts, a: seq<Op>, b: seq<Op>, regMode: bool)
    requires SameMachine(t, u) && WithoutListener(a) == WithoutListener(b)
    ensures SameMachine(Run(t, a), Run(u, b))
    ensures RegRead(Run(t, a), regMode) == RegRead(Run(u, b), regMode)
  {
    ListenerIsInvisible(t, t, a);
    ListenerIsInvisible(u, t, b);
  }

  // ------------------------------------------------------------- bounds ----

  lemma ChipStereoBound(out: Levels, ctl: Control, i: nat)
    requires i < 3
    ensures ChipStereo(out, ctl, i).left <= 765 && ChipStereo(out, ctl, i).right <= 765
  {
  }

  // Three full chips stay below the 12-bit mask, which therefore never acts.
  lemma MixBound(chips: Chips, ctl: Control)
    ensures var m := Mix(chips, ctl);
            && m.left == m.chipL[0] + m.chipL[1] + m.chipL[2] <= 2295
            && m.right == m.chipR[0] + m.chipR[1] + m.chipR[2] <= 2295
            && (forall i | 0 <= i < 3 :: m.chipL[i] <= 765 && m.chipR[i] <= 765)
  {
    ChipStereoBound(chips[0].out, ctl, 0);
    ChipStereoBound(chips[1].out, ctl, 1);
    ChipStereoBound(chips[2].out, ctl, 2);
    JoinedBound(ChipStereo(chips[0].out, ctl, 0), ChipStereo(chips[1].out, ctl, 1), ChipStereo(chips[2].out, ctl, 2));
  }

  lemma JoinedBound(s0: Stereo, s1: Stereo, s2: Stereo)
    requires s0.left <= 765 && s1.left <= 765 && s2.left <= 765
    requires s0.right <= 765 && s1.right <= 765 && s2.right <= 765
    ensures var m := Joined(s0, s1, s2);
            && m.left == m.chipL[0] + m.chipL[1] + m.chipL[2] <= 2295
            && m.right == m.chipR[0] + m.chipR[1] + m.chipR[2] <= 2295
            && (forall i | 0 <= i < 3 :: m.chipL[i] <= 765 && m.chipR[i] <= 765)
  {
  }

  // The latched sum is what the chips' shares add up to, when those are known.
  ghost predicate Bounded(p: Pcm) {
    && p.left <= 2295 && p.right <= 2295
    && (p.valid ==>
          && p.left == p.chipL[0] + p.chipL[1] + p.chipL[2]
          && p.right == p.chipR[0] + p.chipR[1] + p.chipR[2]
          && (forall i | 0 <= i < 3 :: p.chipL[i] <= 765 && p.chipR[i] <= 765))
  }

  // Are the latched sums ones a machine can have? Ticks and resets recompute them;
  // a state load brings whatever was saved.
  predicate KnownSums(ops: seq<Op>) {
    ops == [] ||
    match ops[|ops| - 1]
    case OpTick => true
    case OpReset => true
    case OpResetAyOnly => true
    case OpPowerOn => true
    case OpLoad(saved) => saved.pcmLeft <= 2295 && saved.pcmRight <= 2295
    case _ => KnownSums(ops[..|ops| - 1])
  }

  // Any tick, and any reset, makes the sums good again.
  lemma RecomputingBounds(t: Ts, op: Op)
    requires op.OpTick? || op.OpReset? || op.OpResetAyOnly? || op.OpPowerOn?
    ensures Bounded(Apply(t, op).pcm)
  {
    if op.OpTick? {
      MixBound(TickAll(t).chips, t.ctl);
    }
  }

  lemma OthersKeepSums(t: Ts, op: Op)
    requires !(op.OpTick? || op.OpReset? || op.OpResetAyOnly? || op.OpPowerOn? || op.OpLoad?)
    ensures Apply(t, op).pcm == t.pcm
  {
  }

  lemma {:induction false} RunLast(t: Ts, ops: seq<Op>)
    requires ops != []
    ensures Run(t, ops) == Apply(Run(t, ops[..|ops| - 1]), ops[|ops| - 1])
    decreases |ops|
  {
    if |ops| > 1 {
      RunLast(Apply(t, ops[0]), ops[1..]);
      assert ops[1..][..|ops| - 2] == ops[..|ops| - 1][1..];
    } else {
      assert ops[..0] == [] && ops[1..] == [];
    }
  }

  // Over every history the latched sums are within three full chips, and what
  // the chips' shares add up to, exactly when the last load not yet followed by
  // a tick or reset brought such sums.
  lemma {:induction false} RunStaysBounded(t: Ts, ops: seq<Op>)
    requires Bounded(t.pcm)
    ensures Bounded(Run(t, ops).pcm) <==> KnownSums(ops)
  {
    if ops != [] {
      var front, op := ops[..|ops| - 1], ops[|ops| - 1];
      RunLast(t, ops);
      if op.OpTick? || op.OpReset? || op.OpResetAyOnly? || op.OpPowerOn? {
        RecomputingBounds(Run(t, front), op);
      } else if !op.OpLoad? {
        OthersKeepSums(Run(t, front), op);
        RunStaysBounded(t, front);
      }
    }
  }

  lemma MuteSilences(out: Levels, ctl: Control, mask: byte, i: nat)
    requires i < 3
    ensures ChipStereo(out, ctl.(mute := mask), i)
            == if Muted(mask, i) then Stereo(0, 0) else ChipStereo(out, ctl.(mute := 0), i)
  {
    assert !Muted(0, i);
  }

  // The muted mix is the unmuted one less exactly the muted chips' shares.
  lemma MuteSubtracts(chips: Chips, ctl: Control, mask: byte)
    ensures var open := Mix(chips, ctl.(mute := 0));
            var muted := Mix(chips, ctl.(mute := mask));
            && muted.left == open.left
                 - (if Muted(mask, 0) then open.chipL[0] else 0)
                 - (if Muted(mask, 1) then open.chipL[1] else 0)
                 - (if Muted(mask, 2) then open.chipL[2] else 0)
            && muted.right == open.right
                 - (if Muted(mask, 0) then open.chipR[0] else 0)
                 - (if Muted(mask, 1) then open.chipR[1] else 0)
                 - (if Muted(mask, 2) then open.chipR[2] else 0)
  {
    MixBound(chips, ctl.(mute := 0));
    MixBound(chips, ctl.(mute := mask));
    MuteSilences(chips[0].out, ctl, mask, 0);
    MuteSilences(chips[1].out, ctl, mask, 1);
    MuteSilences(chips[2].out, ctl, mask, 2);
  }

  // The mix reads the chips only through their outputs.
  lemma MixReadsOutputs(a: Chips, b: Chips, ctl: Control)
    requires a[0].out == b[0].out && a[1].out == b[1].out && a[2].out == b[2].out
    ensures Mix(a, ctl) == Mix(b, ctl)
  {
  }

  // And not at all through the reset level.
  lemma MixIgnoresResetHeld(chips: Chips, ctl: Control, on: bool)
    ensures Mix(chips, ctl.(resetHeld := on)) == Mix(chips, ctl)
  {
    ShareIgnoresResetHeld(chips[0].out, ctl, on, 0);
    ShareIgnoresResetHeld(chips[1].out, ctl, on, 1);
    ShareIgnoresResetHeld(chips[2].out, ctl, on, 2);
  }

  lemma ShareIgnoresResetHeld(out: Levels, ctl: Control, on: bool, i: nat)
    requires i < 3
    ensures ChipStereo(out, ctl.(resetHeld := on), i) == ChipStereo(out, ctl, i)
  {
  }
}
