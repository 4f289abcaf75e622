/**
 The bounds of the mix are reached: a history of port writes from power-on that
 drives all three chips, and with them the whole mix, to full scale.
 */
module FullScale {
  import opened Common
  import opened Ay
  import opened Turbo
  import I2s = I2sClass
  import M = MixLevels

  // Register r of the selected chip to 15.
  function Fill(r: byte): seq<Op> { [OpRegAddr(r), OpRegWrite(15)] }

  // Select a chip with both channels panned on, and its three volumes to full.
  function Loud(code: byte): seq<Op>
    requires code < 4
  {
    [OpRegAddr(0xFC + code)] + Fill(8) + Fill(9) + Fill(10)
  }

  // TurboSound on, all chips mono, all volumes full, one tick.
  function FullOps(): seq<Op> {
    [OpEnabled(true), OpMono(7)] + Loud(3) + Loud(2) + Loud(1) + [OpTick]
  }

  lemma {:induction false} RunConcat(t: Ts, a: seq<Op>, b: seq<Op>)
    ensures Run(t, a + b) == Run(Run(t, a), b)
    decreases |a|
  {
    if a == [] {
      assert a + b == b;
    } else {
      assert (a + b)[1..] == a[1..] + b;
      RunConcat(Apply(t, a[0]), a[1..], b);
    }
  }

  lemma RunOne(t: Ts, a: Op)
    ensures Run(t, [a]) == Apply(t, a)
  {
    assert [a][1..] == [];
  }

  lemma RunTwo(t: Ts, a: Op, b: Op)
    ensures Run(t, [a, b]) == Apply(Apply(t, a), b)
  {
    assert [a, b][1..] == [b];
    RunOne(Apply(t, a), b);
  }

  function Filled(c: Chip, r: byte): Chip
    requires r < 13
  {
    c.(port := c.port.(addr := r, reg := c.port.reg[r := 15]))
  }

  lemma FillRuns(t: Ts, i: nat, r: byte)
    requires i < 3 && t.ctl.select == SelectOf(i) && !t.ctl.resetHeld && r < 13
    ensures Run(t, Fill(r)) == t.(chips := Update(t.chips, i, Filled(t.chips[i], r)))
  {
    RunTwo(t, OpRegAddr(r), OpRegWrite(15));
    assert ActiveIndex(t.ctl.select) == i;
    assert !Bit(r, 128) && r / 32 == 0 && !Bit(r, 16);
  }

  function LoudChip(c: Chip): Chip { Filled(Filled(Filled(c, 8), 9), 10) }

  lemma LoudRuns(t: Ts, i: nat)
    requires i < 3 && t.ctl.enabled && !t.ctl.resetHeld && t.ctl.pan == [3, 3, 3]
    ensures Run(t, Loud(SelectOf(i))) == t.(ctl := t.ctl.(select := SelectOf(i)),
                                           chips := Update(t.chips, i, LoudChip(t.chips[i])))
  {
    var code := SelectOf(i);
    var t1 := Apply(t, OpRegAddr(0xFC + code));
    SelectPans(t, i);
    RunOne(t, OpRegAddr(0xFC + code));
    RunConcat(t, [OpRegAddr(0xFC + code)], Fill(8));
    FillRuns(t1, i, 8);
    var t2 := Run(t1, Fill(8));
    RunConcat(t, [OpRegAddr(0xFC + code)] + Fill(8), Fill(9));
    FillRuns(t2, i, 9);
    var t3 := Run(t2, Fill(9));
    RunConcat(t, [OpRegAddr(0xFC + code)] + Fill(8) + Fill(9), Fill(10));
    FillRuns(t3, i, 10);
  }

  lemma SelectPans(t: Ts, i: nat)
    requires i < 3 && t.ctl.enabled && !t.ctl.resetHeld && t.ctl.pan == [3, 3, 3]
    ensures Apply(t, OpRegAddr(0xFC + SelectOf(i))) == t.(ctl := t.ctl.(select := SelectOf(i)))
  {
    var data := 0xFC + SelectOf(i);
    assert Bit(data, 128) && data / 4 % 8 == 7 && data / 32 % 4 == 3;
    assert [3, 3, 3][i := 3] == [3, 3, 3];
  }

  // With tone and noise switched off and fixed full volumes, a channel is steady.
  lemma SteadyVolume(c: Chip, ch: nat)
    requires ch < 3 && c.port.reg[7] == 255 && c.port.reg[8 + ch] == 15
    ensures Volume(c, ch) == 31
  {
    assert Bit(255, 1) && Bit(255, 2) && Bit(255, 4) && Bit(255, 8) && Bit(255, 16) && Bit(255, 32);
    assert !Bit(15, 16);
  }

  // A chip fresh from power-on with full volumes gives 255 on each channel.
  lemma LoudOutput(id: nat)
    ensures Tick(LoudChip(PoweredOn(id, true))).out == Levels(255, 255, 255)
  {
    var c := LoudChip(PoweredOn(id, true));
    LoudRegisters(c.port.reg);
    var g := Generate(c);
    assert g.port == c.port;
    SteadyVolume(g, 0);
    SteadyVolume(g, 1);
    SteadyVolume(g, 2);
    assert Output(g) == Levels(VOL_AY[15], VOL_AY[15], VOL_AY[15]);
  }

  lemma LoudRegisters(reg: Regs)
    requires reg == RESET_REGS[8 := 15][9 := 15][10 := 15]
    ensures reg[7] == 255 && reg[8] == reg[9] == reg[10] == 15
  {
  }

  // Three such chips, all mono and panned both ways.
  lemma LoudMix(chips: Chips, ctl: Control)
    requires chips[0].out == chips[1].out == chips[2].out == Levels(255, 255, 255)
    requires ctl.enabled && ctl.mono == 7 && ctl.mute == 0 && ctl.pan == [3, 3, 3]
    ensures Mix(chips, ctl).left == 2295 && Mix(chips, ctl).right == 2295
  {
    LoudShare(ctl, 0);
    LoudShare(ctl, 1);
    LoudShare(ctl, 2);
  }

  lemma LoudShare(ctl: Control, i: nat)
    requires i < 3 && ctl.enabled && ctl.mono == 7 && ctl.mute == 0 && ctl.pan == [3, 3, 3]
    ensures ChipStereo(Levels(255, 255, 255), ctl, i) == Stereo(765, 765)
  {
    assert Bit(3, 1) && Bit(3, 2) && Mono(ctl, i) && !Muted(ctl.mute, i);
  }

  function Ready(): Ts {
    NEW.(chips := [LoudChip(NEW.chips[0]), LoudChip(NEW.chips[1]), LoudChip(NEW.chips[2])],
         ctl := NEW.ctl.(enabled := true, mono := 7, select := 1))
  }

  lemma ReadyRuns()
    ensures Run(NEW, [OpEnabled(true), OpMono(7)] + Loud(3) + Loud(2) + Loud(1)) == Ready()
  {
    var start: seq<Op> := [OpEnabled(true), OpMono(7)];
    RunTwo(NEW, OpEnabled(true), OpMono(7));
    var t0 := Run(NEW, start);
    LoudRuns(t0, 0);
    RunConcat(NEW, start, Loud(3));
    var t1 := Run(t0, Loud(3));
    LoudRuns(t1, 1);
    RunConcat(NEW, start + Loud(3), Loud(2));
    var t2 := Run(t1, Loud(2));
    LoudRuns(t2, 2);
    RunConcat(NEW, start + Loud(3) + Loud(2), Loud(1));
  }

  lemma FullEnds(ops: seq<Op>)
    ensures (ops + [OpTick])[|ops + [OpTick]| - 1] == OpTick && KnownSums(ops + [OpTick])
  {
  }

  /** Port writes from power-on and one tick bring the chips to 2295 on either side. */
  lemma ChipsReach2295()
    ensures KnownSums(FullOps())
    ensures Run(NEW, FullOps()).pcm.left == 2295 && Run(NEW, FullOps()).pcm.right == 2295
  {
    var writes := [OpEnabled(true), OpMono(7)] + Loud(3) + Loud(2) + Loud(1);
    assert FullOps() == writes + [OpTick];
    FullEnds(writes);
    ReadyRuns();
    RunConcat(NEW, writes, [OpTick]);
    RunOne(Ready(), OpTick);
    ReadyTicks();
  }

  lemma ReadyTicks()
    ensures TickAll(Ready()).pcm.left == 2295 && TickAll(Ready()).pcm.right == 2295
  {
    LoudOutput(3);
    LoudOutput(2);
    LoudOutput(1);
    LoudMix(TickAll(Ready()).chips, Ready().ctl);
  }

  const FULL_I2S: seq<I2s.Event> := [I2s.Latch(1023, 1023), I2s.Control(0xC0)]

  lemma I2sReaches1023()
    ensures I2s.TenBit(FULL_I2S, 2)
    ensures I2s.Gated(I2s.StateAt(FULL_I2S, 2), true) == I2s.Gated(I2s.StateAt(FULL_I2S, 2), false) == 1023
  {
    var es := FULL_I2S;
    assert I2s.StateAt(es, 1) == I2s.After(I2s.REST, es[0]) == I2s.Reg(1023, 1023, 0, false);
    assert I2s.StateAt(es, 2) == I2s.After(I2s.StateAt(es, 1), es[1]) == I2s.Reg(1023, 1023, 0xC0, false);
    assert Bit(0xC0, 128) && Bit(0xC0, 64) && !Bit(0xC0, 8) && !Bit(0xC0, 4) && !Bit(0xC0, 1);
  }

  lemma FullLevels(ay: M.Level, i2s: M.Level)
    requires ay == M.Level(2295, 2295) && i2s == M.Level(1023, 1023)
    ensures M.MixOf(M.Beeper(true, true, true), ay, M.Dac(255, 255, 255, 255), i2s, false, 0) == M.Level(M.MIX_MAX, M.MIX_MAX)
  {
    assert !Bit(0, 16) && !Bit(0, 8);
  }

  /** With the beeper, tape, DAC and I2S input at full scale, the mix is 6510. */
  lemma MixReaches6510()
    ensures var p := Run(NEW, FullOps()).pcm;
            var r := I2s.StateAt(FULL_I2S, 2);
            M.MixOf(M.Beeper(true, true, true), M.Level(p.left, p.right), M.Dac(255, 255, 255, 255),
                  M.Level(I2s.Gated(r, true), I2s.Gated(r, false)), false, 0) == M.Level(M.MIX_MAX, M.MIX_MAX)
  {
    ChipsReach2295();
    I2sReaches1023();
    FullLevels(M.Level(2295, 2295), M.Level(1023, 1023));
  }
}
