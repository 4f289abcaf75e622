/**
 What a chip sounds like: the level on each channel n ticks on, from the
 registers and the quotients that the generators keep to.
 */
module AySound {
  import opened Common
  import opened Ay
  import opened AyTiming

  function Channel(out: Levels, ch: nat): byte
    requires ch < 3
  {
    if ch == 0 then out.a else if ch == 1 then out.b else out.c
  }

  // The bits of R7 that switch a channel's tone and noise off.
  predicate ToneOff(r7: byte, ch: nat)
    requires ch < 3
  {
    if ch == 0 then Bit(r7, 1) else if ch == 1 then Bit(r7, 2) else Bit(r7, 4)
  }

  predicate NoiseOff(r7: byte, ch: nat)
    requires ch < 3
  {
    if ch == 0 then Bit(r7, 8) else if ch == 1 then Bit(r7, 16) else Bit(r7, 32)
  }

  // ------------------------------------------ the generators as quotients ----

  // x / e, by taking e away.
  function Quotient(x: nat, e: nat): nat
    requires e > 0
  {
    if x < e then 0 else 1 + Quotient(x - e, e)
  }

  lemma {:induction false} QuotientIs(x: nat, e: nat) returns (r: nat)
    requires e > 0
    ensures r < e && x == r + e * Quotient(x, e)
  {
    if x < e {
      r := x;
    } else {
      r := QuotientIs(x - e, e);
      MulStep(e, Quotient(x - e, e));
    }
  }

  // How often a channel's square wave has turned over in n ticks.
  function Toggles(c: Chip, ch: nat, n: nat): nat
    requires ch < 3 && c.div.cnt <= 7
  {
    var period := TonePeriod(c.port.reg, ch);
    Quotient(Phase(c.tones[ch].cnt, period) + Pulses(c.div.cnt, n), Every(period))
  }

  // How often the noise register has been shifted.
  function Shifts(c: Chip, n: nat): nat
    requires c.div.cnt <= 7
  {
    var period := NoisePeriod(c.port.reg);
    Quotient(Phase(c.noise.cnt, period) + NoisePulses(c.div.noiseDiv, Pulses(c.div.cnt, n)), Every(period))
  }

  predicate ToneHigh(c: Chip, ch: nat, n: nat)
    requires ch < 3 && c.div.cnt <= 7
  {
    Flip(c.tones[ch].op, Toggles(c, ch, n))
  }

  // The low bit of the noise register, from the first noise pulse on.
  predicate NoiseHigh(c: Chip, n: nat)
    requires c.div.cnt <= 7
  {
    if NoisePulses(c.div.noiseDiv, Pulses(c.div.cnt, n)) == 0 then c.noise.op
    else Lfsr(c.noise.poly, Shifts(c, n)) % 2 == 1
  }

  lemma {:induction false} SplitAt(x: nat, e: nat, q: nat) returns (r: nat)
    requires e > 0 && q == Quotient(x, e)
    ensures r < e && x == r + e * q
  {
    r := QuotientIs(x, e);
  }

  lemma {:induction false} ToneStands(c: Chip, ch: nat, n: nat)
    requires ch < 3 && c.div.cnt <= 7
    ensures Ticks(c, n).tones[ch].op == ToneHigh(c, ch, n)
  {
    var period := TonePeriod(c.port.reg, ch);
    var q := Toggles(c, ch, n);
    var r := SplitAt(Phase(c.tones[ch].cnt, period) + Pulses(c.div.cnt, n), Every(period), q);
    ToneAfter(c, ch, n, q, r);
  }

  lemma {:induction false} NoiseStands(c: Chip, n: nat)
    requires c.div.cnt <= 7
    ensures Ticks(c, n).noise.op == NoiseHigh(c, n)
  {
    var period := NoisePeriod(c.port.reg);
    var x := Phase(c.noise.cnt, period) + NoisePulses(c.div.noiseDiv, Pulses(c.div.cnt, n));
    var q := Shifts(c, n);
    var r := SplitAt(x, Every(period), q);
    NoiseAfter(c, n, q, r);
    AnyTicksParts(c, n);
    NoiseBeats(c, n);
  }

  // ------------------------------------------------------- the levels ------

  // A fixed volume of 0..15, and an envelope's of 0..31, as a level.
  function FixedLevel(ayMode: bool, v: nat): byte
    requires v < 16
  {
    if ayMode then VOL_AY[v] else if v == 0 then 0 else VOL_YM[2 * v + 1]
  }

  function RampLevel(ayMode: bool, v: nat): byte
    requires v < 32
  {
    if ayMode then VOL_AY[v / 2] else VOL_YM[v]
  }

  lemma AyRises(i: nat)
    requires i < 15
    ensures VOL_AY[i] < VOL_AY[i + 1]
  {
  }

  lemma YmRises(i: nat)
    requires i < 31
    ensures VOL_YM[i] <= VOL_YM[i + 1]
  {
  }

  lemma {:induction false} RampStepsUp(ayMode: bool, v: nat)
    requires v < 31
    ensures RampLevel(ayMode, v) <= RampLevel(ayMode, v + 1)
  {
    if ayMode {
      if v % 2 == 1 { AyRises(v / 2); }
    } else {
      YmRises(v);
    }
  }

  lemma {:induction false} RampRises(ayMode: bool, v: nat, w: nat)
    requires v <= w < 32
    ensures RampLevel(ayMode, v) <= RampLevel(ayMode, w)
    decreases w - v
  {
    if v < w {
      RampStepsUp(ayMode, v);
      RampRises(ayMode, v + 1, w);
    }
  }

  /** Both volume tables rise from silence to full scale, for fixed volumes and for
      envelope volumes, and a fixed volume is the envelope volume of twice that
      index and one. */
  lemma LevelsRise(ayMode: bool, v: nat, w: nat)
    requires v <= w < 32
    ensures 0 == RampLevel(ayMode, 0) <= RampLevel(ayMode, v) <= RampLevel(ayMode, w) <= RampLevel(ayMode, 31) == 255
    ensures w < 16 ==> 0 == FixedLevel(ayMode, 0) <= FixedLevel(ayMode, v) <= FixedLevel(ayMode, w)
                         <= FixedLevel(ayMode, 15) == 255
  {
    RampRises(ayMode, 0, v);
    RampRises(ayMode, v, w);
    RampRises(ayMode, w, 31);
    if w < 16 {
      FixedIsRamp(ayMode, v);
      FixedIsRamp(ayMode, w);
      FixedIsRamp(ayMode, 15);
      RampRises(ayMode, if v == 0 then 0 else 2 * v + 1, if w == 0 then 0 else 2 * w + 1);
      RampRises(ayMode, if w == 0 then 0 else 2 * w + 1, 31);
    }
  }

  lemma FixedIsRamp(ayMode: bool, v: nat)
    requires v < 16
    ensures FixedLevel(ayMode, v) == RampLevel(ayMode, if v == 0 then 0 else 2 * v + 1)
  {
    assert (2 * v + 1) / 2 == v;
  }

  // ------------------------------------------------------ what is heard ----

  // A channel's level, from what R7 and its volume register hold, whether its tone
  // and the noise are high, and the envelope's volume.
  function Heard(ayMode: bool, r7: byte, r: byte, ch: nat, tone: bool, noise: bool, vol: nat): byte
    requires ch < 3 && vol < 32
  {
    if (ToneOff(r7, ch) || tone) && (NoiseOff(r7, ch) || noise) then
      if Bit(r, 16) then RampLevel(ayMode, vol) else FixedLevel(ayMode, r % 16)
    else 0
  }

  lemma SwitchesAre(c: Chip, ch: nat)
    requires ch < 3
    ensures Sounds(c, ch) == ((ToneOff(c.port.reg[7], ch) || c.tones[ch].op)
                              && (NoiseOff(c.port.reg[7], ch) || c.noise.op))
  {
    if ch == 0 {
    } else if ch == 1 {
    } else {
    }
  }

  lemma LevelsAre(ayMode: bool, k: nat, vol: nat)
    requires k < 16 && vol < 32
    ensures Level(ayMode, if k == 0 then 0 else 2 * k + 1) == FixedLevel(ayMode, k)
    ensures Level(ayMode, vol) == RampLevel(ayMode, vol) && Level(ayMode, 0) == 0
  {
    assert (2 * k + 1) / 2 == k;
    assert VOL_AY[0] == 0 && VOL_YM[0] == 0;
  }

  lemma ChannelIs(c: Chip, ch: nat)
    requires ch < 3
    ensures Channel(Output(c), ch) == Level(c.port.ayMode, Volume(c, ch))
  {
  }

  lemma BitOff(r: byte)
    requires r < 16
    ensures !Bit(r, 16) && r % 16 == r
  {
  }

  // The outputs of a tick follow from the registers and generators it leaves.
  lemma OutputOf(c: Chip, ch: nat)
    requires ch < 3
    ensures var t := Tick(c);
            Channel(t.out, ch) == Heard(t.port.ayMode, t.port.reg[7], t.port.reg[8 + ch], ch,
                                        t.tones[ch].op, t.noise.op, t.env.ramp.vol % 32)
  {
    var g := Generate(c);
    ChannelIs(g, ch);
    SwitchesAre(g, ch);
    LevelsAre(g.port.ayMode, g.port.reg[8 + ch] % 16, g.env.ramp.vol % 32);
  }

  lemma {:induction false} PortStays(c: Chip, n: nat)
    ensures Ticks(c, n).port == c.port
  {
    if n > 0 { PortStays(c, n - 1); }
  }

  /** n ticks on, with the registers left alone: a channel is at its level while
      its tone, unless switched off, is high, and the noise, unless switched off, is
      high; and at 0 otherwise. */
  lemma ChannelAfter(c: Chip, ch: nat, n: nat)
    requires ch < 3 && n > 0 && c.div.cnt <= 7
    ensures Channel(Ticks(c, n).out, ch)
         == Heard(c.port.ayMode, c.port.reg[7], c.port.reg[8 + ch], ch, ToneHigh(c, ch, n), NoiseHigh(c, n),
                  Ticks(c, n).env.ramp.vol % 32)
  {
    OutputOf(Ticks(c, n - 1), ch);
    PortStays(c, n);
    ToneStands(c, ch, n);
    NoiseStands(c, n);
  }

  /** A tone alone: its level exactly while its own square is high. */
  lemma ToneAlone(c: Chip, ch: nat, n: nat)
    requires ch < 3 && n > 0 && c.div.cnt <= 7 && c.port.reg[8 + ch] < 16
    requires !ToneOff(c.port.reg[7], ch) && NoiseOff(c.port.reg[7], ch)
    ensures Channel(Ticks(c, n).out, ch)
         == if ToneHigh(c, ch, n) then FixedLevel(c.port.ayMode, c.port.reg[8 + ch]) else 0
  {
    BitOff(c.port.reg[8 + ch]);
    ChannelAfter(c, ch, n);
  }

  /** Noise alone: its level exactly while the noise bit is high. */
  lemma NoiseAlone(c: Chip, ch: nat, n: nat)
    requires ch < 3 && n > 0 && c.div.cnt <= 7 && c.port.reg[8 + ch] < 16
    requires ToneOff(c.port.reg[7], ch) && !NoiseOff(c.port.reg[7], ch)
    ensures Channel(Ticks(c, n).out, ch)
         == if NoiseHigh(c, n) then FixedLevel(c.port.ayMode, c.port.reg[8 + ch]) else 0
  {
    BitOff(c.port.reg[8 + ch]);
    ChannelAfter(c, ch, n);
  }

  /** Both off: steady. */
  lemma SwitchedOffIsSteady(c: Chip, ch: nat, n: nat)
    requires ch < 3 && n > 0 && c.div.cnt <= 7 && c.port.reg[8 + ch] < 16
    requires ToneOff(c.port.reg[7], ch) && NoiseOff(c.port.reg[7], ch)
    ensures Channel(Ticks(c, n).out, ch) == FixedLevel(c.port.ayMode, c.port.reg[8 + ch])
  {
    BitOff(c.port.reg[8 + ch]);
    ChannelAfter(c, ch, n);
  }

  /** Both on: its level exactly while both are high. */
  lemma ToneAndNoise(c: Chip, ch: nat, n: nat)
    requires ch < 3 && n > 0 && c.div.cnt <= 7 && c.port.reg[8 + ch] < 16
    requires !ToneOff(c.port.reg[7], ch) && !NoiseOff(c.port.reg[7], ch)
    ensures Channel(Ticks(c, n).out, ch)
         == if ToneHigh(c, ch, n) && NoiseHigh(c, n) then FixedLevel(c.port.ayMode, c.port.reg[8 + ch]) else 0
  {
    BitOff(c.port.reg[8 + ch]);
    ChannelAfter(c, ch, n);
  }

  // How many steps the envelope has made n ticks after it was started.
  function EnvelopeSteps(c: Chip, n: nat): nat
    requires c.div.cnt <= 7
  {
    Quotient(Pulses(c.div.cnt, n), Every(EnvPeriod(c.port.reg)))
  }

  lemma {:induction false} DrawnIsSmall(shape: nat, k: nat)
    requires shape < 16
    ensures Drawn(shape, k) < 32
  {
  }

  // A write to R13 touches neither tone nor noise nor their registers.
  lemma WriteTouches(c: Chip, val: byte)
    requires c.port.addr == 13
    ensures var w := Write(c, val);
            && w.div == c.div && w.tones == c.tones && w.noise == c.noise && w.port.ayMode == c.port.ayMode
            && w.port.reg == c.port.reg[13 := val]
  {
    assert !Bit(13, 16);
  }

  lemma SamePeriods(a: Regs, b: Regs, val: byte, ch: nat)
    requires ch < 3 && b == a[13 := val]
    ensures TonePeriod(b, ch) == TonePeriod(a, ch) && NoisePeriod(b) == NoisePeriod(a)
    ensures b[7] == a[7] && b[8 + ch] == a[8 + ch]
  {
  }

  lemma SameGenerators(c: Chip, val: byte, ch: nat, n: nat)
    requires ch < 3 && c.div.cnt <= 7 && c.port.addr == 13
    ensures Write(c, val).div == c.div
    ensures ToneHigh(Write(c, val), ch, n) == ToneHigh(c, ch, n) && NoiseHigh(Write(c, val), n) == NoiseHigh(c, n)
  {
    WriteTouches(c, val);
    SamePeriods(c.port.reg, Write(c, val).port.reg, val, ch);
  }

  lemma VolumeIsDrawn(c: Chip, val: byte, n: nat)
    requires n > 0 && c.div.cnt <= 7 && c.port.addr == 13
    ensures Ticks(Write(c, val), n).env.ramp.vol == Drawn(val % 16, EnvelopeSteps(c, n)) < 32
  {
    var r := QuotientIs(Pulses(c.div.cnt, n), Every(EnvPeriod(c.port.reg)));
    EnvelopeAfterWrite(c, val, n, EnvelopeSteps(c, n), r);
    DrawnIsSmall(val % 16, EnvelopeSteps(c, n));
  }

  lemma HeardRamp(ayMode: bool, r7: byte, r: byte, ch: nat, tone: bool, noise: bool, vol: nat)
    requires ch < 3 && vol < 32 && Bit(r, 16)
    ensures Heard(ayMode, r7, r, ch, tone, noise, vol)
         == if (ToneOff(r7, ch) || tone) && (NoiseOff(r7, ch) || noise) then RampLevel(ayMode, vol) else 0
  {
  }

  // A chip t that is heard so, with the envelope on this channel.
  lemma RampIsHeard(t: Chip, ayMode: bool, r7: byte, r: byte, ch: nat, tone: bool, noise: bool, vol: nat)
    requires ch < 3 && Bit(r, 16) && t.env.ramp.vol == vol < 32
    requires Channel(t.out, ch) == Heard(ayMode, r7, r, ch, tone, noise, t.env.ramp.vol % 32)
    ensures Channel(t.out, ch)
         == if (ToneOff(r7, ch) || tone) && (NoiseOff(r7, ch) || noise) then RampLevel(ayMode, vol) else 0
  {
    assert t.env.ramp.vol % 32 == vol;
    HeardRamp(ayMode, r7, r, ch, tone, noise, vol);
  }

  /** With bit 4 of its volume register set, a channel is at the level of the shape
      that the last write to R13 began to draw, wherever it would be heard at all. */
  lemma EnvelopeIsHeard(c: Chip, val: byte, ch: nat, n: nat)
    requires ch < 3 && n > 0 && c.div.cnt <= 7 && c.port.addr == 13 && Bit(c.port.reg[8 + ch], 16)
    ensures var r7 := c.port.reg[7];
            Channel(Ticks(Write(c, val), n).out, ch)
            == if (ToneOff(r7, ch) || ToneHigh(c, ch, n)) && (NoiseOff(r7, ch) || NoiseHigh(c, n)) then
                 RampLevel(c.port.ayMode, Drawn(val % 16, EnvelopeSteps(c, n)))
               else 0
  {
    var w := Write(c, val);
    WriteTouches(c, val);
    SamePeriods(c.port.reg, w.port.reg, val, ch);
    SameGenerators(c, val, ch, n);
    VolumeIsDrawn(c, val, n);
    ChannelAfter(w, ch, n);
    RampIsHeard(Ticks(w, n), c.port.ayMode, c.port.reg[7], c.port.reg[8 + ch], ch, ToneHigh(c, ch, n),
                NoiseHigh(c, n), Drawn(val % 16, EnvelopeSteps(c, n)));
  }

  // Twelve bits of a tone's period, five of the noise's, sixteen of the envelope's.
  lemma PeriodsAre(r: Regs, ch: nat)
    requires ch < 3
    ensures TonePeriod(r, ch) == 256 * (r[2 * ch + 1] % 16) as int + r[2 * ch]
    ensures NoisePeriod(r) == r[6] % 32 && EnvPeriod(r) == 256 * r[12] as int + r[11]
  {
  }

  // A chip fresh from power-on, its registers then set.
  function Fresh(id: nat, ayMode: bool, reg: Regs): Chip {
    var on := PoweredOn(id, ayMode);
    on.(port := on.port.(reg := reg))
  }

  // From rest the toggles and the shifts are the pulses by the period.
  lemma FromRest(c: Chip, ch: nat, n: nat)
    requires ch < 3 && c.div == Divider(0, false, false, false) && c.tones[ch] == Tone(0, false) && c.noise.cnt == 0
    ensures Toggles(c, ch, n) == Quotient((n + 7) / 8, Every(TonePeriod(c.port.reg, ch)))
    ensures Shifts(c, n) == Quotient((n + 7) / 16, Every(NoisePeriod(c.port.reg)))
    ensures NoisePulses(false, Pulses(0, n)) == (n + 7) / 16
  {
    assert Phase(0, TonePeriod(c.port.reg, ch)) == 0 && Phase(0, NoisePeriod(c.port.reg)) == 0;
    assert Pulses(0, n) == (n + 7) / 8;
    HalfOfEighths(n + 7);
  }

  lemma HalfOfEighths(m: nat)
    ensures m / 8 / 2 == m / 16
  {
  }

  /** From power-on, a tone alone on a channel at a fixed volume: a square wave that
      turns over every 8 ticks times its twelve-bit period. */
  lemma SquareFromPowerOn(id: nat, ayMode: bool, reg: Regs, ch: nat, n: nat)
    requires ch < 3 && n > 0 && reg[8 + ch] < 16 && !ToneOff(reg[7], ch) && NoiseOff(reg[7], ch)
    ensures Channel(Ticks(Fresh(id, ayMode, reg), n).out, ch)
         == if Quotient((n + 7) / 8, Every(256 * (reg[2 * ch + 1] % 16) as int + reg[2 * ch])) % 2 == 1
            then FixedLevel(ayMode, reg[8 + ch]) else 0
  {
    var c := Fresh(id, ayMode, reg);
    PeriodsAre(reg, ch);
    FromRest(c, ch, n);
    ToneAlone(c, ch, n);
  }

  /** Noise alone: the low bit of the register, one shift every 16 ticks times its
      five-bit period. */
  lemma NoiseFromPowerOn(id: nat, ayMode: bool, reg: Regs, ch: nat, n: nat)
    requires ch < 3 && n > 8 && reg[8 + ch] < 16 && ToneOff(reg[7], ch) && !NoiseOff(reg[7], ch)
    ensures Channel(Ticks(Fresh(id, ayMode, reg), n).out, ch)
         == if Lfsr(0, Quotient((n + 7) / 16, Every(reg[6] % 32))) % 2 == 1 then FixedLevel(ayMode, reg[8 + ch]) else 0
  {
    var c := Fresh(id, ayMode, reg);
    PeriodsAre(reg, ch);
    FromRest(c, ch, n);
    NoiseAlone(c, ch, n);
  }

  /** The envelope alone, started by a write to R13: its drawing, one step every 8
      ticks times its sixteen-bit period. */
  lemma EnvelopeFromPowerOn(id: nat, ayMode: bool, reg: Regs, val: byte, ch: nat, n: nat)
    requires ch < 3 && n > 0 && Bit(reg[8 + ch], 16) && ToneOff(reg[7], ch) && NoiseOff(reg[7], ch)
    ensures var steps := Quotient((n + 7) / 8, Every(256 * reg[12] as int + reg[11]));
            Drawn(val % 16, steps) < 32
            && Channel(Ticks(Write(Select(Fresh(id, ayMode, reg), 13), val), n).out, ch)
               == RampLevel(ayMode, Drawn(val % 16, steps))
  {
    var c := Select(Fresh(id, ayMode, reg), 13);
    PeriodsAre(reg, ch);
    assert Pulses(0, n) == (n + 7) / 8;
    DrawnIsSmall(val % 16, EnvelopeSteps(c, n));
    EnvelopeIsHeard(c, val, ch, n);
  }
}
