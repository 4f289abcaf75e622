/**
 How much of each source is in the mix, and in an emitted sample.
 */
module MixWeights {
  import opened Common
  import opened Ay
  import opened Turbo
  import opened MixLevels
  import opened MixerClass

  // Nothing sounds.
  const NO_BEEPER := Beeper(false, false, false)
  const MID_DAC := Dac(0x80, 0x80, 0x80, 0x80)

  predicate BeeperHeard(exclusive: bool, mute: byte) { !exclusive && !Bit(mute, 16) }

  /** At rest both sides are at 1536; a muted DAC is at rest whatever it holds. */
  lemma RestLevel(dac: Dac, exclusive: bool, mute: byte)
    requires dac == MID_DAC || Bit(mute, 8)
    ensures MixOf(NO_BEEPER, Level(0, 0), dac, Level(512, 512), exclusive, mute) == Level(1536, 1536)
  {
  }

  /** Whatever else sounds: raising EAR adds 512 to both sides, MIC 128 and tape EAR
      512; each adds nothing while the speaker is exclusive or the beeper is muted. */
  lemma BeeperWeights(b: Beeper, ay: Level, dac: Dac, i2s: Level, exclusive: bool, mute: byte)
    ensures var heard := BeeperHeard(exclusive, mute);
            var low := MixOf(b.(ear := false), ay, dac, i2s, exclusive, mute);
            var ear := if heard then 512 else 0;
            MixOf(b.(ear := true), ay, dac, i2s, exclusive, mute) == Level(low.left + ear, low.right + ear)
    ensures var heard := BeeperHeard(exclusive, mute);
            var low := MixOf(b.(mic := false), ay, dac, i2s, exclusive, mute);
            var mic := if heard then 128 else 0;
            MixOf(b.(mic := true), ay, dac, i2s, exclusive, mute) == Level(low.left + mic, low.right + mic)
    ensures var heard := BeeperHeard(exclusive, mute);
            var low := MixOf(b.(tapeEar := false), ay, dac, i2s, exclusive, mute);
            var tape := if heard then 512 else 0;
            MixOf(b.(tapeEar := true), ay, dac, i2s, exclusive, mute) == Level(low.left + tape, low.right + tape)
  {
  }

  /** Whatever else sounds: a step of DAC A or B is 4 on the left only, one of C or D
      is 4 on the right only, and nothing while the DAC is muted. */
  lemma DacWeights(b: Beeper, ay: Level, x: Dac, y: Dac, i2s: Level, exclusive: bool, mute: byte)
    ensures var was := MixOf(b, ay, x, i2s, exclusive, mute);
            var now := MixOf(b, ay, y, i2s, exclusive, mute);
            if Bit(mute, 8) then now == was
            else
              && now.left - was.left == 4 * (y.a - x.a) + 4 * (y.b - x.b)
              && now.right - was.right == 4 * (y.c - x.c) + 4 * (y.d - x.d)
  {
  }

  /** And a step of a chip sum or of a gated I2S side moves its own side by one. */
  lemma SumsAndI2sWeights(b: Beeper, ay: Level, ay': Level, dac: Dac, i2s: Level, i2s': Level, exclusive: bool, mute: byte)
    ensures var was := MixOf(b, ay, dac, i2s, exclusive, mute);
            var now := MixOf(b, ay', dac, i2s', exclusive, mute);
            && now.left - was.left == (ay'.left - ay.left) + (i2s'.left - i2s.left)
            && now.right - was.right == (ay'.right - ay.right) + (i2s'.right - i2s.right)
  {
  }

  // ------------------------------------------------------- one sample ------

  function Cut16(v: int): int { if v < -32768 then -32768 else if v > 32767 then 32767 else v }

  lemma {:induction false} ConstantSums(s: seq<Slice>, l: Level)
    requires forall i | 0 <= i < |s| :: s[i].level == l
    ensures SumLeft(s) == l.left * Cycles(s) && SumRight(s) == l.right * Cycles(s)
  {
    if s != [] {
      ConstantSums(s[..|s| - 1], l);
      Spread(l.left, Cycles(s[..|s| - 1]), s[|s| - 1].cycles);
      Spread(l.right, Cycles(s[..|s| - 1]), s[|s| - 1].cycles);
    }
  }

  lemma WholeAverage(v: int, cycles: nat)
    requires cycles > 0
    ensures AverageX4(v * cycles, cycles) == 4 * v
  {
    AverageBetween(v * cycles, cycles, v, v);
  }

  /** A mix held at one level, in slices of any length, emits four times its distance
      from rest, cut to 16 bits. */
  lemma HeldLevelEmits(s: seq<Slice>, l: Level)
    requires Cycles(s) > 0 && forall i | 0 <= i < |s| :: s[i].level == l
    ensures SampleOf(SumLeft(s), Cycles(s)) == Cut16(4 * (l.left - 1536))
    ensures SampleOf(SumRight(s), Cycles(s)) == Cut16(4 * (l.right - 1536))
  {
    ConstantSums(s, l);
    WholeAverage(l.left, Cycles(s));
    WholeAverage(l.right, Cycles(s));
  }

  /** In between, an average rounds to the nearest whole number, and a half away from
      zero. */
  lemma HalvesRoundAway(sum: int, cycles: nat)
    requires cycles > 0
    ensures var q := AverageX4(sum, cycles);
            && 2 * Abs(q * cycles - 4 * sum) <= cycles
            && (2 * Abs(q * cycles - 4 * sum) == cycles ==> Abs(q * cycles) > Abs(4 * sum))
            && SampleOf(sum, cycles) == Cut16(q - 6144)
  {
    RoundingError(sum, cycles);
    var q := AverageAway(sum, cycles);
    RoundedUp(Abs(4 * sum), cycles);
    Negated(q, cycles);
  }

  lemma AverageAway(sum: int, cycles: nat) returns (q: int)
    requires cycles > 0
    ensures 0 <= q == (Abs(4 * sum) + cycles / 2) / cycles
    ensures AverageX4(sum, cycles) == if sum >= 0 then q else -q
  {
    q := (Abs(4 * sum) + cycles / 2) / cycles;
  }

  // Half a divisor more, and the quotient is the nearest one, the upper of two.
  lemma RoundedUp(m: nat, cycles: nat)
    requires cycles > 0
    ensures var q := (m + cycles / 2) / cycles;
            2 * (m - q * cycles) < cycles && (2 * (q * cycles - m) == cycles ==> q * cycles > m)
  {
    DivBounds(m + cycles / 2, cycles);
  }

  lemma Negated(q: int, cycles: nat)
    requires q >= 0
    ensures (-q) * cycles == -(q * cycles) && q * cycles >= 0
  {
  }

  // EAR alone, on the mixer itself: the sample that is queued is 2048 on both sides.
  method Click(m: Mixer, ear: bool, cycles: nat)
    requires m.Valid() && m.slices == [] && !m.excI && m.muteMask == 0 && m.i2s == null && cycles > 0
    modifies m, m.buffer
    ensures m.Valid()
    ensures var s := if ear then 2048 else 0;
            m.Queue() == QueueStep(old(m.Queue()), Emit(Sample(s, s)))
  {
    m.Accumulate(Beeper(ear, false, false), SILENT, MID_DAC, cycles);
    ghost var l := MixOf(Beeper(ear, false, false), Level(0, 0), MID_DAC, Level(512, 512), false, 0);
    RestLevel(MID_DAC, false, 0);
    BeeperWeights(NO_BEEPER, Level(0, 0), MID_DAC, Level(512, 512), false, 0);
    assert !Bit(0, 16);
    assert m.slices == [Slice(l, cycles)];
    OneSlice(l, cycles);
    HeldLevelEmits(m.slices, l);
    m.EmitSample();
  }

  lemma OneSlice(l: Level, cycles: nat)
    ensures Cycles([Slice(l, cycles)]) == cycles
  {
    SumsPush([], Slice(l, cycles));
    assert [] + [Slice(l, cycles)] == [Slice(l, cycles)];
  }
}
