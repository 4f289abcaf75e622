/**
 Where every generator of a chip stands after n ticks, in closed form, while the
 registers stay put: the /8 divider, the tones, the noise shift register and
 the envelope with its sixteen shapes.
 */
module AyTiming {
  import opened Common
  import opened Ay

  function Ticks(c: Chip, n: nat): Chip { if n == 0 then c else Tick(Ticks(c, n - 1)) }

  // The generators alone.
  function Gens(c: Chip, n: nat): Chip { if n == 0 then c else Generate(Gens(c, n - 1)) }

  lemma GenerateIgnoresOut(c: Chip, out: Levels)
    ensures Generate(c.(out := out)) == Generate(c).(out := out)
  {
  }

  // The outputs never feed back.
  lemma {:induction false} TicksAreGens(c: Chip, n: nat)
    ensures Ticks(c, n) == Gens(c, n).(out := Ticks(c, n).out)
  {
    if n > 0 {
      TicksAreGens(c, n - 1);
      GenerateIgnoresOut(Gens(c, n - 1), Ticks(c, n - 1).out);
    }
  }

  // Pulses between two counts: periods 0 and 1 both mean every pulse.
  function Every(period: nat): (e: nat)
    ensures e > 0
  {
    if period < 2 then 1 else period
  }

  function Flip(b: bool, times: nat): bool { b != (times % 2 == 1) }

  // A counter after p pulses, and how often it fired.
  datatype Beat = Beat(cnt: nat, fires: nat)

  function BeatAt(cnt: nat, comp: nat, p: nat): Beat {
    if p == 0 then Beat(cnt, 0)
    else
      var b := BeatAt(cnt, comp, p - 1);
      if b.cnt >= comp then Beat(0, b.fires + 1) else Beat(b.cnt + 1, b.fires)
  }

  lemma MulStep(e: nat, k: nat)
    ensures e * (k + 1) == e * k + e
  {
  }

  lemma {:induction false} BeatBalance(cnt: nat, period: nat, p: nat)
    requires cnt < Every(period)
    ensures var b := BeatAt(cnt, Comp(period), p);
            b.cnt < Every(period) && b.cnt + Every(period) * b.fires == cnt + p
  {
    if p > 0 {
      BeatBalance(cnt, period, p - 1);
      MulStep(Every(period), BeatAt(cnt, Comp(period), p - 1).fires);
    }
  }

  lemma MulAtLeast(e: nat, k: nat)
    requires k >= 1
    ensures e * k >= e
  {
    MulStep(e, k - 1);
  }

  lemma QuotientUnique(e: nat, q: nat, r: nat, q': nat, r': nat)
    requires r < e && r' < e && r + e * q == r' + e * q'
    ensures q == q' && r == r'
  {
    if q > q' {
      assert e * (q - q') == e * q - e * q';
      MulAtLeast(e, q - q');
    } else if q < q' {
      assert e * (q' - q) == e * q' - e * q;
      MulAtLeast(e, q' - q);
    }
  }

  // Where a counter stands within its period. One left at or above it, when the
  // period was lowered meanwhile, fires on its next pulse: as one on the last place.
  function Phase(cnt: nat, period: nat): (f: nat)
    ensures f < Every(period)
  {
    if cnt < Every(period) then cnt else Every(period) - 1
  }

  lemma {:induction false} OverdueFires(cnt: nat, period: nat, p: nat)
    requires cnt >= Every(period) && p > 0
    ensures BeatAt(cnt, Comp(period), p) == BeatAt(Every(period) - 1, Comp(period), p)
  {
    if p > 1 {
      OverdueFires(cnt, period, p - 1);
    } else {
      assert BeatAt(cnt, Comp(period), 0) == Beat(cnt, 0);
      assert BeatAt(Every(period) - 1, Comp(period), 0) == Beat(Every(period) - 1, 0);
    }
  }

  // After p pulses a counter has fired (phase + p) / period times.
  lemma BeatIs(cnt: nat, period: nat, p: nat, q: nat, r: nat)
    requires r < Every(period) && Phase(cnt, period) + p == r + Every(period) * q
    ensures var b := BeatAt(cnt, Comp(period), p);
            b.fires == q && (p > 0 || cnt < Every(period) ==> b.cnt == r)
  {
    var f := Phase(cnt, period);
    BeatBalance(f, period, p);
    var b := BeatAt(f, Comp(period), p);
    QuotientUnique(Every(period), q, r, b.fires, b.cnt);
    if cnt >= Every(period) && p > 0 {
      OverdueFires(cnt, period, p);
    }
  }

  // ------------------------------------------- the generators one by one ----

  function DivAt(c: Chip, n: nat): Divider { if n == 0 then c.div else DividerStep(DivAt(c, n - 1)) }

  function TonesAt(c: Chip, n: nat): Tones {
    if n == 0 then c.tones
    else if DivAt(c, n).ena then TonesStep(c.port.reg, TonesAt(c, n - 1))
    else TonesAt(c, n - 1)
  }

  function NoiseAt(c: Chip, n: nat): Noise {
    if n == 0 then c.noise
    else if DivAt(c, n).enaNoise then NoiseStep(c.port.reg, NoiseAt(c, n - 1))
    else NoiseAt(c, n - 1)
  }

  function EnvAt(c: Chip, n: nat): Envelope {
    if n == 0 then c.env
    else if DivAt(c, n).ena then EnvelopeStep(c.port.reg, EnvAt(c, n - 1))
    else EnvAt(c, n - 1)
  }

  lemma {:induction false} NoReload(c: Chip, n: nat)
    requires !c.env.reset
    ensures !EnvAt(c, n).reset
  {
    if n > 0 { NoReload(c, n - 1); }
  }

  lemma {:induction false} GensParts(c: Chip, n: nat)
    requires !c.env.reset
    ensures Gens(c, n) == Chip(c.port, DivAt(c, n), TonesAt(c, n), NoiseAt(c, n), EnvAt(c, n), c.out)
  {
    if n > 0 {
      GensParts(c, n - 1);
      NoReload(c, n - 1);
    }
  }

  // What n ticks leave of each generator.
  lemma TicksParts(c: Chip, n: nat)
    requires !c.env.reset
    ensures var t := Ticks(c, n);
            && t.port == c.port && t.div == DivAt(c, n) && t.tones == TonesAt(c, n)
            && t.noise == NoiseAt(c, n) && t.env == EnvAt(c, n)
  {
    TicksAreGens(c, n);
    GensParts(c, n);
  }

  // A pending load happens at the start of the first tick.
  function Started(c: Chip): Chip { if c.env.reset then LoadEnvelope(c) else c }

  lemma {:induction false} LoadIsFirst(c: Chip, n: nat)
    requires c.env.reset && n > 0
    ensures Ticks(c, n) == Ticks(LoadEnvelope(c), n)
  {
    if n > 1 { LoadIsFirst(c, n - 1); }
  }

  // The divider, the tones and the noise do not look at the envelope.
  lemma {:induction false} EnvelopeApart(c: Chip, n: nat)
    ensures var s := Started(c);
            DivAt(s, n) == DivAt(c, n) && TonesAt(s, n) == TonesAt(c, n) && NoiseAt(s, n) == NoiseAt(c, n)
  {
    if n > 0 { EnvelopeApart(c, n - 1); }
  }

  // Hence what n ticks leave of the generators, with a load pending or not.
  lemma AnyTicksParts(c: Chip, n: nat)
    ensures Ticks(c, n).tones == TonesAt(c, n) && Ticks(c, n).noise == NoiseAt(c, n)
    ensures n > 0 || !c.env.reset ==> Ticks(c, n).env == EnvAt(Started(c), n)
  {
    if n > 0 || !c.env.reset {
      if c.env.reset { LoadIsFirst(c, n); }
      TicksParts(Started(c), n);
      EnvelopeApart(c, n);
    }
  }

  // -------------------------------------------------------- the divider ----

  // Divider pulses in n ticks, from a divider that has `cnt` ticks to go.
  function Pulses(cnt: nat, n: nat): nat
    requires cnt <= 7
  {
    (n + 7 - cnt) / 8
  }

  // Noise pulses among p divider pulses: every second one.
  function NoisePulses(noiseDiv: bool, p: nat): nat { (p + (if noiseDiv then 1 else 0)) / 2 }

  // The divider's count against the ticks seen: both turn with period 8.
  lemma CountDown(cnt: nat, n: nat)
    requires cnt <= 7
    ensures (cnt + 7 * n) % 8 == 7 - (n + 7 - cnt) % 8
  {
    var q, r := (n + 7 - cnt) / 8, (n + 7 - cnt) % 8;
    assert cnt + 7 * n == 8 * (n - q) + (7 - r);
  }

  lemma NextEighth(m: nat)
    ensures (m + 1) / 8 == m / 8 + (if m % 8 == 7 then 1 else 0)
    ensures (m + 1) % 8 == if m % 8 == 7 then 0 else m % 8 + 1
  {
  }

  lemma PulseStep(cnt: nat, n: nat)
    requires cnt <= 7
    ensures var x := (cnt + 7 * n) % 8;
            if x == 0 then (cnt + 7 * (n + 1)) % 8 == 7 && Pulses(cnt, n + 1) == Pulses(cnt, n) + 1
            else (cnt + 7 * (n + 1)) % 8 == x - 1 && Pulses(cnt, n + 1) == Pulses(cnt, n)
  {
    CountDown(cnt, n);
    CountDown(cnt, n + 1);
    NextEighth(n + 7 - cnt);
  }

  lemma FlipStep(b: bool, p: nat)
    ensures Flip(b, p + 1) == !Flip(b, p)
    ensures NoisePulses(b, p + 1) == NoisePulses(b, p) + (if Flip(b, p) then 1 else 0)
  {
  }

  lemma {:induction false} DividerAfter(c: Chip, n: nat)
    requires c.div.cnt <= 7
    ensures var d := DivAt(c, n);
            && d.cnt == (c.div.cnt + 7 * n) % 8
            && d.noiseDiv == Flip(c.div.noiseDiv, Pulses(c.div.cnt, n))
  {
    if n > 0 {
      DividerAfter(c, n - 1);
      PulseStep(c.div.cnt, n - 1);
      FlipStep(c.div.noiseDiv, Pulses(c.div.cnt, n - 1));
    }
  }

  // The pulse and noise-pulse counts move exactly when the strobes fire.
  lemma StrobesCount(c: Chip, n: nat)
    requires c.div.cnt <= 7 && n > 0
    ensures var d := DivAt(c, n);
            var p, p' := Pulses(c.div.cnt, n - 1), Pulses(c.div.cnt, n);
            && p' == p + (if d.ena then 1 else 0)
            && NoisePulses(c.div.noiseDiv, p')
               == NoisePulses(c.div.noiseDiv, p) + (if d.enaNoise then 1 else 0)
  {
    DividerAfter(c, n - 1);
    PulseStep(c.div.cnt, n - 1);
    FlipStep(c.div.noiseDiv, Pulses(c.div.cnt, n - 1));
  }

  // ---------------------------------------------------------- the tones ----

  lemma {:induction false} ToneBeats(c: Chip, ch: nat, n: nat)
    requires ch < 3 && c.div.cnt <= 7
    ensures var b := BeatAt(c.tones[ch].cnt, Comp(TonePeriod(c.port.reg, ch)), Pulses(c.div.cnt, n));
            TonesAt(c, n)[ch] == Tone(b.cnt, Flip(c.tones[ch].op, b.fires))
  {
    if n > 0 {
      ToneBeats(c, ch, n - 1);
      StrobesCount(c, n);
      FlipStep(c.tones[ch].op,
               BeatAt(c.tones[ch].cnt, Comp(TonePeriod(c.port.reg, ch)), Pulses(c.div.cnt, n - 1)).fires);
    }
  }

  // For the quotient q and remainder r of (phase + pulses) by the period: the
  // tone has toggled q times, and its counter stands at r once it has been pulsed.
  lemma ToneAfter(c: Chip, ch: nat, n: nat, q: nat, r: nat)
    requires ch < 3 && c.div.cnt <= 7
    requires var period := TonePeriod(c.port.reg, ch);
             r < Every(period) && Phase(c.tones[ch].cnt, period) + Pulses(c.div.cnt, n) == r + Every(period) * q
    ensures var t := Ticks(c, n).tones[ch];
            && t.op == Flip(c.tones[ch].op, q)
            && (Pulses(c.div.cnt, n) > 0 || c.tones[ch].cnt < Every(TonePeriod(c.port.reg, ch)) ==> t.cnt == r)
  {
    AnyTicksParts(c, n);
    ToneBeats(c, ch, n);
    BeatIs(c.tones[ch].cnt, TonePeriod(c.port.reg, ch), Pulses(c.div.cnt, n), q, r);
  }

  // ---------------------------------------------------------- the noise ----

  function Lfsr(p: nat, k: nat): nat { if k == 0 then p else LfsrStep(Lfsr(p, k - 1)) }

  lemma {:induction false} NoiseBeats(c: Chip, n: nat)
    requires c.div.cnt <= 7
    ensures var q := NoisePulses(c.div.noiseDiv, Pulses(c.div.cnt, n));
            var b := BeatAt(c.noise.cnt, Comp(NoisePeriod(c.port.reg)), q);
            var poly := Lfsr(c.noise.poly, b.fires);
            NoiseAt(c, n) == Noise(b.cnt, poly, if q == 0 then c.noise.op else Bit(poly, 1))
  {
    if n > 0 {
      NoiseBeats(c, n - 1);
      StrobesCount(c, n);
    }
  }

  // Likewise for noise pulses: the shift register has stepped q times.
  lemma NoiseAfter(c: Chip, n: nat, q: nat, r: nat)
    requires c.div.cnt <= 7
    requires var period := NoisePeriod(c.port.reg);
             && r < Every(period)
             && Phase(c.noise.cnt, period) + NoisePulses(c.div.noiseDiv, Pulses(c.div.cnt, n)) == r + Every(period) * q
    ensures var t := Ticks(c, n).noise;
            && t.poly == Lfsr(c.noise.poly, q)
            && (NoisePulses(c.div.noiseDiv, Pulses(c.div.cnt, n)) > 0 || c.noise.cnt < Every(NoisePeriod(c.port.reg))
                ==> t.cnt == r)
  {
    AnyTicksParts(c, n);
    NoiseBeats(c, n);
    BeatIs(c.noise.cnt, NoisePeriod(c.port.reg),
           NoisePulses(c.div.noiseDiv, Pulses(c.div.cnt, n)), q, r);
  }

  // The step back: bit 16 and bit 1 give the bit that was shifted out.
  function LfsrBack(q: nat): nat {
    2 * (q % 65536) + (if Bit(q, 65536) != Bit(q, 2) then 1 else 0)
  }

  // A nonzero 17-bit state as its low two bits and the rest.
  lemma LfsrDigits(a: nat, b: nat, c: nat)
    requires a < 32768 && b < 2 && c < 2 && 4 * a + 2 * b + c > 0
    ensures LfsrStep(4 * a + 2 * b + c) == 2 * a + b + (if c != a % 2 then 65536 else 0)
  {
    var p := 4 * a + 2 * b + c;
    assert p / 2 == 2 * a + b && p / 4 == a && p / 1 % 2 == c;
    assert p / 2 / 65536 == 0;
  }

  lemma LfsrBackDigits(a: nat, b: nat, top: nat)
    requires a < 32768 && b < 2 && top < 2
    ensures LfsrBack(65536 * top + 2 * a + b) == 4 * a + 2 * b + (if top != a % 2 then 1 else 0)
  {
    var q := 65536 * top + 2 * a + b;
    assert q % 65536 == 2 * a + b && q / 65536 == top;
    assert q / 2 == 32768 * top + a;
    assert q / 2 % 2 == a % 2;
  }

  lemma LfsrForthAndBack(p: nat)
    requires 0 < p < 131072
    ensures 0 < LfsrStep(p) < 131072 && LfsrBack(LfsrStep(p)) == p
  {
    var a, b, c := p / 4, p / 2 % 2, p % 2;
    assert p == 4 * a + 2 * b + c;
    LfsrDigits(a, b, c);
    LfsrBackDigits(a, b, if c != a % 2 then 1 else 0);
  }

  lemma LfsrBackAndForth(p: nat)
    requires 0 < p < 131072
    ensures 0 < LfsrBack(p) < 131072 && LfsrStep(LfsrBack(p)) == p
  {
    var top, a, b := p / 65536, p % 65536 / 2, p % 2;
    assert p == 65536 * top + 2 * a + b;
    LfsrBackDigits(a, b, top);
    LfsrDigits(a, b, if top != a % 2 then 1 else 0);
  }

  // On the 131071 nonzero 17-bit states the step is a bijection, and 0 leaves
  // at once: the register never sticks.
  lemma LfsrIsReversible(p: nat)
    requires p < 131072
    ensures LfsrStep(0) == 65536
    ensures p > 0 ==> 0 < LfsrStep(p) < 131072 && LfsrBack(LfsrStep(p)) == p
    ensures p > 0 ==> 0 < LfsrBack(p) < 131072 && LfsrStep(LfsrBack(p)) == p
  {
    assert LfsrStep(0) == 65536;
    if p > 0 {
      LfsrForthAndBack(p);
      LfsrBackAndForth(p);
    }
  }

  lemma {:induction false} LfsrNeverSticks(k: nat)
    ensures k > 0 ==> 0 < Lfsr(0, k) < 131072
  {
    if k > 0 {
      LfsrNeverSticks(k - 1);
      LfsrIsReversible(Lfsr(0, k - 1));
    }
  }

  // ------------------------------------------------------- the envelope ----

  function RampAfter(e: Ramp, shape: nat, k: nat): Ramp {
    if k == 0 then e else RampStep(RampAfter(e, shape, k - 1), shape)
  }

  // The sixteen shapes as drawings: the volume k steps after the load.
  function Drawn(shape: nat, k: nat): nat
    requires shape < 16
  {
    var down, up := if k < 31 then 31 - k else 0, if k < 31 then k else 31;
    var m := k % 64;
    if shape < 4 || shape == 9 then down
    else if shape < 8 || shape == 15 then if k <= 31 then k else 0
    else if shape == 8 then 31 - k % 32
    else if shape == 12 then k % 32
    else if shape == 11 then if k <= 31 then 31 - k else 31
    else if shape == 13 then up
    else if shape == 10 then if m < 32 then 31 - m else m - 32
    else if m < 32 then m else 63 - m
  }

  // Direction and hold that go with the drawing.
  function DrawnRamp(shape: nat, k: nat): Ramp
    requires shape < 16
  {
    var vol := Drawn(shape, k);
    var m := k % 64;
    if shape == 10 then Ramp(vol, m >= 32, m == 31 || m == 63)
    else if shape == 14 then Ramp(vol, m < 32, m == 31 || m == 63)
    else if shape == 8 || shape == 12 then Ramp(vol, shape == 12, false)
    else
      var stop := if shape < 4 || shape == 9 || shape == 13 then 31 else 32;
      Ramp(vol, Bit(shape, 4), k >= stop)
  }

  // The boundary tests of a step are plain comparisons, the shape bits a range.
  lemma RampStepReads(e: Ramp, shape: nat)
    requires e.vol < 32 && shape < 16
    ensures var vol := if e.hold then e.vol
                       else if e.inc then (if e.vol == 31 then 0 else e.vol + 1)
                       else (if e.vol == 0 then 31 else e.vol - 1);
            RampStep(e, shape) ==
            if shape < 8 then Ramp(vol, e.inc, e.hold || e.vol == (if e.inc then 31 else 1))
            else if shape == 8 || shape == 12 then Ramp(vol, e.inc, e.hold)
            else if shape == 10 || shape == 14 then
              if !e.inc then
                if e.vol == 0 then Ramp(vol, true, false) else Ramp(vol, false, e.hold || e.vol == 1)
              else
                if e.vol == 31 then Ramp(vol, false, false) else Ramp(vol, true, e.hold || e.vol == 30)
            else
              var two := shape == 11 || shape == 15;
              var stop := if !e.inc then (if two then 0 else 1) else (if two then 31 else 30);
              Ramp(vol, e.inc, e.hold || e.vol == stop)
  {
    assert Bit(shape, 8) <==> shape >= 8;
    assert Bit(shape, 1) <==> shape in {1, 3, 5, 7, 9, 11, 13, 15};
    assert Bit(shape, 2) <==> shape in {2, 3, 6, 7, 10, 11, 14, 15};
    assert e.vol / 2 % 16 == e.vol / 2;
  }

  lemma Ramps(shape: nat, k: nat)
    requires shape < 16 && shape != 8 && shape != 12 && shape != 10 && shape != 14
    ensures RampStep(DrawnRamp(shape, k), shape) == DrawnRamp(shape, k + 1)
  {
    RampStepReads(DrawnRamp(shape, k), shape);
    assert Bit(shape, 4) <==> shape in {4, 5, 6, 7, 12, 13, 14, 15};
  }

  lemma Saws(shape: nat, k: nat)
    requires shape == 8 || shape == 12
    ensures RampStep(DrawnRamp(shape, k), shape) == DrawnRamp(shape, k + 1)
  {
    RampStepReads(DrawnRamp(shape, k), shape);
    assert (k + 1) % 32 == if k % 32 == 31 then 0 else k % 32 + 1;
  }

  lemma Triangles(shape: nat, k: nat)
    requires shape == 10 || shape == 14
    ensures RampStep(DrawnRamp(shape, k), shape) == DrawnRamp(shape, k + 1)
  {
    RampStepReads(DrawnRamp(shape, k), shape);
    assert (k + 1) % 64 == if k % 64 == 63 then 0 else k % 64 + 1;
  }

  // Every shape, every number of steps.
  lemma {:induction false} EnvelopeIsDrawn(shape: nat, k: nat)
    requires shape < 16
    ensures RampAfter(LoadRamp(shape), shape, k) == DrawnRamp(shape, k)
  {
    if k > 0 {
      EnvelopeIsDrawn(shape, k - 1);
      if shape == 10 || shape == 14 {
        Triangles(shape, k - 1);
      } else if shape == 8 || shape == 12 {
        Saws(shape, k - 1);
      } else {
        Ramps(shape, k - 1);
      }
    }
  }

  // One divider pulse for an envelope that has kept step for p of them.
  lemma EnvelopeBeat(reg: Regs, env: Envelope, cnt: nat, ramp: Ramp, p: nat)
    requires var b := BeatAt(cnt, Comp(EnvPeriod(reg)), p);
             env.cnt == b.cnt && env.ramp == RampAfter(ramp, reg[13] % 16, b.fires)
    ensures var b := BeatAt(cnt, Comp(EnvPeriod(reg)), p + 1);
            var next := EnvelopeStep(reg, env);
            next.cnt == b.cnt && next.ramp == RampAfter(ramp, reg[13] % 16, b.fires)
  {
  }

  lemma {:induction false} EnvelopeBeats(c: Chip, n: nat)
    requires c.div.cnt <= 7
    ensures var b := BeatAt(c.env.cnt, Comp(EnvPeriod(c.port.reg)), Pulses(c.div.cnt, n));
            var env := EnvAt(c, n);
            env.cnt == b.cnt && env.ramp == RampAfter(c.env.ramp, c.port.reg[13] % 16, b.fires)
  {
    if n > 0 {
      EnvelopeBeats(c, n - 1);
      StrobesCount(c, n);
      if DivAt(c, n).ena {
        EnvelopeBeat(c.port.reg, EnvAt(c, n - 1), c.env.cnt, c.env.ramp, Pulses(c.div.cnt, n - 1));
      }
    }
  }

  // And for the envelope, from any phase of any ramp; a pending load comes first.
  lemma EnvelopeAfter(c: Chip, n: nat, q: nat, r: nat)
    requires c.div.cnt <= 7 && (n > 0 || !c.env.reset)
    requires var period := EnvPeriod(c.port.reg);
             && r < Every(period)
             && Phase(Started(c).env.cnt, period) + Pulses(c.div.cnt, n) == r + Every(period) * q
    ensures Ticks(c, n).env.ramp == RampAfter(Started(c).env.ramp, c.port.reg[13] % 16, q)
  {
    AnyTicksParts(c, n);
    EnvelopeBeats(Started(c), n);
    BeatIs(Started(c).env.cnt, EnvPeriod(c.port.reg), Pulses(c.div.cnt, n), q, r);
  }

  // What a write to R13 starts.
  lemma WriteLoads(c: Chip, val: byte)
    requires c.port.addr == 13
    ensures var w := Write(c, val);
            var l := LoadEnvelope(w);
            && w.env.reset && !l.env.reset && l.env.cnt == 0 && l.div == c.div
            && l.port.reg[13] == val && EnvPeriod(l.port.reg) == EnvPeriod(c.port.reg)
            && l.env.ramp == LoadRamp(val % 16)
  {
    assert !Bit(13, 16);
    assert Bit(val, 4) == Bit(val % 16, 4);
  }

  // After a write to R13, whatever the chip was doing, the volume n ticks later
  // is the drawn shape at q = (divider pulses / envelope period) steps.
  lemma EnvelopeAfterWrite(c: Chip, val: byte, n: nat, q: nat, r: nat)
    requires c.div.cnt <= 7 && c.port.addr == 13 && n > 0
    requires var e := Every(EnvPeriod(c.port.reg));
             r < e && Pulses(c.div.cnt, n) == r + e * q
    ensures Ticks(Write(c, val), n).env.ramp.vol == Drawn(val % 16, q)
  {
    WriteLoads(c, val);
    EnvelopeAfter(Write(c, val), n, q, r);
    EnvelopeIsDrawn(val % 16, q);
  }

  // Where the shapes end up: at rest at 0 or at 31, or repeating for ever.
  lemma ShapesSettle(shape: nat, k: nat)
    requires shape < 16 && k >= 32
    ensures shape < 8 || shape == 9 || shape == 15 ==> Drawn(shape, k) == 0
    ensures shape == 11 || shape == 13 ==> Drawn(shape, k) == 31
  {
  }

  // Saws repeat every 32 steps; triangles every 64, standing still for exactly
  // one step at each rail.
  lemma ShapesRepeat(shape: nat, k: nat)
    requires shape == 8 || shape == 10 || shape == 12 || shape == 14
    ensures shape == 8 || shape == 12 ==> Drawn(shape, k + 32) == Drawn(shape, k)
    ensures shape == 10 || shape == 14 ==>
              && Drawn(shape, k + 64) == Drawn(shape, k)
              && (Drawn(shape, k + 1) == Drawn(shape, k) <==> k % 64 == 31 || k % 64 == 63)
  {
    assert (k + 32) % 32 == k % 32 && (k + 64) % 64 == k % 64;
    assert (k + 1) % 64 == if k % 64 == 63 then 0 else k % 64 + 1;
  }

  // From power-on, any registers: the divider has fired (n + 7) / 8 times, half
  // of those clock the noise, and toggles and shifts are plain quotients.
  lemma FromPowerOn(id: nat, ayMode: bool, reg: Regs, ch: nat, n: nat, tq: nat, tr: nat, nq: nat, nr: nat)
    requires ch < 3
    requires var e := Every(TonePeriod(reg, ch)); tr < e && (n + 7) / 8 == tr + e * tq
    requires var e := Every(NoisePeriod(reg)); nr < e && (n + 7) / 8 / 2 == nr + e * nq
    ensures var on := PoweredOn(id, ayMode);
            var c := Ticks(on.(port := on.port.(reg := reg)), n);
            c.tones[ch] == Tone(tr, Flip(false, tq)) && c.noise.poly == Lfsr(0, nq)
  {
    var on := PoweredOn(id, ayMode);
    var c0 := on.(port := on.port.(reg := reg));
    ToneAfter(c0, ch, n, tq, tr);
    NoiseAfter(c0, n, nq, nr);
  }
}
