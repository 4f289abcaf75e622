/**
 The chip object of src/audio/ay_chip.cpp, its registers and generators updated
 in place.  Its outputs are cached: Tick recomputes them only on a divider pulse
 or when `dirty` is set.  Every method's contract is the always-recomputing
 function of module Ay on the chip's value, so the cache is invisible.
 */
module AyChipClass {
  import opened Common
  import opened Ay

  class AyChip {
    var port: Port
    var div: Divider
    var tones: Tones
    var noise: Noise
    var env: Envelope
    var out: Levels
    var dirty: bool

    ghost function View(): Chip
      reads this
    {
      Chip(port, div, tones, noise, env, out)
    }

    // Outputs that are not marked dirty are up to date.
    ghost predicate Valid()
      reads this
    {
      dirty || out == Output(View())
    }

    constructor (id: nat)
      ensures Valid() && View() == PoweredOn(id % 4, true)
    {
      port := Port(id % 4, true, RESET_REGS, 0);
      div := Divider(0, false, false, false);
      tones := [Tone(0, false), Tone(0, false), Tone(0, false)];
      noise := Noise(0, 0, false);
      env := Envelope(0, false, false, Ramp(0, false, false));
      out := QUIET;
      dirty := true;
    }

    method Reset()
      requires Valid()
      modifies this
      ensures Valid() && View() == Ay.Reset(old(View()))
    {
      if env.reset { LoadEnvelope(); }
      port := Port(port.id, port.ayMode, RESET_REGS, 0);
      out := QUIET;
      dirty := true;
    }

    method PowerOn()
      requires Valid()
      modifies this
      ensures Valid() && View() == PoweredOn(old(port.id), old(port.ayMode))
    {
      port := Port(port.id, port.ayMode, RESET_REGS, 0);
      div := Divider(0, false, false, false);
      tones := [Tone(0, false), Tone(0, false), Tone(0, false)];
      noise := Noise(0, 0, false);
      env := Envelope(0, false, false, Ramp(0, false, false));
      out := QUIET;
      dirty := true;
    }

    method LoadEnvelope()
      modifies this`env, this`dirty
      ensures dirty && View() == Ay.LoadEnvelope(old(View()))
    {
      dirty := true;
      if !Bit(port.reg[13], 4) {
        env := Envelope(0, true, false, Ramp(31, false, false));
      } else {
        env := Envelope(0, true, false, Ramp(0, true, false));
      }
    }

    method SelectRegister(a: byte)
      requires Valid()
      modifies this`port
      ensures Valid() && View() == Select(old(View()), a)
    {
      port := port.(addr := a % 32);
    }

    method WriteData(val: byte)
      requires Valid()
      modifies this
      ensures Valid() && View() == Write(old(View()), val)
    {
      if Bit(port.addr, 16) { return; }
      port := port.(reg := port.reg[port.addr % 16 := val]);
      dirty := true;
      if port.addr % 16 == 13 { env := env.(reset := true); }
    }

    method SetAyMode(ay: bool)
      requires Valid()
      modifies this
      ensures Valid() && View() == SetMode(old(View()), ay)
    {
      port := port.(ayMode := ay);
      dirty := true;
    }

    method MarkDirty()
      modifies this`dirty
      ensures Valid()
    {
      dirty := true;
    }

    // A state load: every declared field, whatever the outputs were.
    method Restore(c: Chip)
      modifies this
      ensures View() == c.(port := c.port.(id := old(port.id))) && dirty == old(dirty)
    {
      port, div, tones := c.port.(id := port.id), c.div, c.tones;
      noise, env, out := c.noise, c.env, c.out;
    }

    // One clock tick; tells whether an output changed.
    method Tick() returns (changed: bool)
      requires Valid()
      modifies this
      ensures Valid() && View() == Ay.Tick(old(View()))
      ensures changed <==> old(out) != out
    {
      ghost var before := View();
      UpdateGenerators();
      if !div.ena && !dirty {
        QuietTick(before);
        return false;
      }
      dirty := false;
      var was := out;
      UpdateOutput();
      changed := was.a != out.a || was.b != out.b || was.c != out.c;
    }

    // The generators' share of a tick.
    method UpdateGenerators()
      modifies this
      ensures View() == Generate(old(View())) && dirty == (old(dirty) || old(env.reset))
    {
      if env.reset { LoadEnvelope(); }
      UpdateDivider();
      if div.ena {
        UpdateToneGenerators();
        UpdateEnvelope();
      }
      if div.enaNoise { UpdateNoiseGenerator(); }
    }

    method UpdateDivider()
      modifies this`div
      ensures div == DividerStep(old(div))
    {
      div := div.(ena := false, enaNoise := false);
      if div.cnt == 0 {
        var previous := div.noiseDiv;
        div := Divider(7, !previous, true, false);
        if previous { div := div.(enaNoise := true); }
      } else {
        div := div.(cnt := div.cnt - 1);
      }
    }

    method UpdateToneGenerators()
      modifies this`tones
      ensures tones == TonesStep(port.reg, old(tones))
    {
      for i := 0 to 3
        invariant forall k | i <= k < 3 :: tones[k] == old(tones)[k]
        invariant forall k | 0 <= k < i :: tones[k] == ToneStep(old(tones)[k], Comp(TonePeriod(port.reg, k)))
      {
        var comp := Comp(TonePeriod(port.reg, i));
        if tones[i].cnt >= comp {
          tones := tones[i := Tone(0, !tones[i].op)];
        } else {
          tones := tones[i := tones[i].(cnt := tones[i].cnt + 1)];
        }
      }
    }

    method UpdateNoiseGenerator()
      modifies this`noise
      ensures noise == NoiseStep(port.reg, old(noise))
    {
      if noise.cnt >= Comp(NoisePeriod(port.reg)) {
        noise := noise.(cnt := 0, poly := LfsrStep(noise.poly));
      } else {
        noise := noise.(cnt := noise.cnt + 1);
      }
      noise := noise.(op := Bit(noise.poly, 1));
    }

    method UpdateEnvelope()
      modifies this`env
      ensures env == EnvelopeStep(port.reg, old(env))
    {
      if env.cnt >= Comp(EnvPeriod(port.reg)) {
        env := env.(cnt := 0, ena := true);
      } else {
        env := env.(cnt := env.cnt + 1, ena := false);
        return;
      }
      var pre := env.ramp;
      var isZero, isOnes := pre.vol / 2 % 16 == 0, pre.vol / 2 % 16 == 15;
      var odd := pre.vol % 2 == 1;
      var ramp := pre;
      if !pre.hold {
        if pre.inc {
          ramp := ramp.(vol := (pre.vol + 1) % 32);
        } else {
          ramp := ramp.(vol := (pre.vol + 31) % 32);
        }
      }
      var shape := port.reg[13] % 16;
      if !Bit(shape, 8) {
        if (if pre.inc then isOnes else isZero) && odd { ramp := ramp.(hold := true); }
      } else if Bit(shape, 1) {
        if !pre.inc {
          if isZero && odd != Bit(shape, 2) { ramp := ramp.(hold := true); }
        } else {
          if isOnes && odd == Bit(shape, 2) { ramp := ramp.(hold := true); }
        }
      } else if Bit(shape, 2) {
        if !pre.inc {
          if isZero && odd { ramp := ramp.(hold := true); }
          if isZero && !odd { ramp := ramp.(hold := false, inc := true); }
        } else {
          if isOnes && !odd { ramp := ramp.(hold := true); }
          if isOnes && odd { ramp := ramp.(hold := false, inc := false); }
        }
      }
      env := env.(ramp := ramp);
    }

    method UpdateOutput()
      modifies this`out
      ensures out == Output(old(View()))
    {
      ghost var c := View();
      var vol := [0, 0, 0];
      for i := 0 to 3
        invariant |vol| == 3 && forall k | 0 <= k < 3 :: 0 <= vol[k] < 32
        invariant forall k | 0 <= k < i :: vol[k] == Volume(c, k)
      {
        var toneOff := Bit(port.reg[7], if i == 0 then 1 else if i == 1 then 2 else 4);
        var noiseOff := Bit(port.reg[7], if i == 0 then 8 else if i == 1 then 16 else 32);
        var level := 0;
        if (toneOff || tones[i].op) && (noiseOff || noise.op) {
          var volReg := port.reg[8 + i];
          if Bit(volReg, 16) {
            level := env.ramp.vol % 32;
          } else {
            var fixed := volReg % 16;
            level := if fixed == 0 then 0 else 2 * fixed + 1;
          }
        }
        vol := vol[i := level];
      }
      if port.ayMode {
        out := Levels(VOL_AY[vol[0] / 2], VOL_AY[vol[1] / 2], VOL_AY[vol[2] / 2]);
      } else {
        out := Levels(VOL_YM[vol[0]], VOL_YM[vol[1]], VOL_YM[vol[2]]);
      }
    }
  }
}
