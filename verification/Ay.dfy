/**
 One AY-3-8910/YM2149 chip as a value, after src/audio/ay_chip.cpp: what each
 register access, reset and clock tick makes of it when the outputs are
 recomputed on EVERY tick.  The class in AyChip.dfy, which recomputes only when
 its dirty flag says so, is proved against these functions.
 */
module Ay {
  import opened Common

  type Regs = r: seq<byte> | |r| == 16 witness seq(16, _ => 0)

  // Who the chip is and what its port has stored.
  datatype Port = Port(id: nat, ayMode: bool, reg: Regs, addr: byte)

  datatype Divider = Divider(cnt: nat, noiseDiv: bool, ena: bool, enaNoise: bool)

  datatype Tone = Tone(cnt: nat, op: bool)

  type Tones = t: seq<Tone> | |t| == 3 witness seq(3, _ => Tone(0, false))

  datatype Noise = Noise(cnt: nat, poly: nat, op: bool)

  datatype Ramp = Ramp(vol: byte, inc: bool, hold: bool)

  datatype Envelope = Envelope(cnt: nat, ena: bool, reset: bool, ramp: Ramp)

  datatype Levels = Levels(a: byte, b: byte, c: byte)

  datatype Chip =
    Chip(port: Port, div: Divider, tones: Tones, noise: Noise, env: Envelope, out: Levels)

  const VOL_AY: seq<byte> :=
    [0x00, 0x03, 0x04, 0x06, 0x0a, 0x0f, 0x15, 0x22,
     0x28, 0x41, 0x5b, 0x72, 0x90, 0xb5, 0xd7, 0xff]

  const VOL_YM: seq<byte> :=
    [0x00, 0x01, 0x01, 0x02, 0x02, 0x03, 0x03, 0x04,
     0x06, 0x07, 0x09, 0x0a, 0x0c, 0x0e, 0x11, 0x13,
     0x17, 0x1b, 0x20, 0x25, 0x2c, 0x35, 0x3e, 0x47,
     0x54, 0x66, 0x77, 0x88, 0xa1, 0xc0, 0xe0, 0xff]

  const RESET_REGS: Regs := [0, 0, 0, 0, 0, 0, 0, 0xFF, 0, 0, 0, 0, 0, 0, 0, 0]

  // Bit b (a power of two) of a byte.
  predicate Bit(x: nat, b: nat)
    requires b > 0
  {
    x / b % 2 == 1
  }

  // ------------------------------------------------------- the counters ---

  // The compare value of a period: periods 0 and 1 both mean "every pulse".
  function Comp(period: nat): nat { if period / 2 != 0 then period - 1 else 0 }

  function Word(hi: nat, lo: nat): nat { hi * 256 + lo }

  function TonePeriod(r: Regs, ch: nat): nat
    requires ch < 3
  {
    Word(r[2 * ch + 1] % 16, r[2 * ch])
  }

  function NoisePeriod(r: Regs): nat { r[6] % 32 }

  function EnvPeriod(r: Regs): nat { Word(r[12], r[11]) }

  function DividerStep(d: Divider): Divider {
    if d.cnt == 0 then Divider(7, !d.noiseDiv, true, d.noiseDiv)
    else Divider(d.cnt - 1, d.noiseDiv, false, false)
  }

  function ToneStep(t: Tone, comp: nat): Tone {
    if t.cnt >= comp then Tone(0, !t.op) else Tone(t.cnt + 1, t.op)
  }

  function TonesStep(r: Regs, t: Tones): Tones {
    [ToneStep(t[0], Comp(TonePeriod(r, 0))),
     ToneStep(t[1], Comp(TonePeriod(r, 1))),
     ToneStep(t[2], Comp(TonePeriod(r, 2)))]
  }

  // One shift of the noise register: bit 0 xor bit 2, or 1 when all are 0,
  // or-ed in at bit 16.
  function LfsrStep(p: nat): nat {
    var entering := (Bit(p, 1) != Bit(p, 4)) != (p == 0);
    if entering && !Bit(p / 2, 65536) then p / 2 + 65536 else p / 2
  }

  function NoiseStep(r: Regs, n: Noise): Noise {
    if n.cnt >= Comp(NoisePeriod(r)) then
      var p := LfsrStep(n.poly);
      Noise(0, p, Bit(p, 1))
    else Noise(n.cnt + 1, n.poly, Bit(n.poly, 1))
  }

  // ------------------------------------------------------- the envelope ---

  function LoadRamp(shape: nat): Ramp {
    if !Bit(shape, 4) then Ramp(31, false, false) else Ramp(0, true, false)
  }

  // One envelope step, on the volume and direction as they stood before it.
  function RampStep(e: Ramp, shape: nat): Ramp {
    var half := e.vol / 2 % 16;
    var isBot := half == 0 && e.vol % 2 == 0;
    var isBotP1 := half == 0 && e.vol % 2 == 1;
    var isTopM1 := half == 15 && e.vol % 2 == 0;
    var isTop := half == 15 && e.vol % 2 == 1;
    var vol := if e.hold then e.vol else if e.inc then (e.vol + 1) % 32 else (e.vol + 31) % 32;
    if !Bit(shape, 8) then
      Ramp(vol, e.inc, e.hold || (if e.inc then isTop else isBotP1))
    else if Bit(shape, 1) then
      var stop := if !e.inc then (if Bit(shape, 2) then isBot else isBotP1)
                  else (if Bit(shape, 2) then isTop else isTopM1);
      Ramp(vol, e.inc, e.hold || stop)
    else if Bit(shape, 2) then
      if !e.inc then
        if isBot then Ramp(vol, true, false) else Ramp(vol, false, e.hold || isBotP1)
      else
        if isTop then Ramp(vol, false, false) else Ramp(vol, true, e.hold || isTopM1)
    else Ramp(vol, e.inc, e.hold)
  }

  function EnvelopeStep(r: Regs, e: Envelope): Envelope {
    if e.cnt >= Comp(EnvPeriod(r)) then Envelope(0, true, e.reset, RampStep(e.ramp, r[13] % 16))
    else Envelope(e.cnt + 1, false, e.reset, e.ramp)
  }

  function LoadEnvelope(c: Chip): Chip {
    c.(env := Envelope(0, true, false, LoadRamp(c.port.reg[13])))
  }

  // --------------------------------------------------------- the output ---

  predicate Sounds(c: Chip, ch: nat)
    requires ch < 3
  {
    var r7 := c.port.reg[7];
    var toneOff := Bit(r7, if ch == 0 then 1 else if ch == 1 then 2 else 4);
    var noiseOff := Bit(r7, if ch == 0 then 8 else if ch == 1 then 16 else 32);
    (toneOff || c.tones[ch].op) && (noiseOff || c.noise.op)
  }

  // The 5-bit volume index of a channel.
  function Volume(c: Chip, ch: nat): (v: nat)
    requires ch < 3
    ensures v < 32
  {
    var r := c.port.reg[8 + ch];
    if !Sounds(c, ch) then 0
    else if Bit(r, 16) then c.env.ramp.vol % 32
    else if r % 16 == 0 then 0
    else 2 * (r % 16) + 1
  }

  function Level(ayMode: bool, v: nat): byte
    requires v < 32
  {
    if ayMode then VOL_AY[v / 2] else VOL_YM[v]
  }

  function Output(c: Chip): Levels {
    Levels(Level(c.port.ayMode, Volume(c, 0)), Level(c.port.ayMode, Volume(c, 1)),
           Level(c.port.ayMode, Volume(c, 2)))
  }

  // ------------------------------------------------ accesses and ticks ----

  const QUIET: Levels := Levels(0, 0, 0)

  function Reset(c: Chip): Chip {
    var c1 := if c.env.reset then LoadEnvelope(c) else c;
    c1.(port := Port(c.port.id, c.port.ayMode, RESET_REGS, 0), out := QUIET)
  }

  function PoweredOn(id: nat, ayMode: bool): Chip {
    Chip(Port(id, ayMode, RESET_REGS, 0), Divider(0, false, false, false),
         [Tone(0, false), Tone(0, false), Tone(0, false)], Noise(0, 0, false),
         Envelope(0, false, false, Ramp(0, false, false)), QUIET)
  }

  function Select(c: Chip, addr: byte): Chip { c.(port := c.port.(addr := addr % 32)) }

  function Write(c: Chip, val: byte): Chip {
    if Bit(c.port.addr, 16) then c
    else
      var r := c.port.addr % 16;
      var port := c.port.(reg := c.port.reg[r := val]);
      c.(port := port, env := if r == 13 then c.env.(reset := true) else c.env)
  }

  function Read(p: Port, regMode: bool): byte {
    var r := p.addr % 16;
    if regMode then (p.id * 64 + p.addr % 32) % 256
    else if Bit(p.addr, 16) && !p.ayMode then 0xFF
    else if r == 14 then (if Bit(p.reg[7], 64) then p.reg[14] else 0xFF)
    else if r == 15 then (if Bit(p.reg[7], 128) then p.reg[15] else 0xFF)
    else if !p.ayMode then p.reg[r]
    else if r == 1 || r == 3 || r == 5 || r == 13 then p.reg[r] % 16
    else if r == 6 || r == 8 || r == 9 || r == 10 then p.reg[r] % 32
    else p.reg[r]
  }

  function SetMode(c: Chip, ay: bool): Chip { c.(port := c.port.(ayMode := ay)) }

  // The generators move; the outputs are whatever they were.
  function Generate(c: Chip): Chip {
    var env := if c.env.reset then LoadEnvelope(c).env else c.env;
    var d := DividerStep(c.div);
    var r := c.port.reg;
    c.(div := d,
       tones := if d.ena then TonesStep(r, c.tones) else c.tones,
       env := if d.ena then EnvelopeStep(r, env) else env,
       noise := if d.enaNoise then NoiseStep(r, c.noise) else c.noise)
  }

  // One clock tick, recomputing the outputs unconditionally.
  function Tick(c: Chip): Chip {
    var g := Generate(c);
    g.(out := Output(g))
  }

  // Between divider pulses the outputs cannot move: their inputs do not.
  lemma QuietTick(c: Chip)
    requires c.div.cnt != 0 && !c.env.reset
    ensures Output(Generate(c)) == Output(c)
  {
  }
}
