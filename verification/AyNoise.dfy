/**
 The noise a chip makes, as a sequence of bits, and what its port gives back of
 what was written.
 */
module AyNoise {
  import opened Common
  import opened Ay
  import opened AyTiming

  function Two(j: nat): (p: nat)
    ensures p > 0
  {
    if j == 0 then 1 else 2 * Two(j - 1)
  }

  lemma {:induction false} TwoAdd(i: nat, j: nat)
    ensures Two(i + j) == Two(i) * Two(j)
  {
    if i > 0 { TwoAdd(i - 1, j); }
  }

  lemma DivisionIs(y: nat, m: nat, q: nat, r: nat)
    requires r < m && y == r + m * q
    ensures y / m == q
  {
    assert y == y % m + m * (y / m);
    QuotientUnique(m, q, r, y / m, y % m);
  }

  lemma HalfOf(x: nat, m: nat, a: nat, r: nat)
    requires x == r + 2 * m * a && r < 2 * m
    ensures x / 2 == r / 2 + m * a && r / 2 < m
  {
    assert 2 * m * a == 2 * (m * a);
  }

  lemma Divided(x: nat, e: nat) returns (q: nat, r: nat)
    requires e > 0
    ensures r < e && x == r + e * q && x / e == q
  {
    q, r := x / e, x % e;
  }

  // Halved, with or without 2 * n times m on top, a number has the same bit m as it
  // had at 2 * m.
  lemma ParityKept(x: nat, y: nat, m: nat, n: nat, a: nat, r: nat)
    requires (y == x / 2 || y == x / 2 + m * (2 * n)) && x == r + 2 * m * a && r < 2 * m
    ensures y / m % 2 == a % 2
  {
    HalfOf(x, m, a, r);
    if y == x / 2 {
      DivisionIs(y, m, a, r / 2);
    } else {
      assert m * (a + 2 * n) == m * a + m * (2 * n);
      DivisionIs(y, m, a + 2 * n, r / 2);
    }
  }

  lemma StepHalves(x: nat)
    requires x < 131072
    ensures LfsrStep(x) == x / 2 || LfsrStep(x) == x / 2 + 65536
  {
  }

  lemma SixteenSplits(j: nat)
    requires j < 16
    ensures Two(j + 1) == 2 * Two(j) && Two(j) * (2 * Two(15 - j)) == 65536
  {
    TwoSixteen();
    TwoAdd(j, 16 - j);
    assert Two(16 - j) == 2 * Two(15 - j);
  }

  // A shift moves every bit one place down.
  lemma BitFalls(x: nat, j: nat)
    requires 0 < x < 131072 && j < 16
    ensures Bit(LfsrStep(x), Two(j)) == Bit(x, Two(j + 1))
  {
    StepHalves(x);
    SixteenSplits(j);
    var a, r := Divided(x, Two(j + 1));
    ParityKept(x, LfsrStep(x), Two(j), Two(15 - j), a, r);
  }

  lemma TwoSixteen()
    ensures Two(16) == 65536
  {
    assert Two(4) == 16;
    assert Two(8) == 256;
    assert Two(12) == 4096;
  }

  lemma {:induction false} StaysNonzero(p: nat, k: nat)
    requires 0 < p < 131072
    ensures 0 < Lfsr(p, k) < 131072
  {
    if k > 0 {
      StaysNonzero(p, k - 1);
      LfsrIsReversible(Lfsr(p, k - 1));
    }
  }

  // Bit j comes out j shifts later.
  lemma {:induction false} BitsComeOut(p: nat, k: nat, j: nat)
    requires 0 < p < 131072 && j <= 16
    ensures Bit(Lfsr(p, k), Two(j)) == Bit(Lfsr(p, k + j), 1)
    decreases j
  {
    if j > 0 {
      StaysNonzero(p, k);
      BitFalls(Lfsr(p, k), j - 1);
      assert Lfsr(p, k + 1) == LfsrStep(Lfsr(p, k));
      BitsComeOut(p, k + 1, j - 1);
    }
  }

  // What enters at the top.
  lemma BitEnters(x: nat)
    requires 0 < x < 131072
    ensures Bit(LfsrStep(x), 65536) == (Bit(x, 1) != Bit(x, 4))
  {
    assert x / 2 < 65536;
  }

  lemma LowBits(x: nat, y: nat, z: nat)
    requires Bit(z, 1) == (Bit(x, 1) != Bit(y, 1))
    ensures z % 2 == (x % 2 + y % 2) % 2
  {
    assert x / 1 == x && y / 1 == y && z / 1 == z;
  }

  /** The noise is the sequence in which every bit is the exclusive or of the bits
      17 and 15 before it. */
  lemma NoiseRecurrence(p: nat, k: nat)
    requires 0 < p < 131072
    ensures Lfsr(p, k + 17) % 2 == (Lfsr(p, k) % 2 + Lfsr(p, k + 2) % 2) % 2
  {
    StaysNonzero(p, k);
    BitEnters(Lfsr(p, k));
    assert Lfsr(p, k + 1) == LfsrStep(Lfsr(p, k));
    assert Two(2) == 4;
    TwoSixteen();
    BitsComeOut(p, k + 1, 16);
    BitsComeOut(p, k, 2);
    LowBits(Lfsr(p, k), Lfsr(p, k + 2), Lfsr(p, k + 17));
  }

  // -------------------------------------------------------- the port ------

  // The bits of register r that the AY mode gives back.
  function AyMask(r: nat): nat {
    if r == 1 || r == 3 || r == 5 || r == 13 then 16
    else if r == 6 || r == 8 || r == 9 || r == 10 then 32
    else 256
  }

  // What register r reads as when it holds v and R7 holds r7.
  function ReadsAs(ayMode: bool, r: nat, v: byte, r7: byte): nat {
    if r == 14 then (if r7 / 64 % 2 == 1 then v else 0xFF)
    else if r == 15 then (if r7 / 128 == 1 then v else 0xFF)
    else if ayMode then v % AyMask(r) else v
  }

  lemma SelectedIs(c: Chip, a: byte)
    ensures var p := Select(c, a).port;
            p.addr == a % 32 && p.addr % 16 == a % 16 && p.reg == c.port.reg && (Bit(p.addr, 16) <==> a % 32 >= 16)
  {
    var q, r := a / 32, a % 32;
    assert a == 32 * q + r;
    assert r % 16 == a % 16 && (Bit(r, 16) <==> r >= 16);
  }

  lemma ReadOf(p: Port)
    requires p.addr < 32 && (p.addr < 16 || p.ayMode)
    ensures Read(p, false) == ReadsAs(p.ayMode, p.addr % 16, p.reg[p.addr % 16], p.reg[7])
  {
  }

  /** Select a register and write it, and no other register changes; reading it
      gives the value back, in AY mode only the bits the register has, and of an I/O
      port 0xFF unless R7 makes it an output. */
  lemma WriteThenRead(c: Chip, a: byte, val: byte)
    requires a % 32 < 16
    ensures var w := Write(Select(c, a), val);
            && w.port.reg == c.port.reg[a % 16 := val]
            && Read(w.port, false) == ReadsAs(c.port.ayMode, a % 16, val, w.port.reg[7])
            && w.env == (if a % 16 == 13 then c.env.(reset := true) else c.env)
            && w.div == c.div && w.tones == c.tones && w.noise == c.noise
  {
    SelectedIs(c, a);
    ReadOf(Write(Select(c, a), val).port);
  }

  /** Registers 16 to 31 take nothing; they read as 0xFF in YM mode and as the lower
      register in AY mode. Of any, the other read mode tells the chip and the number. */
  lemma HighRegisters(c: Chip, a: byte, val: byte)
    ensures var s := Select(c, a);
            && (a % 32 >= 16 ==> Write(s, val) == s)
            && (a % 32 >= 16 ==>
                  Read(s.port, false)
                  == if c.port.ayMode then ReadsAs(true, a % 16, c.port.reg[a % 16], c.port.reg[7]) else 0xFF)
            && (c.port.id < 4 ==> Read(s.port, true) == 64 * c.port.id + a % 32)
  {
    SelectedIs(c, a);
    if c.port.ayMode { ReadOf(Select(c, a).port); }
  }

  /** A reset clears the registers, but for R7 at 255, the address and the outputs;
      divider, tones and noise run on as they were, and a pending envelope is loaded. */
  lemma ResetRunsOn(c: Chip)
    ensures var r := Reset(c);
            && r.port.id == c.port.id && r.port.ayMode == c.port.ayMode && r.port.addr == 0
            && (forall i | 0 <= i < 16 :: r.port.reg[i] == if i == 7 then 255 else 0)
            && r.out == Levels(0, 0, 0) && r.div == c.div && r.tones == c.tones && r.noise == c.noise
            && !r.env.reset && (!c.env.reset ==> r.env == c.env)
  {
  }
}
