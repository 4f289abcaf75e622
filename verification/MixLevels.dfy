/**
 The 13-bit mix of src/audio/mixer.cpp at unity gains, the box filter that turns
 slices of it into samples, and the sample queue, as values.
 */
module MixLevels {
  import opened Common
  import opened Ay
  import opened Turbo
  import I2s = I2sClass

  const DAC_REST: int := (0x80 + 0x80) * 4
  const I2S_REST: int := 0x200
  const MIX_REST: int := DAC_REST + I2S_REST

  datatype Beeper = Beeper(ear: bool, mic: bool, tapeEar: bool)

  datatype Dac = Dac(a: byte, b: byte, c: byte, d: byte)

  datatype Level = Level(left: int, right: int)

  // The sum of every source; `i2s` is the gated pair.  A muted DAC rests at its
  // midpoint, a muted or excluded beeper at zero.
  function MixOf(b: Beeper, ay: Level, dac: Dac, i2s: Level, exclusive: bool, mute: byte): Level {
    var beeper :=
      if exclusive || Bit(mute, 16) then 0
      else (if b.ear then 512 else 0) + (if b.mic then 128 else 0) + (if b.tapeEar then 512 else 0);
    var dacL := if Bit(mute, 8) then DAC_REST else (dac.a as int + dac.b as int) * 4;
    var dacR := if Bit(mute, 8) then DAC_REST else (dac.c as int + dac.d as int) * 4;
    Level(beeper + ay.left + dacL + i2s.left, beeper + ay.right + dacR + i2s.right)
  }

  predicate InRange(l: Level, lo: int, hi: int) { lo <= l.left <= hi && lo <= l.right <= hi }

  const MIX_MAX: int := 6510

  // Chips that stay within their 2295 keep the mix within 0..6510.
  lemma MixRange(b: Beeper, p: Pcm, dac: Dac, i2s: Level, exclusive: bool, mute: byte)
    requires Bounded(p) && InRange(i2s, 0, 1023)
    ensures InRange(MixOf(b, Level(p.left, p.right), dac, i2s, exclusive, mute), 0, MIX_MAX)
  {
  }

  /** Whatever has happened to the chips and to the I2S input since power-on, and
      whatever the beeper and the DAC do, the mix is within 0..6510, as long as
      neither holds sums or samples that only a state load can have brought. */
  lemma ReachableMix(ops: seq<Op>, es: seq<I2s.Event>, b: Beeper, dac: Dac, exclusive: bool, mute: byte)
    requires KnownSums(ops) && I2s.TenBit(es, |es|)
    ensures var p := Run(NEW, ops).pcm;
            var r := I2s.StateAt(es, |es|);
            InRange(MixOf(b, Level(p.left, p.right), dac, Level(I2s.Gated(r, true), I2s.Gated(r, false)),
                          exclusive, mute), 0, MIX_MAX)
  {
    RunStaysBounded(NEW, ops);
    var r := I2s.StateAt(es, |es|);
    MixRange(b, Run(NEW, ops).pcm, dac, Level(I2s.Gated(r, true), I2s.Gated(r, false)), exclusive, mute);
  }

  // ------------------------------------------------------ the box filter ---

  // A level held for some master cycles.
  datatype Slice = Slice(level: Level, cycles: nat)

  function Cycles(s: seq<Slice>): nat { if s == [] then 0 else Cycles(s[..|s| - 1]) + s[|s| - 1].cycles }

  function SumLeft(s: seq<Slice>): int {
    if s == [] then 0 else SumLeft(s[..|s| - 1]) + s[|s| - 1].level.left * s[|s| - 1].cycles
  }

  function SumRight(s: seq<Slice>): int {
    if s == [] then 0 else SumRight(s[..|s| - 1]) + s[|s| - 1].level.right * s[|s| - 1].cycles
  }

  lemma SumsPush(s: seq<Slice>, x: Slice)
    ensures Cycles(s + [x]) == Cycles(s) + x.cycles
    ensures SumLeft(s + [x]) == SumLeft(s) + x.level.left * x.cycles
    ensures SumRight(s + [x]) == SumRight(s) + x.level.right * x.cycles
  {
    assert (s + [x])[..|s + [x]| - 1] == s;
  }

  // C++ integer division: truncation toward zero.
  function TruncDiv(a: int, b: int): int
    requires b > 0
  {
    if a >= 0 then a / b else -((-a) / b)
  }

  // Four times the average, rounded to nearest.
  function AverageX4(sum: int, cycles: nat): int
    requires cycles > 0
  {
    var scaled := 4 * sum;
    var half: int := cycles / 2;
    TruncDiv(scaled + (if scaled >= 0 then half else -half), cycles)
  }

  function Clamp16(v: int): int { if v < -32768 then -32768 else if v > 32767 then 32767 else v }

  function SampleOf(sum: int, cycles: nat): int
    requires cycles > 0
  {
    Clamp16(AverageX4(sum, cycles) - 4 * MIX_REST)
  }

  function Abs(x: int): nat { if x < 0 then -x else x }

  // The rounding is to nearest: off by at most half a step.
  lemma RoundingError(sum: int, cycles: nat)
    requires cycles > 0
    ensures 2 * Abs(AverageX4(sum, cycles) * cycles - 4 * sum) <= cycles
  {
    var scaled := 4 * sum;
    var half := cycles / 2;
    var a := if scaled >= 0 then scaled + half else half - scaled;
    DivBounds(a, cycles);
    assert a >= 0;
    var q := a / cycles;
    if scaled >= 0 {
      assert AverageX4(sum, cycles) == q;
    } else {
      assert AverageX4(sum, cycles) == -q;
      assert (-q) * cycles == -(q * cycles);
    }
  }

  lemma DivBounds(a: nat, b: nat)
    requires b > 0
    ensures (a / b) * b <= a < (a / b) * b + b
  {
    assert a == b * (a / b) + a % b;
  }

  lemma MulMono(a: int, b: int, c: nat)
    requires a <= b
    ensures a * c <= b * c
  {
  }

  // One more weighted level in a sum whose levels lie between lo and hi.
  lemma OneMoreWeight(sum: int, cycles: nat, v: int, w: nat, lo: int, hi: int)
    requires lo * cycles <= sum <= hi * cycles && lo <= v <= hi
    ensures lo * (cycles + w) <= sum + v * w <= hi * (cycles + w)
  {
    MulMono(lo, v, w);
    MulMono(v, hi, w);
    Spread(lo, cycles, w);
    Spread(hi, cycles, w);
  }

  lemma Spread(x: int, a: nat, b: nat)
    ensures x * (a + b) == x * a + x * b
  {
  }

  // A weighted sum of levels between lo and hi lies between lo and hi weights.
  lemma {:induction false} SumBetween(s: seq<Slice>, lo: int, hi: int)
    requires forall i | 0 <= i < |s| :: InRange(s[i].level, lo, hi)
    ensures lo * Cycles(s) <= SumLeft(s) <= hi * Cycles(s)
    ensures lo * Cycles(s) <= SumRight(s) <= hi * Cycles(s)
  {
    if s == [] {
      assert lo * 0 == hi * 0 == 0;
    } else {
      var front, last := s[..|s| - 1], s[|s| - 1];
      SumBetween(front, lo, hi);
      OneMoreWeight(SumLeft(front), Cycles(front), last.level.left, last.cycles, lo, hi);
      OneMoreWeight(SumRight(front), Cycles(front), last.level.right, last.cycles, lo, hi);
    }
  }

  lemma AverageBetween(sum: int, cycles: nat, lo: int, hi: int)
    requires cycles > 0 && lo * cycles <= sum <= hi * cycles
    ensures 4 * lo <= AverageX4(sum, cycles) <= 4 * hi
  {
    RoundingError(sum, cycles);
    var q := AverageX4(sum, cycles);
    assert (4 * hi + 1) * cycles == 4 * (hi * cycles) + cycles;
    assert (4 * lo - 1) * cycles == 4 * (lo * cycles) - cycles;
    if q > 4 * hi { MulMono(4 * hi + 1, q, cycles); }
    if q < 4 * lo { MulMono(q, 4 * lo - 1, cycles); }
  }

  // The emitted average stays between the extremes of the levels fed in.
  lemma BoxStaysBetween(s: seq<Slice>, lo: int, hi: int)
    requires Cycles(s) > 0 && forall i | 0 <= i < |s| :: InRange(s[i].level, lo, hi)
    ensures 4 * lo <= AverageX4(SumLeft(s), Cycles(s)) <= 4 * hi
    ensures 4 * lo <= AverageX4(SumRight(s), Cycles(s)) <= 4 * hi
  {
    SumBetween(s, lo, hi);
    AverageBetween(SumLeft(s), Cycles(s), lo, hi);
    AverageBetween(SumRight(s), Cycles(s), lo, hi);
  }

  // Silence in, silence out; and any mix in range leaves the clamp idle.
  lemma SilenceIsZero(s: seq<Slice>)
    requires Cycles(s) > 0 && forall i | 0 <= i < |s| :: s[i].level == Level(MIX_REST, MIX_REST)
    ensures SampleOf(SumLeft(s), Cycles(s)) == 0 && SampleOf(SumRight(s), Cycles(s)) == 0
  {
    BoxStaysBetween(s, MIX_REST, MIX_REST);
  }

  lemma SamplesStayInRange(s: seq<Slice>)
    requires Cycles(s) > 0 && forall i | 0 <= i < |s| :: InRange(s[i].level, 0, MIX_MAX)
    ensures SampleOf(SumLeft(s), Cycles(s)) == AverageX4(SumLeft(s), Cycles(s)) - 4 * MIX_REST
    ensures SampleOf(SumRight(s), Cycles(s)) == AverageX4(SumRight(s), Cycles(s)) - 4 * MIX_REST
    ensures -6144 <= SampleOf(SumLeft(s), Cycles(s)) <= 19896
    ensures -6144 <= SampleOf(SumRight(s), Cycles(s)) <= 19896
  {
    BoxStaysBetween(s, 0, MIX_MAX);
  }

  // A level held for the cycles of `parts`, one slice each.
  function Pieces(level: Level, parts: seq<nat>): seq<Slice> {
    if parts == [] then [] else Pieces(level, parts[..|parts| - 1]) + [Slice(level, parts[|parts| - 1])]
  }

  function Total(parts: seq<nat>): nat {
    if parts == [] then 0 else Total(parts[..|parts| - 1]) + parts[|parts| - 1]
  }

  lemma {:induction false} SumsAppend(s: seq<Slice>, t: seq<Slice>)
    ensures Cycles(s + t) == Cycles(s) + Cycles(t)
    ensures SumLeft(s + t) == SumLeft(s) + SumLeft(t) && SumRight(s + t) == SumRight(s) + SumRight(t)
    decreases |t|
  {
    if t == [] {
      assert s + t == s;
    } else {
      assert (s + t)[..|s + t| - 1] == s + t[..|t| - 1];
      SumsAppend(s, t[..|t| - 1]);
    }
  }

  lemma PieceSums(front: seq<Slice>, last: Slice)
    ensures Cycles(front + [last]) == Cycles(front) + last.cycles
    ensures SumLeft(front + [last]) == SumLeft(front) + last.level.left * last.cycles
    ensures SumRight(front + [last]) == SumRight(front) + last.level.right * last.cycles
  {
    var p := front + [last];
    assert p[..|p| - 1] == front;
  }

  lemma {:induction false} PiecesSum(level: Level, parts: seq<nat>)
    ensures var p := Pieces(level, parts);
            && Cycles(p) == Total(parts)
            && SumLeft(p) == level.left * Total(parts) && SumRight(p) == level.right * Total(parts)
    decreases |parts|
  {
    if parts != [] {
      var front, last := parts[..|parts| - 1], parts[|parts| - 1];
      PiecesSum(level, front);
      PieceSums(Pieces(level, front), Slice(level, last));
      Spread(level.left, Total(front), last);
      Spread(level.right, Total(front), last);
    }
  }

  // Cutting a constant slice into any pieces, anywhere, changes no sum.
  lemma SubdivisionIsInvisible(before: seq<Slice>, level: Level, parts: seq<nat>, after: seq<Slice>)
    ensures var whole := before + [Slice(level, Total(parts))] + after;
            var cut := before + Pieces(level, parts) + after;
            Cycles(whole) == Cycles(cut) && SumLeft(whole) == SumLeft(cut) && SumRight(whole) == SumRight(cut)
  {
    var one := [Slice(level, Total(parts))];
    assert one[..0] == [];
    PiecesSum(level, parts);
    SumsAppend(before, one);
    SumsAppend(before + one, after);
    SumsAppend(before, Pieces(level, parts));
    SumsAppend(before + Pieces(level, parts), after);
  }

  // The 64-bit accumulators hold for any slice count with fewer than 2^48 cycles.
  lemma AccumulatorsFit(s: seq<Slice>)
    requires Cycles(s) < 0x1_0000_0000_0000
    requires forall i | 0 <= i < |s| :: InRange(s[i].level, 0, MIX_MAX)
    ensures 0 <= 4 * SumLeft(s) + Cycles(s) < 0x8000_0000_0000_0000
    ensures 0 <= 4 * SumRight(s) + Cycles(s) < 0x8000_0000_0000_0000
  {
    SumBetween(s, 0, MIX_MAX);
  }

  // ------------------------------------------------------ the sample queue -

  const RING: nat := 4096

  datatype Sample = Sample(left: int, right: int)

  function Newest(q: seq<Sample>): seq<Sample> { if |q| > RING then q[|q| - RING..] else q }

  // n samples of an interleaved ring from position r on.
  function SampleAt(ring: seq<int>, pos: nat): Sample
    requires |ring| == 2 * RING && pos % 2 == 0
  {
    Sample(ring[pos % (2 * RING)], ring[pos % (2 * RING) + 1])
  }

  function QueueOf(ring: seq<int>, r: nat, n: nat): (q: seq<Sample>)
    requires |ring| == 2 * RING && r % 2 == 0
    ensures |q| == n
  {
    seq(n, i requires 0 <= i < n => SampleAt(ring, r + 2 * i))
  }

  lemma Wrap(r: nat, k: nat)
    ensures (r % (2 * RING) + k) % (2 * RING) == (r + k) % (2 * RING)
  {
    assert r == 8192 * (r / 8192) + r % 8192;
    assert r + k == r % 8192 + k + 8192 * (r / 8192);
  }

  // The next interleaved position.
  function Next(pos: nat): nat { (pos + 2) % (2 * RING) }

  // Positions and count agree.
  predicate RingOk(w: nat, r: nat, n: int) {
    0 <= n <= RING && r < 2 * RING && r % 2 == 0 && w == (r + 2 * n) % (2 * RING)
  }

  lemma EvenStays(x: nat)
    requires x % 2 == 0
    ensures x % (2 * RING) % 2 == 0
  {
    assert x == 8192 * (x / 8192) + x % 8192;
  }

  lemma RingDrop(w: nat, r: nat, n: int)
    requires RingOk(w, r, n) && n > 0
    ensures RingOk(w, Next(r), n - 1)
  {
    EvenStays(r + 2);
    Wrap(r + 2, 2 * (n - 1));
    assert r + 2 + 2 * (n - 1) == r + 2 * n;
  }

  lemma RingPush(w: nat, r: nat, n: int)
    requires RingOk(w, r, n) && n < RING
    ensures RingOk(Next(w), r, n + 1) && w + 1 < 2 * RING
  {
    EvenStays(r + 2 * n);
    Wrap(r + 2 * n, 2);
    assert r + 2 * n + 2 == r + 2 * (n + 1);
  }

  // A count that has been pushed up by k, with nothing stored, agrees with the
  // positions in one accidental case only: an empty ring claiming to be full.
  lemma CountCannotJump(w: nat, r: nat, n: int, k: nat)
    requires RingOk(w, r, n) && k > 0
    ensures RingOk(w, r, n + k) <==> n == 0 && k == RING
  {
    var a, b := (r + 2 * n) / 8192, (r + 2 * (n + k)) / 8192;
    assert r + 2 * n == 8192 * a + (r + 2 * n) % 8192;
    assert r + 2 * (n + k) == 8192 * b + (r + 2 * (n + k)) % 8192;
    if RingOk(w, r, n + k) { assert 2 * k == 8192 * (b - a); }
    if k == RING { assert b == a + 1; }
  }

  lemma QueueTail(ring: seq<int>, r: nat, n: nat)
    requires |ring| == 2 * RING && r % 2 == 0 && n > 0
    ensures Next(r) % 2 == 0 && QueueOf(ring, Next(r), n - 1) == QueueOf(ring, r, n)[1..]
  {
    EvenStays(r + 2);
    var a, b := QueueOf(ring, Next(r), n - 1), QueueOf(ring, r, n)[1..];
    forall i | 0 <= i < n - 1 ensures a[i] == b[i] {
      Wrap(r + 2, 2 * i);
      assert b[i] == SampleAt(ring, r + 2 * (i + 1));
    }
  }

  lemma QueueHead(ring: seq<int>, r: nat, n: nat)
    requires |ring| == 2 * RING && r % 2 == 0 && r < 2 * RING && n > 0
    ensures r + 1 < 2 * RING && QueueOf(ring, r, n)[0] == Sample(ring[r], ring[r + 1])
  {
    assert QueueOf(ring, r, n)[0] == SampleAt(ring, r);
  }

  lemma QueueDropsHead(ring: seq<int>, w: nat, r: nat, n: int)
    requires |ring| == 2 * RING && RingOk(w, r, n) && n > 0
    ensures RingOk(w, Next(r), n - 1)
    ensures QueueOf(ring, Next(r), n - 1) == QueueOf(ring, r, n)[1..]
    ensures QueueOf(ring, r, n)[0] == Sample(ring[r], ring[r + 1])
  {
    RingDrop(w, r, n);
    QueueHead(ring, r, n);
    QueueTail(ring, r, n);
  }

  // Two places of a queue that is not longer than the ring.
  lemma PlacesApart(r: nat, i: nat, n: nat)
    requires r % 2 == 0 && i < n < i + RING
    ensures var j, w := (r + 2 * i) % (2 * RING), (r + 2 * n) % (2 * RING);
            j % 2 == w % 2 == 0 && j != w
  {
    EvenStays(r + 2 * i);
    EvenStays(r + 2 * n);
    var a, b := (r + 2 * i) / 8192, (r + 2 * n) / 8192;
    assert r + 2 * i == 8192 * a + (r + 2 * i) % 8192;
    assert r + 2 * n == 8192 * b + (r + 2 * n) % 8192;
  }

  lemma PutKeepsOthers(ring: seq<int>, w: nat, x: Sample, pos: nat)
    requires |ring| == 2 * RING && w + 1 < 2 * RING && w % 2 == 0 && pos % 2 == 0 && pos % (2 * RING) != w
    ensures SampleAt(ring[w := x.left][w + 1 := x.right], pos) == SampleAt(ring, pos)
  {
    EvenStays(pos);
  }

  lemma QueuePut(ring: seq<int>, r: nat, n: nat, x: Sample)
    requires |ring| == 2 * RING && r % 2 == 0 && r < 2 * RING && n < RING
    ensures var w := (r + 2 * n) % (2 * RING);
            w + 1 < 2 * RING
            && QueueOf(ring[w := x.left][w + 1 := x.right], r, n + 1) == QueueOf(ring, r, n) + [x]
  {
    var w := (r + 2 * n) % (2 * RING);
    EvenStays(r + 2 * n);
    var ring' := ring[w := x.left][w + 1 := x.right];
    var a, b := QueueOf(ring', r, n + 1), QueueOf(ring, r, n) + [x];
    forall i | 0 <= i < n ensures a[i] == b[i] {
      PlacesApart(r, i, n);
      PutKeepsOthers(ring, w, x, r + 2 * i);
    }
    assert a[n] == SampleAt(ring', r + 2 * n) == x;
  }

  lemma QueueGrowsTail(ring: seq<int>, w: nat, r: nat, n: int, x: Sample)
    requires |ring| == 2 * RING && RingOk(w, r, n) && n < RING
    ensures w + 1 < 2 * RING && RingOk(Next(w), r, n + 1)
    ensures QueueOf(ring[w := x.left][w + 1 := x.right], r, n + 1) == QueueOf(ring, r, n) + [x]
  {
    RingPush(w, r, n);
    QueuePut(ring, r, n, x);
  }

  datatype QueueOp = Emit(sample: Sample) | Read(count: nat)

  function Least(a: nat, b: nat): nat { if a < b then a else b }

  function QueueStep(q: seq<Sample>, op: QueueOp): seq<Sample> {
    match op
    case Emit(x) => Newest(q + [x])
    case Read(n) => q[Least(n, |q|)..]
  }

  function QueueAfter(ops: seq<QueueOp>): seq<Sample> {
    if ops == [] then [] else QueueStep(QueueAfter(ops[..|ops| - 1]), ops[|ops| - 1])
  }

  function Emitted(ops: seq<QueueOp>): seq<Sample> {
    if ops == [] then []
    else
      var before := Emitted(ops[..|ops| - 1]);
      match ops[|ops| - 1]
      case Emit(x) => before + [x]
      case Read(_) => before
  }

  // Index of the oldest unread sample among all ever emitted.
  function FirstUnread(ops: seq<QueueOp>): int {
    if ops == [] then 0
    else
      var was := FirstUnread(ops[..|ops| - 1]);
      var total := |Emitted(ops)|;
      match ops[|ops| - 1]
      case Emit(_) => if total - was > RING then total - RING else was
      case Read(n) => if was + n < total then was + n else total
  }

  // A suffix of a queue's samples after one more, and after reading k of them.
  lemma SuffixMore(e: seq<Sample>, f: nat, x: Sample)
    requires f <= |e|
    ensures e[f..] + [x] == (e + [x])[f..]
    ensures f < |e| ==> (e[f..] + [x])[1..] == (e + [x])[f + 1..]
  {
  }

  lemma SuffixLess(e: seq<Sample>, f: nat, k: nat)
    requires f + k <= |e|
    ensures e[f..][k..] == e[f + k..]
  {
  }

  // Whatever the history, the queue is the newest unread samples in order, at
  // most 4096 of them, and only reading or overrunning moves its front.
  lemma {:induction false} QueueIsNewest(ops: seq<QueueOp>)
    ensures 0 <= FirstUnread(ops) <= |Emitted(ops)| <= FirstUnread(ops) + RING
    ensures QueueAfter(ops) == Emitted(ops)[FirstUnread(ops)..]
    decreases |ops|
  {
    if ops != [] {
      var front := ops[..|ops| - 1];
      QueueIsNewest(front);
      var e := Emitted(front);
      var f := FirstUnread(front);
      match ops[|ops| - 1]
      case Emit(x) => SuffixMore(e, f, x);
      case Read(n) => SuffixLess(e, f, Least(n, |e| - f));
    }
  }
}
