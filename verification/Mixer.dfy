/**
 The mixer object of src/audio/mixer.cpp at unity gains: it integrates the mix
 over emulated time, emits one averaged sample at a time into a ring buffer, and
 hands samples out in order.
 */
module MixerClass {
  import opened Common
  import opened Ay
  import opened Turbo
  import opened I2sClass
  import opened MixLevels

  function OwnMutes(m: byte): (r: byte)
    ensures Bit(r, 8) == Bit(m, 8) && Bit(r, 16) == Bit(m, 16) && r % 8 == 0 && r < 32
  {
    m / 8 % 4 * 8
  }

  class Mixer {
    const buffer: array<int>
    var writePos: nat
    var readPos: nat
    var count: int
    var accL: int
    var accR: int
    var accCycles: nat
    var excI: bool
    var muteMask: byte
    var i2s: I2s?
    ghost var slices: seq<Slice>

    // The accumulator is the weighted sum of the slices since the last sample,
    // and the ring positions agree with the count.
    ghost predicate Valid()
      reads this
    {
      && buffer.Length == 2 * RING
      && RingOk(writePos, readPos, count)
      && accCycles == Cycles(slices) && accL == SumLeft(slices) && accR == SumRight(slices)
    }

    // The unread samples, oldest first.
    ghost function Queue(): (q: seq<Sample>)
      requires Valid()
      reads this, buffer
      ensures |q| == count
    {
      QueueOf(buffer[..], readPos, count)
    }

    constructor ()
      ensures Valid() && Queue() == [] && slices == [] && !excI && muteMask == 0 && i2s == null
      ensures fresh(buffer)
    {
      buffer := new int[2 * RING](_ => 0);
      writePos, readPos, count := 0, 0, 0;
      accL, accR, accCycles := 0, 0, 0;
      excI, muteMask, i2s := false, 0, null;
      slices := [];
    }

    method Reset()
      requires buffer.Length == 2 * RING
      modifies this`writePos, this`readPos, this`count, this`accL, this`accR, this`accCycles,
               this`excI, this`slices, buffer
      ensures Valid() && Queue() == [] && slices == [] && !excI
      ensures forall i | 0 <= i < buffer.Length :: buffer[i] == 0
    {
      for i := 0 to buffer.Length
        invariant forall k | 0 <= k < i :: buffer[k] == 0
      {
        buffer[i] := 0;
      }
      writePos, readPos, count := 0, 0, 0;
      excI := false;
      accL, accR, accCycles := 0, 0, 0;
      slices := [];
    }

    method SetExcI(on: bool)
      modifies this`excI
      ensures excI == on
    {
      excI := on;
    }

    // Of the mute bits, the mixer keeps those of the DAC and the beeper.
    method SetMuteMask(m: byte)
      modifies this`muteMask
      ensures muteMask == OwnMutes(m)
    {
      muteMask := (if Bit(m, 8) then 8 else 0) + (if Bit(m, 16) then 16 else 0);
    }

    // The gated pair of the wired I2S input, or its rest level when unwired.
    function I2sLevel(): Level
      requires i2s != null ==> i2s.Valid()
      reads this, i2s
    {
      if i2s == null then Level(I2S_REST, I2S_REST)
      else Level(Gated(i2s.At(), true), Gated(i2s.At(), false))
    }

    // Weight the current mix by how long it held.
    method Accumulate(beeper: Beeper, ts: Pcm, dac: Dac, cycles: nat)
      requires Valid() && (i2s != null ==> i2s.Valid())
      modifies this`accL, this`accR, this`accCycles, this`slices
      ensures Valid()
      ensures var level := MixOf(beeper, Level(ts.left, ts.right), dac, I2sLevel(), excI, muteMask);
              slices == if cycles == 0 then old(slices) else old(slices) + [Slice(level, cycles)]
      ensures Queue() == old(Queue())
    {
      if cycles == 0 { return; }
      var level := MixOf(beeper, Level(ts.left, ts.right), dac, I2sLevel(), excI, muteMask);
      SumsPush(slices, Slice(level, cycles));
      accL := accL + level.left * cycles;
      accR := accR + level.right * cycles;
      accCycles := accCycles + cycles;
      slices := slices + [Slice(level, cycles)];
    }

    // One output sample: the rounded average since the last one, queued newest
    // last; a full queue loses its oldest.
    method EmitSample()
      requires Valid()
      modifies this`writePos, this`readPos, this`count, this`accL, this`accR, this`accCycles,
               this`slices, buffer
      ensures Valid() && slices == []
      ensures if Cycles(old(slices)) == 0 then Queue() == old(Queue())
              else
                var s := old(slices);
                Queue() == QueueStep(old(Queue()),
                                     Emit(Sample(SampleOf(SumLeft(s), Cycles(s)), SampleOf(SumRight(s), Cycles(s)))))
    {
      if accCycles == 0 {
        EmptyAccumulator();
        return;
      }
      var l, r := SampleOf(accL, accCycles), SampleOf(accR, accCycles);
      accL, accR, accCycles := 0, 0, 0;
      slices := [];
      Enqueue(l, r);
    }

    // With no cycles there is nothing to average, and nothing to forget.
    ghost method EmptyAccumulator()
      requires Valid() && accCycles == 0
      modifies this`slices
      ensures Valid() && slices == []
    {
      NoCyclesNoSum(slices);
      slices := [];
    }

    method Enqueue(l: int, r: int)
      requires Valid()
      modifies this`writePos, this`readPos, this`count, buffer
      ensures Valid() && Queue() == QueueStep(old(Queue()), Emit(Sample(l, r)))
    {
      if count >= RING {
        QueueDropsHead(buffer[..], writePos, readPos, count);
        readPos := Next(readPos);
        count := count - 1;
      }
      ghost var ring := buffer[..];
      QueueGrowsTail(ring, writePos, readPos, count, Sample(l, r));
      buffer[writePos] := l;
      buffer[writePos + 1] := r;
      assert buffer[..] == ring[writePos := l][writePos + 1 := r];
      writePos := Next(writePos);
      count := count + 1;
    }

    // Up to n samples into `out`.  The source does not guard against a negative
    // n, which would grow the count with nothing stored: the ring stays coherent
    // exactly when n is not negative, but for the one accident that an empty ring
    // asked for -4096 claims to be full.
    method ReadSamples(out: array<int>, n: int) returns (got: int)
      requires Valid() && out != buffer
      requires n >= 0 ==> out.Length >= 2 * (if n < count then n else count)
      modifies this`readPos, this`count, out
      ensures got == (if n < old(count) then n else old(count))
      ensures count == old(count) - got && writePos == old(writePos)
      ensures n >= 0 ==>
                && Valid() && Queue() == QueueStep(old(Queue()), Read(n))
                && (forall i | 0 <= i < got :: Sample(out[2 * i], out[2 * i + 1]) == old(Queue())[i])
      ensures n < 0 ==> got == n && readPos == old(readPos)
      ensures Valid() <==> n >= 0 || (n + RING == 0 && old(count) == 0)
      ensures unchanged(this`accL, this`accR, this`accCycles)
    {
      ghost var before := Queue();
      got := if n < count then n else count;
      var i := 0;
      while i < got
        invariant 0 <= i <= count == old(count) && (got < 0 ==> i == 0) && (got >= 0 ==> i <= got)
        invariant RingOk(writePos, readPos, count - i)
        invariant QueueOf(buffer[..], readPos, count - i) == before[i..]
        invariant i == 0 ==> readPos == old(readPos)
        invariant forall k | 0 <= k < i :: Sample(out[2 * k], out[2 * k + 1]) == before[k]
      {
        QueueDropsHead(buffer[..], writePos, readPos, count - i);
        assert before[i..][0] == before[i] && before[i..][1..] == before[i + 1..];
        out[2 * i] := buffer[readPos];
        out[2 * i + 1] := buffer[readPos + 1];
        readPos := Next(readPos);
        i := i + 1;
      }
      if got < 0 { CountCannotJump(writePos, readPos, count, -got); }
      count := count - got;
    }
  }

  lemma {:induction false} NoCyclesNoSum(s: seq<Slice>)
    requires Cycles(s) == 0
    ensures SumLeft(s) == 0 && SumRight(s) == 0
  {
    if s != [] { NoCyclesNoSum(s[..|s| - 1]); }
  }
}
