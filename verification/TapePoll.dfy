/**
 What the poll time of a tape member is for: a deck that was held must resume on
 the read on which the saved one would (src/core/tape_poll_detector.h).
 */
module TapePoll {
  import opened TapeJson
  import opened TapeMember

  const GAP := 1000
  const MIN_RUN := 32

  function Wrap32(n: nat): nat { n % 0x1_0000_0000 }

  // One read of the ULA port at ts, and the question whether a run is current.
  function OnRead(p: Poll, ts: nat): Poll {
    if p.valid && ts >= p.last && ts - p.last <= GAP then Poll(true, Wrap32(p.run + 1), ts) else Poll(true, 1, ts)
  }

  predicate Polling(p: Poll, now: nat) { p.valid && p.run >= MIN_RUN && now >= p.last && now - p.last <= GAP }

  // The reads at the given ages, counted from clock base.
  function AfterReads(p: Poll, base: nat, ages: seq<nat>): Poll {
    if ages == [] then p else OnRead(AfterReads(p, base, ages[..|ages| - 1]), base + ages[|ages| - 1])
  }

  // Two detectors on two clocks that see the same.
  predicate Alike(p: Poll, base: nat, q: Poll, base2: nat) {
    p.valid == q.valid && p.run == q.run && base - p.last == base2 - q.last
  }

  lemma {:induction false} AlikeForever(p: Poll, base: nat, q: Poll, base2: nat, ages: seq<nat>)
    requires Alike(p, base, q, base2)
    ensures Alike(AfterReads(p, base, ages), base, AfterReads(q, base2, ages), base2)
  {
    if ages != [] {
      AlikeForever(p, base, q, base2, ages[..|ages| - 1]);
    }
  }

  // The same signed distance from either clock, when neither has to wrap for it.
  lemma RebasedIsAlike(p: Poll, now: nat, now2: nat)
    requires p.last < TWO64 && 0 <= now2 + p.last - now < TWO64
    ensures Alike(p, now, RebasedPoll(p, now, now2), now2)
  {
    var w := Wrap(p.last - now);
    var q := (p.last - now) / TWO64;
    assert p.last - now == w + q * TWO64;
    SameWrap(now2 + Distance(p.last, now), now2 + p.last - now, if w <= I64_MAX then -q else -q - 1);
  }

  /** A restored detector answers as the original would after any reads, for as
      long after, when the last read lies within the new clock's range. */
  lemma ResumesOnTheSameRead(p: Poll, now: nat, now2: nat, ages: seq<nat>, age: nat)
    requires p.last < TWO64 && 0 <= now2 + p.last - now < TWO64
    ensures Polling(AfterReads(RebasedPoll(p, now, now2), now2, ages), now2 + age)
        <==> Polling(AfterReads(p, now, ages), now + age)
  {
    RebasedIsAlike(p, now, now2);
    AlikeForever(p, now, RebasedPoll(p, now, now2), now2, ages);
  }

  // Reads one after the other and a question after them, before either clock
  // passes 2^64.
  ghost predicate Later(now: nat, now2: nat, ages: seq<nat>, age: nat) {
    && now + age < TWO64 && now2 + age < TWO64
    && (forall i | 0 <= i < |ages| :: ages[i] <= age)
    && (forall i, j | 0 <= i < j < |ages| :: ages[i] <= ages[j])
  }

  // The promise: no later reads tell the restored detector from the original.
  ghost predicate Resumes(p: Poll, now: nat, now2: nat) {
    forall ages: seq<nat>, age: nat | Later(now, now2, ages, age) ::
      (Polling(AfterReads(RebasedPoll(p, now, now2), now2, ages), now2 + age)
       <==> Polling(AfterReads(p, now, ages), now + age))
  }

  // A run of reads that the next read would carry on.
  predicate Current(p: Poll, base: nat) { p.valid && p.run > 0 && p.last <= base && base - p.last <= GAP }

  // The same detector on two clocks, but with its last read 2^64 off on the second,
  // and so in that clock's far future.
  predicate Twisted(p: Poll, base: nat, q: Poll, base2: nat) {
    && p.valid == q.valid && p.run == q.run <= U32_MAX
    && p.last <= base && q.last < TWO64 && q.last - base2 == p.last - base + TWO64
  }

  // From the first read on both start a new run, unless the one run was current.
  lemma {:induction false} AlikeAfterOne(p: Poll, base: nat, q: Poll, base2: nat, ages: seq<nat>, age: nat)
    requires Twisted(p, base, q, base2) && !Current(p, base)
    requires Later(base, base2, ages, age) && ages != []
    ensures Alike(AfterReads(p, base, ages), base, AfterReads(q, base2, ages), base2)
    decreases |ages|
  {
    var front, last := ages[..|ages| - 1], ages[|ages| - 1];
    if front == [] {
      assert AfterReads(p, base, ages) == OnRead(p, base + last) == Poll(true, 1, base + last);
      assert AfterReads(q, base2, ages) == OnRead(q, base2 + last) == Poll(true, 1, base2 + last);
    } else {
      AlikeAfterOne(p, base, q, base2, front, age);
    }
  }

  lemma TwistedAnswersAlike(p: Poll, base: nat, q: Poll, base2: nat, ages: seq<nat>, age: nat)
    requires Twisted(p, base, q, base2) && !Current(p, base) && Later(base, base2, ages, age)
    ensures Polling(AfterReads(p, base, ages), base + age) <==> Polling(AfterReads(q, base2, ages), base2 + age)
  {
    if ages != [] {
      AlikeAfterOne(p, base, q, base2, ages, age);
    }
  }

  function Zeros(k: nat): (z: seq<nat>)
    ensures |z| == k && forall i | 0 <= i < k :: z[i] == 0
  {
    if k == 0 then [] else Zeros(k - 1) + [0]
  }

  lemma NextCounts(p: Poll, base: nat)
    requires p.valid && p.last == base && p.run < U32_MAX
    ensures OnRead(p, base) == Poll(true, p.run + 1, base)
  {
  }

  lemma ZerosMore(p: Poll, base: nat, k: nat)
    ensures AfterReads(p, base, Zeros(k + 1)) == OnRead(AfterReads(p, base, Zeros(k)), base)
  {
    assert Zeros(k + 1)[..k] == Zeros(k);
  }

  // k reads at once: a current run grows by k, any other starts and has k.
  lemma {:induction false} CountUp(p: Poll, base: nat, k: nat)
    requires p.run + k <= U32_MAX && k > 0
    ensures var current := p.valid && base >= p.last && base - p.last <= GAP;
            AfterReads(p, base, Zeros(k)) == Poll(true, if current then p.run + k else k, base)
  {
    ZerosMore(p, base, k - 1);
    if k == 1 {
      assert AfterReads(p, base, Zeros(0)) == p;
    } else {
      CountUp(p, base, k - 1);
      NextCounts(AfterReads(p, base, Zeros(k - 1)), base);
    }
  }

  // A current run is soon seen to poll, and its twisted copy is not.
  lemma TwistedSplits(p: Poll, base: nat, q: Poll, base2: nat) returns (ages: seq<nat>)
    requires Twisted(p, base, q, base2) && Current(p, base) && base < TWO64 && base2 < TWO64
    ensures Later(base, base2, ages, 0) && Later(base2, base, ages, 0)
    ensures Polling(AfterReads(p, base, ages), base) && !Polling(AfterReads(q, base2, ages), base2)
  {
    if p.run >= MIN_RUN {
      ages := [];
    } else {
      var k := MIN_RUN - p.run;
      ages := Zeros(k);
      CountUp(p, base, k);
      CountUp(q, base2, k);
    }
  }

  // A run that was current when it was saved, its last read older than the new
  // clock; or, past the other end of the clock's range, one that becomes current.
  predicate Stranded(p: Poll, now: nat, now2: nat) {
    && p.valid && p.run > 0
    && if p.last <= now then now - p.last <= GAP && now2 < now - p.last
       else var age := TWO64 - (p.last - now); age <= GAP && age <= now2
  }

  // The restored read keeps its distance but for n times 2^64, the n that fits.
  lemma RebasedByWraps(p: Poll, now: nat, now2: nat, n: int)
    ensures var there := now2 + p.last - now + n * TWO64;
            0 <= there < TWO64 ==> RebasedPoll(p, now, now2).last == there
  {
    var d := p.last - now;
    var w, q := Wrap(d), d / TWO64;
    assert d == w + q * TWO64;
    var there := now2 + d + n * TWO64;
    if 0 <= there < TWO64 {
      SameWrap(now2 + Distance(p.last, now), there, (if w <= I64_MAX then -q else -q - 1) - n);
    }
  }

  // A distance the new clock cannot hold: the restored read is 2^64 off, on the one
  // side or on the other.
  lemma RebasedIsTwisted(p: Poll, now: nat, now2: nat)
    requires p.run <= U32_MAX && p.last < TWO64 && now < TWO64 && now2 < TWO64
    ensures now2 + p.last - now < 0 ==> Twisted(p, now, RebasedPoll(p, now, now2), now2)
    ensures now2 + p.last - now >= TWO64 ==> Twisted(RebasedPoll(p, now, now2), now2, p, now)
  {
    RebasedByWraps(p, now, now2, if now2 + p.last - now < 0 then 1 else -1);
  }

  lemma StrandedBreaks(p: Poll, now: nat, now2: nat)
    requires p.run <= U32_MAX && p.last < TWO64 && now < TWO64 && now2 < TWO64 && Stranded(p, now, now2)
    ensures !Resumes(p, now, now2)
  {
    var r := RebasedPoll(p, now, now2);
    RebasedIsTwisted(p, now, now2);
    var ages: seq<nat>;
    if p.last <= now {
      ages := TwistedSplits(p, now, r, now2);
    } else {
      ages := TwistedSplits(r, now2, p, now);
    }
    assert Later(now, now2, ages, 0);
    assert Polling(AfterReads(r, now2, ages), now2 + 0) != Polling(AfterReads(p, now, ages), now + 0);
  }

  lemma NotStrandedResumes(p: Poll, now: nat, now2: nat, ages: seq<nat>, age: nat)
    requires p.run <= U32_MAX && p.last < TWO64 && now < TWO64 && now2 < TWO64 && !Stranded(p, now, now2)
    requires Later(now, now2, ages, age)
    ensures Polling(AfterReads(RebasedPoll(p, now, now2), now2, ages), now2 + age)
        <==> Polling(AfterReads(p, now, ages), now + age)
  {
    var r := RebasedPoll(p, now, now2);
    RebasedIsTwisted(p, now, now2);
    if now2 + p.last - now < 0 {
      TwistedAnswersAlike(p, now, r, now2, ages, age);
    } else if now2 + p.last - now >= TWO64 {
      TwistedAnswersAlike(r, now2, p, now, ages, age);
    } else {
      ResumesOnTheSameRead(p, now, now2, ages, age);
    }
  }

  /** The promise holds for all later reads if and only if no run is stranded: none
      is current on the one clock whose last read the other clock cannot hold. */
  lemma ResumesExactly(p: Poll, now: nat, now2: nat)
    requires p.run <= U32_MAX && p.last < TWO64 && now < TWO64 && now2 < TWO64
    ensures Resumes(p, now, now2) <==> !Stranded(p, now, now2)
  {
    if Stranded(p, now, now2) {
      StrandedBreaks(p, now, now2);
    } else {
      forall ages: seq<nat>, age: nat | Later(now, now2, ages, age)
        ensures Polling(AfterReads(RebasedPoll(p, now, now2), now2, ages), now2 + age)
            <==> Polling(AfterReads(p, now, ages), now + age)
      {
        NotStrandedResumes(p, now, now2, ages, age);
      }
    }
  }

  /** At the instant of loading, before any further read. */
  lemma PollingSurvivesLoading(p: Poll, now: nat, now2: nat)
    requires p.run <= U32_MAX && p.last <= now < TWO64 && now2 < TWO64
    ensures Polling(RebasedPoll(p, now, now2), now2) <==> Polling(p, now) && now - p.last <= now2
  {
    if now2 < now - p.last {
      RebasedIsTwisted(p, now, now2);
    } else {
      ResumesOnTheSameRead(p, now, now2, [], 0);
    }
  }

  /** Loading sets the clock to the saved instant, so from a consistent snapshot
      the detector always resumes. */
  lemma ConsistentSnapshotResumes(p: Poll, now: nat)
    requires p.run <= U32_MAX && p.last < TWO64 && now < TWO64
    ensures Resumes(p, now, now)
  {
    ResumesExactly(p, now, now);
  }

  /** A member whose clock is not the saved one can break it: 20 reads, the last
      10 T-states before saving at 1010, loaded at 5. Twelve reads later the
      original polls and the restored detector does not. */
  lemma YoungerClockBreaks()
    ensures var p := Poll(true, 20, 1000);
            && Later(1010, 5, Zeros(12), 0)
            && Polling(AfterReads(p, 1010, Zeros(12)), 1010)
            && !Polling(AfterReads(RebasedPoll(p, 1010, 5), 5, Zeros(12)), 5)
            && !Resumes(p, 1010, 5)
  {
    var p := Poll(true, 20, 1000);
    RebasedIsTwisted(p, 1010, 5);
    CountUp(p, 1010, 12);
    CountUp(RebasedPoll(p, 1010, 5), 5, 12);
    ResumesExactly(p, 1010, 5);
  }

  // ------------------------------------------------ what polling means -----

  const FRESH := Poll(false, 0, 0)

  // Is b a read of the same run, right after one at a?
  predicate Close(a: nat, b: nat) { a <= b <= a + 1000 }

  // Reads at the end of a history that follow one another closely.
  function RunLength(ts: seq<nat>): nat {
    if ts == [] then 0
    else if |ts| > 1 && Close(ts[|ts| - 2], ts[|ts| - 1]) then 1 + RunLength(ts[..|ts| - 1])
    else 1
  }

  lemma {:induction false} RunIsCounted(ts: seq<nat>)
    requires ts != []
    ensures AfterReads(FRESH, 0, ts) == Poll(true, Wrap32(RunLength(ts)), ts[|ts| - 1])
  {
    var front := ts[..|ts| - 1];
    if front == [] {
      assert AfterReads(FRESH, 0, front) == FRESH;
    } else {
      RunIsCounted(front);
      WrapNext(RunLength(front));
    }
  }

  lemma WrapNext(n: nat)
    ensures Wrap32(Wrap32(n) + 1) == Wrap32(n + 1)
  {
    var q := n / 0x1_0000_0000;
    assert n == 0x1_0000_0000 * q + Wrap32(n);
  }

  // The last m reads, one close after the other.
  ghost predicate LastClose(ts: seq<nat>, m: nat)
    requires m <= |ts|
  {
    forall i | |ts| - m < i < |ts| :: Close(ts[i - 1], ts[i])
  }

  lemma {:induction false} RunIsLong(ts: seq<nat>, m: nat)
    requires 0 < m <= |ts|
    ensures RunLength(ts) >= m <==> LastClose(ts, m)
    ensures RunLength(ts) <= |ts|
    decreases m
  {
    if |ts| > 1 {
      var front := ts[..|ts| - 1];
      if m > 1 {
        RunIsLong(front, m - 1);
        assert LastClose(ts, m) <==> LastClose(front, m - 1) && Close(ts[|ts| - 2], ts[|ts| - 1]);
      }
      RunIsShort(ts);
    }
  }

  lemma {:induction false} RunIsShort(ts: seq<nat>)
    ensures RunLength(ts) <= |ts|
  {
    if ts != [] { RunIsShort(ts[..|ts| - 1]); }
  }

  /** A detector that starts fresh answers that it polls exactly when its last 32 reads
      each came within 1000 T-states of the one before, and now is within 1000 of the
      last; for a run of 2^32 reads or more its length modulo 2^32 counts. */
  lemma PollingMeans(ts: seq<nat>, now: nat)
    ensures var n := |ts|;
            Polling(AfterReads(FRESH, 0, ts), now)
            <==> n > 0 && Close(ts[n - 1], now) && RunLength(ts) % 0x1_0000_0000 >= 32
    ensures var n := |ts|;
            n < 0x1_0000_0000 ==>
              (Polling(AfterReads(FRESH, 0, ts), now)
               <==> n >= 32 && Close(ts[n - 1], now) && forall i | n - 32 < i < n :: Close(ts[i - 1], ts[i]))
  {
    if ts != [] {
      RunIsCounted(ts);
      RunIsShort(ts);
      if |ts| >= 32 {
        RunIsLong(ts, 32);
        assert LastClose(ts, 32) <==> forall i | |ts| - 32 < i < |ts| :: Close(ts[i - 1], ts[i]);
      }
    }
  }
}
