/**
 Whole histories of the audio output: the three chips, the I2S input, the beeper
 and DAC levels, and the mixer that integrates, emits and hands out samples.
 */
module MixHistory {
  import opened Common
  import opened Ay
  import T = Turbo
  import I2s = I2sClass
  import opened MixLevels
  import opened MixerClass
  import opened TurboSoundClass

  datatype Event =
    | OnChips(op: T.Op)
    | OnI2s(e: I2s.Event)
    | Exclusive(on: bool)
    | MuteMask(mask: byte)
    | Hold(beeper: Beeper, dac: Dac, cycles: nat)
    | EmitNow
    | ReadOut(count: nat)
    | ResetMixer

  // Everything that is behind the samples. `ops` are the emits and reads since the
  // mixer was last reset.
  datatype Desk = Desk(ts: T.Ts, reg: I2s.Reg, exclusive: bool, mute: byte, slices: seq<Slice>, ops: seq<QueueOp>)

  const START := Desk(T.NEW, I2s.REST, false, 0, [], [])

  function LevelOf(d: Desk, b: Beeper, dac: Dac): Level {
    MixOf(b, Level(d.ts.pcm.left, d.ts.pcm.right), dac, Level(I2s.Gated(d.reg, true), I2s.Gated(d.reg, false)),
          d.exclusive, d.mute)
  }

  function Averaged(s: seq<Slice>): Sample
    requires Cycles(s) > 0
  {
    Sample(SampleOf(SumLeft(s), Cycles(s)), SampleOf(SumRight(s), Cycles(s)))
  }

  function Serve(d: Desk, e: Event): Desk {
    match e
    case OnChips(op) => d.(ts := T.Apply(d.ts, op))
    case OnI2s(e) => d.(reg := I2s.After(d.reg, e))
    case Exclusive(on) => d.(exclusive := on)
    case MuteMask(mask) => d.(mute := OwnMutes(mask))
    case Hold(b, dac, cycles) =>
      if cycles == 0 then d else d.(slices := d.slices + [Slice(LevelOf(d, b, dac), cycles)])
    case EmitNow =>
      if Cycles(d.slices) == 0 then d.(slices := [])
      else d.(slices := [], ops := d.ops + [Emit(Averaged(d.slices))])
    case ReadOut(n) => d.(ops := d.ops + [Read(n)])
    case ResetMixer => d.(exclusive := false, slices := [], ops := [])
  }

  function After(events: seq<Event>): Desk {
    if events == [] then START else Serve(After(events[..|events| - 1]), events[|events| - 1])
  }

  // ------------------------------------------------ what feeds the levels --

  function ChipOps(events: seq<Event>): seq<T.Op> {
    if events == [] then []
    else
      var front := ChipOps(events[..|events| - 1]);
      match events[|events| - 1]
      case OnChips(op) => front + [op]
      case _ => front
  }

  function I2sEvents(events: seq<Event>): seq<I2s.Event> {
    if events == [] then []
    else
      var front := I2sEvents(events[..|events| - 1]);
      match events[|events| - 1]
      case OnI2s(e) => front + [e]
      case _ => front
  }

  // Whenever time is integrated, the chips' sums and the I2S pair are ones a
  // machine can have: a state load that brought others has been followed by a
  // tick and by a sample.
  predicate Sound(events: seq<Event>) {
    events == [] ||
    (var front := events[..|events| - 1];
     && Sound(front)
     && (events[|events| - 1].Hold? ==>
           T.KnownSums(ChipOps(front)) && I2s.TenBit(I2sEvents(front), |I2sEvents(front)|)))
  }

  lemma OneMoreOp(ops: seq<T.Op>, op: T.Op)
    ensures T.Run(T.NEW, ops + [op]) == T.Apply(T.Run(T.NEW, ops), op)
  {
    T.RunLast(T.NEW, ops + [op]);
    assert (ops + [op])[..|ops|] == ops;
  }

  lemma {:induction false} PrefixState(es: seq<I2s.Event>, e: I2s.Event, n: nat)
    requires n <= |es|
    ensures I2s.StateAt(es + [e], n) == I2s.StateAt(es, n)
  {
    if n > 0 {
      PrefixState(es, e, n - 1);
    }
  }

  // The desk's chips and register are those of their own histories.
  lemma {:induction false} Parts(events: seq<Event>)
    ensures After(events).ts == T.Run(T.NEW, ChipOps(events))
    ensures After(events).reg == I2s.StateAt(I2sEvents(events), |I2sEvents(events)|)
  {
    if events != [] {
      var front, e := events[..|events| - 1], events[|events| - 1];
      Parts(front);
      if e.OnChips? {
        OneMoreOp(ChipOps(front), e.op);
      } else if e.OnI2s? {
        PrefixState(I2sEvents(front), e.e, |I2sEvents(front)|);
      }
    }
  }

  lemma HeldLevelInRange(front: seq<Event>, b: Beeper, dac: Dac)
    requires T.KnownSums(ChipOps(front)) && I2s.TenBit(I2sEvents(front), |I2sEvents(front)|)
    ensures InRange(LevelOf(After(front), b, dac), 0, MIX_MAX)
  {
    var d := After(front);
    Parts(front);
    ReachableMix(ChipOps(front), I2sEvents(front), b, dac, d.exclusive, d.mute);
  }

  ghost predicate SlicesInRange(s: seq<Slice>) { forall i | 0 <= i < |s| :: InRange(s[i].level, 0, MIX_MAX) }

  lemma {:induction false} SlicesStayInRange(events: seq<Event>)
    requires Sound(events)
    ensures SlicesInRange(After(events).slices)
  {
    if events != [] {
      var front, e := events[..|events| - 1], events[|events| - 1];
      SlicesStayInRange(front);
      if e.Hold? {
        HeldLevelInRange(front, e.beeper, e.dac);
      }
    }
  }

  /** In every sound history the next sample lies in -6144..19896 and is the
      rounded average less the rest level: the 16-bit clamp never acts. */
  lemma ClampNeverActs(events: seq<Event>)
    requires Sound(events) && Cycles(After(events).slices) > 0
    ensures var s := After(events).slices;
            && Averaged(s) == Sample(AverageX4(SumLeft(s), Cycles(s)) - 4 * MIX_REST,
                                     AverageX4(SumRight(s), Cycles(s)) - 4 * MIX_REST)
            && Proper(Averaged(s))
  {
    SlicesStayInRange(events);
    SamplesStayInRange(After(events).slices);
  }

  predicate Proper(x: Sample) { -6144 <= x.left <= 19896 && -6144 <= x.right <= 19896 }

  ghost predicate AllProper(q: seq<Sample>) { forall i | 0 <= i < |q| :: Proper(q[i]) }

  lemma EmittedMore(ops: seq<QueueOp>, op: QueueOp)
    ensures Emitted(ops + [op]) == Emitted(ops) + if op.Emit? then [op.sample] else []
  {
    assert (ops + [op])[..|ops|] == ops;
  }

  lemma EmitKeepsProper(ops: seq<QueueOp>, x: Sample)
    requires AllProper(Emitted(ops)) && Proper(x)
    ensures AllProper(Emitted(ops + [Emit(x)]))
  {
    EmittedMore(ops, Emit(x));
  }

  // One event on a desk whose samples so far, and the next, are proper.
  lemma ServeKeepsProper(d: Desk, e: Event)
    requires AllProper(Emitted(d.ops)) && (Cycles(d.slices) > 0 ==> Proper(Averaged(d.slices)))
    ensures AllProper(Emitted(Serve(d, e).ops))
  {
    if e.ReadOut? {
      EmittedMore(d.ops, Read(e.count));
    } else if e.EmitNow? && Cycles(d.slices) > 0 {
      EmitKeepsProper(d.ops, Averaged(d.slices));
    }
  }

  lemma NextIsProper(events: seq<Event>)
    requires Sound(events)
    ensures var s := After(events).slices; Cycles(s) > 0 ==> Proper(Averaged(s))
  {
    if Cycles(After(events).slices) > 0 {
      ClampNeverActs(events);
    }
  }

  lemma {:induction false} EmittedAreProper(events: seq<Event>)
    requires Sound(events)
    ensures AllProper(Emitted(After(events).ops))
  {
    if events != [] {
      var front := events[..|events| - 1];
      EmittedAreProper(front);
      NextIsProper(front);
      ServeKeepsProper(After(front), events[|events| - 1]);
    }
  }

  /** In every history of the output, the queue is the newest unread samples in
      order, at most 4096 of them; and if the history is sound, all of them lie in
      -6144..19896. */
  lemma QueueOverHistories(events: seq<Event>)
    ensures var ops := After(events).ops;
            && 0 <= FirstUnread(ops) <= |Emitted(ops)| <= FirstUnread(ops) + RING
            && QueueAfter(ops) == Emitted(ops)[FirstUnread(ops)..]
            && (Sound(events) ==> AllProper(QueueAfter(ops)))
  {
    var ops := After(events).ops;
    QueueIsNewest(ops);
    if Sound(events) {
      EmittedAreProper(events);
      assert forall i | 0 <= i < |QueueAfter(ops)| :: QueueAfter(ops)[i] == Emitted(ops)[FirstUnread(ops) + i];
    }
  }

  // --------------------------------------------------- the objects do it ---

  // The mixer holds what the desk holds.
  ghost predicate MixerShows(m: Mixer, d: Desk)
    reads m, m.buffer
  {
    && m.Valid() && m.excI == d.exclusive && m.muteMask == d.mute && m.slices == d.slices
    && m.Queue() == QueueAfter(d.ops)
  }

  // And so do the objects it listens to.
  ghost predicate InputsShow(ts: TurboSound, pi: I2s.I2s, d: Desk)
    reads ts, ts.ay0, ts.ay1, ts.ay2, pi
  {
    ts.Valid() && ts.View() == d.ts && pi.Valid() && pi.At() == d.reg
  }

  lemma QueueMore(ops: seq<QueueOp>, op: QueueOp)
    ensures QueueAfter(ops + [op]) == QueueStep(QueueAfter(ops), op)
  {
    assert (ops + [op])[..|ops|] == ops;
  }

  method ServeI2s(pi: I2s.I2s, e: I2s.Event)
    requires pi.Valid()
    modifies pi
    ensures pi.Valid() && pi.At() == I2s.After(old(pi.At()), e)
  {
    match e
    case Latch(l, r) => pi.SetSample(l, r);
    case Control(ctl) => pi.SetControl(ctl);
    case Load(l, r) => pi.LoadState(l, r);
  }

  method ServeHold(m: Mixer, pcm: T.Pcm, e: Event, ghost d: Desk)
    requires e.Hold? && MixerShows(m, d) && pcm == d.ts.pcm
    requires m.i2s != null && m.i2s.Valid() && m.i2s.At() == d.reg
    modifies m`accL, m`accR, m`accCycles, m`slices
    ensures MixerShows(m, Serve(d, e))
  {
    m.Accumulate(e.beeper, pcm, e.dac, e.cycles);
  }

  method ServeEmit(m: Mixer, ghost d: Desk)
    requires MixerShows(m, d)
    modifies m`writePos, m`readPos, m`count, m`accL, m`accR, m`accCycles, m`slices, m.buffer
    ensures MixerShows(m, Serve(d, EmitNow))
  {
    if Cycles(d.slices) > 0 {
      QueueMore(d.ops, Emit(Averaged(d.slices)));
    }
    m.EmitSample();
  }

  // The host takes n samples into a buffer of its own.
  method TakeSamples(m: Mixer, n: nat)
    requires m.Valid()
    modifies m`readPos, m`count
    ensures m.Valid() && m.Queue() == QueueStep(old(m.Queue()), Read(n))
  {
    var out := new int[2 * n];
    var _ := m.ReadSamples(out, n);
  }

  method ServeRead(m: Mixer, n: nat, ghost d: Desk)
    requires MixerShows(m, d)
    modifies m`readPos, m`count
    ensures MixerShows(m, Serve(d, ReadOut(n)))
  {
    TakeSamples(m, n);
    QueueMore(d.ops, Read(n));
  }

  // The events that reach the mixer.
  method ServeMixer(m: Mixer, pcm: T.Pcm, e: Event, ghost d: Desk)
    requires MixerShows(m, d) && !e.OnChips? && !e.OnI2s? && pcm == d.ts.pcm
    requires m.i2s != null && m.i2s.Valid() && m.i2s.At() == d.reg
    modifies m, m.buffer
    ensures MixerShows(m, Serve(d, e)) && m.i2s == old(m.i2s)
  {
    match e
    case Exclusive(on) => m.SetExcI(on);
    case MuteMask(mask) => m.SetMuteMask(mask);
    case Hold(_, _, _) => ServeHold(m, pcm, e, d);
    case EmitNow => ServeEmit(m, d);
    case ReadOut(n) => ServeRead(m, n, d);
    case ResetMixer => m.Reset();
    case _ =>
  }

  // The events that reach the objects the mixer listens to.
  method ServeInputs(ts: TurboSound, pi: I2s.I2s, e: Event, ghost d: Desk)
    requires InputsShow(ts, pi, d) && (e.OnChips? || e.OnI2s?)
    modifies ts, ts.ay0, ts.ay1, ts.ay2, pi
    ensures InputsShow(ts, pi, Serve(d, e))
  {
    match e
    case OnChips(op) => ts.Do(op);
    case OnI2s(e) => ServeI2s(pi, e);
    case _ =>
  }

  lemma ServeParts(d: Desk, e: Event)
    ensures !e.OnChips? && !e.OnI2s? ==> Serve(d, e).ts == d.ts && Serve(d, e).reg == d.reg
    ensures e.OnChips? || e.OnI2s? ==>
              var s := Serve(d, e);
              s.exclusive == d.exclusive && s.mute == d.mute && s.slices == d.slices && s.ops == d.ops
  {
  }

  method ServeDesk(ts: TurboSound, pi: I2s.I2s, m: Mixer, e: Event, ghost d: Desk)
    requires InputsShow(ts, pi, d) && MixerShows(m, d) && m.i2s == pi
    modifies ts, ts.ay0, ts.ay1, ts.ay2, pi, m, m.buffer
    ensures InputsShow(ts, pi, Serve(d, e)) && MixerShows(m, Serve(d, e)) && m.i2s == pi
  {
    ServeParts(d, e);
    if e.OnChips? || e.OnI2s? {
      ServeInputs(ts, pi, e, d);
    } else {
      ServeMixer(m, ts.pcm, e, d);
    }
  }

  lemma AfterMore(events: seq<Event>, i: nat)
    requires i < |events|
    ensures After(events[..i + 1]) == Serve(After(events[..i]), events[i])
  {
    assert events[..i + 1][..i] == events[..i];
  }

  // One history on real objects, from power-on: what the mixer then holds is the
  // newest unread samples, in range if the history is sound.
  method RunDesk(events: seq<Event>) returns (m: Mixer)
    ensures m.Valid() && m.Queue() == QueueAfter(After(events).ops) && |m.Queue()| <= RING
    ensures var ops := After(events).ops;
            0 <= FirstUnread(ops) <= |Emitted(ops)| && m.Queue() == Emitted(ops)[FirstUnread(ops)..]
    ensures Sound(events) ==> AllProper(m.Queue())
  {
    var ts := new TurboSound();
    var pi := new I2s.I2s();
    m := new Mixer();
    m.i2s := pi;
    ghost var d := START;
    for i := 0 to |events|
      invariant fresh(ts) && fresh(ts.ay0) && fresh(ts.ay1) && fresh(ts.ay2)
      invariant fresh(pi) && fresh(m) && fresh(m.buffer) && m.i2s == pi
      invariant d == After(events[..i]) && InputsShow(ts, pi, d) && MixerShows(m, d)
    {
      AfterMore(events, i);
      ServeDesk(ts, pi, m, events[i], d);
      d := Serve(d, events[i]);
    }
    assert events[..|events|] == events;
    QueueOverHistories(events);
  }
}
