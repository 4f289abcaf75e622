/**
 The single-producer, single-consumer ring of src/audio/pi_audio.cpp as a
 transition system.  Each thread is a program counter that moves one shared
 access at a time, so a run is any interleaving of reader-thread steps (push)
 and emulator-thread steps (pop, set_tape_mode), under sequential consistency.

 `head` and `tail` are the 32-bit wrapping counters the threads share; `log`,
 `taken`, `outs`, `attempted` and `refused` are history that no step reads.
 A load of the counter that only the loading thread stores is taken together
 with the shared access next to it.
 */
module PiRing {

  const CAPACITY: nat := 131072
  const WORD: nat := 0x1_0000_0000
  const PREBUFFER: nat := 2205
  const TARGET: nat := 4410
  const MAX_LATENCY: nat := 13230
  const TAPE_TARGET: nat := 11025
  const TAPE_BAND: nat := 3308
  const TAPE_ADJUST_EVERY: nat := 500
  const TAPE_MAX_LATENCY: nat := 44100

  type int16 = x: int | -32768 <= x < 32768

  datatype Frame = Frame(left: int16, right: int16)

  // What a pop that plays has decided before it touches the ring: frames seen
  // queued, frames trimmed, frames the tail moves past the played one.
  datatype Plan = Plan(available: nat, trim: nat, step: nat, restart: bool)

  // What one completed pop gave its caller.
  datatype Outcome =
    | Silent
    | Played(index: nat, frame: Frame, tape: bool, plan: Plan)

  datatype Producer =
    | PIdle
    | PBegin(frame: Frame)
    | PRefuse
    | PFlag
    | PLeft(frame: Frame)
    | PRight(frame: Frame)
    | PStore(frame: Frame)
    | PCount

  datatype Consumer =
    | CIdle
    | CBegin
    | CLoaded(available: nat)
    | CFlush(available: nat)
    | CFlushStore(available: nat)
    | CUnderrun
    | CAdjust(plan: Plan)
    | CLeft(plan: Plan)
    | CRight(plan: Plan, left: int16)
    | CStore(plan: Plan, frame: Frame)
    | TBegin
    | TStore(skip: nat)
    | TCount(skip: nat)

  // What both threads reach.
  datatype Memory = Memory(head: nat, tail: nat, overflowed: bool, ring: seq<int16>)

  // What only the emulator thread reaches.
  datatype Own = Own(playing: bool, tapeMode: bool, sinceAdjust: nat)

  datatype Stats = Stats(received: nat, dropped: nat, underruns: nat, skipped: nat, repeated: nat)

  datatype History =
    History(log: seq<Frame>, taken: nat, outs: seq<Outcome>, attempted: nat, refused: nat)

  datatype State =
    State(mem: Memory, own: Own, stats: Stats, p: Producer, c: Consumer, hist: History)

  const Initial: State :=
    State(Memory(0, 0, false, seq(2 * CAPACITY, _ => 0)), Own(false, false, 0),
          Stats(0, 0, 0, 0, 0), PIdle, CIdle, History([], 0, [], 0, 0))

  function Prebuffer(tape: bool): nat { if tape then TAPE_TARGET else PREBUFFER }
  function Target(tape: bool): nat { if tape then TAPE_TARGET else TARGET }
  function MaxLatency(tape: bool): nat { if tape then TAPE_MAX_LATENCY else MAX_LATENCY }

  // `head - tail` in 32-bit unsigned arithmetic.
  function Distance(head: nat, tail: nat): nat { (head - tail) % WORD }

  // The ring slot of a frame index.
  function Slot(index: nat): nat { index % CAPACITY }

  // ---------------------------------------------------------------- steps --

  datatype Action =
    | CallPush(frame: Frame)
    | CallPop
    | CallTape(on: bool)
    | StepProducer
    | StepConsumer

  // One atomic step; an action that is not enabled leaves the state alone.
  function Step(s: State, a: Action): State {
    match a
    case CallPush(f) =>
      if s.p.PIdle? then s.(p := PBegin(f), hist := s.hist.(attempted := s.hist.attempted + 1)) else s
    case CallPop => if s.c.CIdle? then s.(c := CBegin) else s
    case CallTape(on) => if s.c.CIdle? && on != s.own.tapeMode then EnterTape(s, on) else s
    case StepProducer => ProducerStep(s)
    case StepConsumer => ConsumerStep(s)
  }

  // set_tape_mode up to its first shared access.
  function EnterTape(s: State, on: bool): State {
    if on then s.(own := Own(false, true, 0))
    else s.(own := Own(s.own.playing, false, 0), c := TBegin)
  }

  function ProducerStep(s: State): State {
    var m := s.mem;
    match s.p
    case PIdle => s
    case PBegin(f) => s.(p := if Distance(m.head, m.tail) >= CAPACITY then PRefuse else PLeft(f))
    case PRefuse =>
      s.(p := PFlag, stats := s.stats.(dropped := s.stats.dropped + 1),
         hist := s.hist.(refused := s.hist.refused + 1))
    case PFlag => s.(p := PIdle, mem := m.(overflowed := true))
    case PLeft(f) => s.(p := PRight(f), mem := m.(ring := Put(m.ring, 2 * Slot(m.head), f.left)))
    case PRight(f) => s.(p := PStore(f), mem := m.(ring := Put(m.ring, 2 * Slot(m.head) + 1, f.right)))
    case PStore(f) =>
      s.(p := PCount, mem := m.(head := (m.head + 1) % WORD), hist := s.hist.(log := s.hist.log + [f]))
    case PCount => s.(p := PIdle, stats := s.stats.(received := s.stats.received + 1))
  }

  function ConsumerStep(s: State): State {
    var m, h := s.mem, s.hist;
    match s.c
    case CIdle => s
    case CBegin => s.(c := CLoaded(Distance(m.head, m.tail)))
    case CLoaded(n) =>
      if m.overflowed then s.(mem := m.(overflowed := false), c := CFlush(n)) else Decide(s, n)
    case CFlush(n) =>
      s.(stats := s.stats.(dropped := s.stats.dropped + n), c := CFlushStore(n))
    case CFlushStore(n) =>
      s.(mem := Advance(m, n), own := s.own.(playing := false), c := CIdle,
         hist := h.(taken := h.taken + n, outs := h.outs + [Silent]))
    case CUnderrun =>
      s.(stats := s.stats.(underruns := s.stats.underruns + 1), c := CIdle,
         hist := h.(outs := h.outs + [Silent]))
    case CAdjust(plan) => s.(stats := Adjusted(s.stats, plan), c := CLeft(plan))
    case CLeft(plan) => s.(c := CRight(plan, Get(m.ring, 2 * Slot(m.tail + plan.trim))))
    case CRight(plan, l) =>
      s.(c := CStore(plan, Frame(l, Get(m.ring, 2 * Slot(m.tail + plan.trim) + 1))))
    case CStore(plan, f) =>
      s.(mem := Advance(m, plan.trim + plan.step), c := CIdle,
         hist := h.(taken := h.taken + plan.trim + plan.step,
                    outs := h.outs + [Played(h.taken + plan.trim, f, s.own.tapeMode, plan)]))
    case TBegin =>
      var n := Distance(m.head, m.tail);
      s.(c := if n > TARGET then TStore(n - TARGET) else CIdle)
    case TStore(skip) =>
      s.(mem := Advance(m, skip), c := TCount(skip), hist := h.(taken := h.taken + skip))
    case TCount(skip) => s.(stats := s.stats.(dropped := s.stats.dropped + skip), c := CIdle)
  }

  function Advance(m: Memory, n: nat): Memory { m.(tail := (m.tail + n) % WORD) }

  function Adjusted(t: Stats, plan: Plan): Stats {
    t.(dropped := t.dropped + plan.trim,
       skipped := t.skipped + (if plan.step == 2 then 1 else 0),
       repeated := t.repeated + (if plan.step == 0 then 1 else 0))
  }

  // The part of pop between the overflow test and the ring reads; it touches
  // consumer-side state only.
  function Decide(s: State, available: nat): State {
    if !s.own.playing && available < Prebuffer(s.own.tapeMode) then
      s.(c := CIdle, hist := s.hist.(outs := s.hist.outs + [Silent]))
    else if available == 0 then
      s.(own := s.own.(playing := false), c := CUnderrun)
    else
      s.(own := s.own.(playing := true, sinceAdjust := SinceAfter(s.own, available)),
         c := CAdjust(PlanFor(s.own, available)))
  }

  // The adjustment counter when the tape steering looks at it.
  function Bumped(own: Own): nat {
    var since := if own.playing then own.sinceAdjust else 0;
    if own.tapeMode && since < TAPE_ADJUST_EVERY then since + 1 else since
  }

  function PlanFor(own: Own, available: nat): Plan {
    var tape := own.tapeMode;
    var trim := if available > MaxLatency(tape) then available - Target(tape) else 0;
    var level := available - trim;
    var step :=
      if !tape || Bumped(own) < TAPE_ADJUST_EVERY then 1
      else if level > TAPE_TARGET + TAPE_BAND then 2
      else if level < TAPE_TARGET - TAPE_BAND then 0
      else 1;
    Plan(available, trim, step, !own.playing)
  }

  function SinceAfter(own: Own, available: nat): nat {
    if PlanFor(own, available).step == 1 then Bumped(own) else 0
  }

  function Put(ring: seq<int16>, i: nat, v: int16): seq<int16> {
    if i < |ring| then ring[i := v] else ring
  }

  function Get(ring: seq<int16>, i: nat): int16 {
    if i < |ring| then ring[i] else 0
  }

  function Run(s: State, actions: seq<Action>): State
    decreases |actions|
  {
    if actions == [] then s else Run(Step(s, actions[0]), actions[1..])
  }

  // ------------------------------------------------------------ invariant --

  // Frames the in-flight pop or set_tape_mode has promised itself: how far
  // beyond `taken` it will still move or read.
  function Claim(c: Consumer): nat {
    match c
    case CLoaded(n) => n
    case CFlush(n) => n
    case CFlushStore(n) => n
    case CAdjust(plan) => plan.available
    case CLeft(plan) => plan.available
    case CRight(plan, _) => plan.available
    case CStore(plan, _) => plan.available
    case TStore(skip) => skip
    case _ => 0
  }

  predicate MidPlay(c: Consumer) { c.CAdjust? || c.CLeft? || c.CRight? || c.CStore? }

  // The counters as unbounded numbers: |log| frames stored, `taken` consumed.
  ghost predicate Window(s: State) {
    && s.mem.head == |s.hist.log| % WORD
    && s.mem.tail == s.hist.taken % WORD
    && s.hist.taken + Claim(s.c) <= |s.hist.log| <= s.hist.taken + CAPACITY
    && ((s.p.PLeft? || s.p.PRight? || s.p.PStore?) ==> |s.hist.log| < s.hist.taken + CAPACITY)
  }

  // A decision is within the mode's bounds and never moves past what it saw.
  ghost predicate PlanOk(plan: Plan, tape: bool) {
    && 1 <= plan.available
    && plan.trim < plan.available
    && (plan.trim > 0 <==> plan.available > MaxLatency(tape))
    && plan.available - plan.trim <= MaxLatency(tape)
    && plan.step <= 2
    && plan.trim + plan.step <= plan.available
    && (plan.restart ==> plan.available >= Prebuffer(tape))
    && (plan.step != 1 ==> tape)
  }

  ghost predicate PlansOk(s: State) {
    && (MidPlay(s.c) ==> PlanOk(s.c.plan, s.own.tapeMode) && s.own.playing)
    && (s.c.CUnderrun? ==> !s.own.playing)
  }

  // Every stored, unconsumed frame is in its slot; halves in flight are exact.
  ghost predicate Contents(s: State) {
    && |s.mem.ring| == 2 * CAPACITY
    && (forall i {:trigger s.hist.log[i]} | s.hist.taken <= i < |s.hist.log| ::
          s.mem.ring[2 * Slot(i)] == s.hist.log[i].left && s.mem.ring[2 * Slot(i) + 1] == s.hist.log[i].right)
    && (s.p.PRight? || s.p.PStore? ==> s.mem.ring[2 * Slot(|s.hist.log|)] == s.p.frame.left)
    && (s.p.PStore? ==> s.mem.ring[2 * Slot(|s.hist.log|) + 1] == s.p.frame.right)
    && (s.c.CRight? ==> var x := s.hist.taken + s.c.plan.trim; x < |s.hist.log| ==> s.c.left == s.hist.log[x].left)
    && (s.c.CStore? ==> var x := s.hist.taken + s.c.plan.trim; x < |s.hist.log| ==> s.c.frame == s.hist.log[x])
  }

  ghost predicate Inv(s: State) { Window(s) && PlansOk(s) && Contents(s) }

  // ----------------------------------------------- arithmetic of wrapping --

  lemma WordDistance(h: nat, t: nat)
    requires t <= h < t + WORD
    ensures Distance(h % WORD, t % WORD) == h - t
  {
    var a, b := h / WORD, t / WORD;
    assert h == WORD * a + h % WORD && t == WORD * b + t % WORD;
    assert h % WORD - t % WORD == (h - t) + WORD * (b - a);
    assert a == b || a == b + 1;
  }

  lemma WordSlot(i: nat)
    ensures Slot(i % WORD) == Slot(i)
  {
    var q := i / WORD;
    assert i == i % WORD + CAPACITY * (32768 * q);
  }

  lemma WordAdd(i: nat, n: nat)
    ensures (i % WORD + n) % WORD == (i + n) % WORD
  {
    var q := i / WORD;
    assert i + n == i % WORD + n + WORD * q;
  }

  lemma WordAddSlot(i: nat, n: nat)
    ensures Slot(i % WORD + n) == Slot(i + n)
  {
    var q := i / WORD;
    assert i + n == (i % WORD + n) + CAPACITY * (32768 * q);
  }

  lemma SlotsDiffer(i: nat, j: nat)
    requires i < j < i + CAPACITY
    ensures Slot(i) != Slot(j)
  {
    var a, b := i / CAPACITY, j / CAPACITY;
    assert i == CAPACITY * a + Slot(i) && j == CAPACITY * b + Slot(j);
    assert a == b || b >= a + 1;
    assert b <= a + 1;
  }

  // ------------------------------------------- the invariant is preserved --

  lemma InitialInv()
    ensures Inv(Initial)
  {
  }

  lemma ProducerKeepsWindow(s: State)
    requires Inv(s)
    ensures Window(ProducerStep(s)) && PlansOk(ProducerStep(s))
  {
    match s.p
    case PBegin(_) => WordDistance(|s.hist.log|, s.hist.taken);
    case PStore(_) => WordAdd(|s.hist.log|, 1);
    case PIdle =>
    case PRefuse =>
    case PFlag =>
    case PLeft(_) =>
    case PRight(_) =>
    case PCount =>
  }

  // Storing into the slot of the next frame leaves every live slot alone.
  lemma PutIsFresh(s: State, half: nat, v: int16)
    requires Inv(s) && |s.hist.log| < s.hist.taken + CAPACITY && half <= 1
    ensures forall i {:trigger s.hist.log[i]} | s.hist.taken <= i < |s.hist.log| ::
              var r := Put(s.mem.ring, 2 * Slot(|s.hist.log|) + half, v);
              r[2 * Slot(i)] == s.hist.log[i].left && r[2 * Slot(i) + 1] == s.hist.log[i].right
  {
    forall i {:trigger s.hist.log[i]} | s.hist.taken <= i < |s.hist.log|
      ensures var r := Put(s.mem.ring, 2 * Slot(|s.hist.log|) + half, v);
              r[2 * Slot(i)] == s.hist.log[i].left && r[2 * Slot(i) + 1] == s.hist.log[i].right
    {
      SlotsDiffer(i, |s.hist.log|);
    }
  }

  // Publishing the new head adds exactly the frame both halves were stored of.
  lemma PublishKeepsContents(s: State)
    requires Inv(s) && s.p.PStore?
    ensures Contents(ProducerStep(s))
  {
    var s' := ProducerStep(s);
    forall i {:trigger s'.hist.log[i]} | s'.hist.taken <= i < |s'.hist.log|
      ensures s'.mem.ring[2 * Slot(i)] == s'.hist.log[i].left && s'.mem.ring[2 * Slot(i) + 1] == s'.hist.log[i].right
    {
      if i < |s.hist.log| {
        assert s.hist.log[i] == s'.hist.log[i];
      }
    }
  }

  lemma ProducerKeepsContents(s: State)
    requires Inv(s)
    ensures Contents(ProducerStep(s))
  {
    match s.p
    case PLeft(f) => WordSlot(|s.hist.log|); PutIsFresh(s, 0, f.left);
    case PRight(f) => WordSlot(|s.hist.log|); PutIsFresh(s, 1, f.right);
    case PStore(f) => PublishKeepsContents(s);
    case PIdle =>
    case PBegin(_) =>
    case PRefuse =>
    case PFlag =>
    case PCount =>
  }

  lemma DecideKeepsWindow(s: State, n: nat)
    requires Inv(s) && s.c == CLoaded(n) && !s.mem.overflowed
    ensures Window(Decide(s, n)) && PlansOk(Decide(s, n))
  {
  }

  // How far the consumer's next step moves the tail.
  function Moves(c: Consumer): nat {
    match c
    case CStore(plan, _) => plan.trim + plan.step
    case CFlushStore(n) => n
    case TStore(skip) => skip
    case _ => 0
  }

  lemma AdvanceKeepsWindow(s: State)
    requires Inv(s) && (s.c.CStore? || s.c.CFlushStore? || s.c.TStore?)
    ensures Window(ConsumerStep(s)) && PlansOk(ConsumerStep(s))
  {
    WordAdd(s.hist.taken, Moves(s.c));
  }

  lemma LoadKeepsWindow(s: State)
    requires Inv(s) && (s.c.CBegin? || s.c.TBegin?)
    ensures Window(ConsumerStep(s)) && PlansOk(ConsumerStep(s))
  {
    WordDistance(|s.hist.log|, s.hist.taken);
  }

  lemma ConsumerKeepsWindow(s: State)
    requires Inv(s)
    ensures Window(ConsumerStep(s)) && PlansOk(ConsumerStep(s))
  {
    match s.c
    case CStore(_, _) => AdvanceKeepsWindow(s);
    case CFlushStore(_) => AdvanceKeepsWindow(s);
    case TStore(_) => AdvanceKeepsWindow(s);
    case CLoaded(n) => if !s.mem.overflowed { DecideKeepsWindow(s, n); }
    case CBegin => LoadKeepsWindow(s);
    case TBegin => LoadKeepsWindow(s);
    case CIdle =>
    case CFlush(_) =>
    case CUnderrun =>
    case CAdjust(_) =>
    case CLeft(_) =>
    case CRight(_, _) =>
    case TCount(_) =>
  }

  lemma ReadsAreExact(s: State)
    requires Inv(s) && (s.c.CLeft? || s.c.CRight?)
    ensures Contents(ConsumerStep(s))
  {
    var plan := s.c.plan;
    WordAddSlot(s.hist.taken, plan.trim);
    assert s.mem.ring[2 * Slot(s.hist.taken + plan.trim)] == s.hist.log[s.hist.taken + plan.trim].left;
  }

  // The consumer writes neither the ring nor the producer's side, and only its
  // three storing steps move the tail.
  lemma ConsumerFrame(s: State)
    ensures var s' := ConsumerStep(s);
            && s'.mem.ring == s.mem.ring && s'.mem.head == s.mem.head && s'.p == s.p
            && s'.hist.log == s.hist.log && s'.hist.taken == s.hist.taken + Moves(s.c)
            && (s'.c.CRight? ==> s.c.CLeft?) && (s'.c.CStore? ==> s.c.CRight?)
  {
  }

  lemma ConsumerKeepsContents(s: State)
    requires Inv(s)
    ensures Contents(ConsumerStep(s))
  {
    if s.c.CLeft? || s.c.CRight? {
      ReadsAreExact(s);
    } else {
      ConsumerFrame(s);
      ContentsFrame(s, ConsumerStep(s));
    }
  }

  lemma ContentsFrame(s: State, s': State)
    requires Contents(s)
    requires s'.mem.ring == s.mem.ring && s'.hist.log == s.hist.log && s'.p == s.p && s'.hist.taken >= s.hist.taken
    requires !s'.c.CRight? && !s'.c.CStore?
    ensures Contents(s')
  {
  }

  lemma StepKeepsInv(s: State, a: Action)
    requires Inv(s)
    ensures Inv(Step(s, a))
  {
    match a
    case StepProducer => ProducerKeepsWindow(s); ProducerKeepsContents(s);
    case StepConsumer => ConsumerKeepsWindow(s); ConsumerKeepsContents(s);
    case _ =>
  }

  lemma {:induction false} RunKeepsInv(s: State, actions: seq<Action>)
    requires Inv(s)
    ensures Inv(Run(s, actions))
    decreases |actions|
  {
    if actions != [] {
      StepKeepsInv(s, actions[0]);
      RunKeepsInv(Step(s, actions[0]), actions[1..]);
    }
  }

  lemma {:induction false} RunAppend(s: State, a: seq<Action>, b: seq<Action>)
    ensures Run(s, a + b) == Run(Run(s, a), b)
    decreases |a|
  {
    if a == [] {
      assert a + b == b;
    } else {
      assert (a + b)[1..] == a[1..] + b;
      RunAppend(Step(s, a[0]), a[1..], b);
    }
  }

  // ------------------------------------------------------- ring safety ----

  // Under every interleaving and any amount of wrapping, the 32-bit difference
  // of the counters is the number of stored, unconsumed frames, never above
  // the capacity, and each of those frames is intact in its slot.
  lemma {:induction false} RingSafety(actions: seq<Action>)
    ensures var s := Run(Initial, actions);
            && s.hist.taken <= |s.hist.log| <= s.hist.taken + CAPACITY
            && Distance(s.mem.head, s.mem.tail) == |s.hist.log| - s.hist.taken
            && |s.mem.ring| == 2 * CAPACITY
            && (forall i {:trigger s.hist.log[i]} | s.hist.taken <= i < |s.hist.log| ::
                  && s.mem.ring[2 * Slot(i)] == s.hist.log[i].left
                  && s.mem.ring[2 * Slot(i) + 1] == s.hist.log[i].right)
  {
    InitialInv();
    RunKeepsInv(Initial, actions);
    var s := Run(Initial, actions);
    WordDistance(|s.hist.log|, s.hist.taken);
  }

  // The producer never stores into a slot the consumer is about to read, nor
  // into any slot of a frame the consumer has not yet stepped past.
  lemma {:induction false} NoRace(actions: seq<Action>, i: nat)
    requires var s := Run(Initial, actions);
             && (s.p.PLeft? || s.p.PRight?)
             && s.hist.taken <= i < |s.hist.log|
    ensures var s := Run(Initial, actions);
            && Slot(s.mem.head) != Slot(i)
            && (s.c.CLeft? || s.c.CRight? ==>
                  Slot(s.mem.head) != Slot(s.mem.tail + s.c.plan.trim))
  {
    InitialInv();
    RunKeepsInv(Initial, actions);
    var s := Run(Initial, actions);
    WordSlot(|s.hist.log|);
    SlotsDiffer(i, |s.hist.log|);
    if s.c.CLeft? || s.c.CRight? {
      WordAddSlot(s.hist.taken, s.c.plan.trim);
      SlotsDiffer(s.hist.taken + s.c.plan.trim, |s.hist.log|);
    }
  }
}
