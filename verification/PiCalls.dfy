/**
 push, pop and set_tape_mode as whole calls: one thread's steps run to the end
 of its call with the other thread standing still.  Each is one of the runs
 that PiRing interleaves.
 */
module PiCalls {
  import opened PiRing

  function ProducerRank(p: Producer): nat {
    match p
    case PIdle => 0
    case PCount => 1
    case PStore(_) => 2
    case PRight(_) => 3
    case PLeft(_) => 4
    case PFlag => 1
    case PRefuse => 2
    case PBegin(_) => 5
  }

  function ConsumerRank(c: Consumer): nat {
    match c
    case CIdle => 0
    case CFlushStore(_) => 1
    case CFlush(_) => 2
    case CUnderrun => 1
    case CStore(_, _) => 1
    case CRight(_, _) => 2
    case CLeft(_) => 3
    case CAdjust(_) => 4
    case CLoaded(_) => 5
    case CBegin => 6
    case TCount(_) => 1
    case TStore(_) => 2
    case TBegin => 3
  }

  function FinishProducer(s: State): State
    decreases ProducerRank(s.p)
  {
    if s.p.PIdle? then s else FinishProducer(ProducerStep(s))
  }

  function FinishConsumer(s: State): State
    decreases ConsumerRank(s.c)
  {
    if s.c.CIdle? then s else FinishConsumer(ConsumerStep(s))
  }

  function Push(s: State, f: Frame): State { FinishProducer(Step(s, CallPush(f))) }

  function Pop(s: State): State { FinishConsumer(Step(s, CallPop)) }

  function SetTapeMode(s: State, on: bool): State { FinishConsumer(Step(s, CallTape(on))) }

  // ------------------------------------------------- calls are runs --------

  lemma {:induction false} FinishProducerIsRun(s: State) returns (actions: seq<Action>)
    ensures Run(s, actions) == FinishProducer(s)
    decreases ProducerRank(s.p)
  {
    if s.p.PIdle? {
      actions := [];
    } else {
      var rest := FinishProducerIsRun(ProducerStep(s));
      actions := [StepProducer] + rest;
    }
  }

  lemma {:induction false} FinishConsumerIsRun(s: State) returns (actions: seq<Action>)
    ensures Run(s, actions) == FinishConsumer(s)
    decreases ConsumerRank(s.c)
  {
    if s.c.CIdle? {
      actions := [];
    } else {
      var rest := FinishConsumerIsRun(ConsumerStep(s));
      actions := [StepConsumer] + rest;
    }
  }

  lemma PushIsRun(s: State, f: Frame) returns (actions: seq<Action>)
    ensures Run(s, actions) == Push(s, f)
  {
    var rest := FinishProducerIsRun(Step(s, CallPush(f)));
    actions := [CallPush(f)] + rest;
  }

  lemma PopIsRun(s: State) returns (actions: seq<Action>)
    ensures Run(s, actions) == Pop(s)
  {
    var rest := FinishConsumerIsRun(Step(s, CallPop));
    actions := [CallPop] + rest;
  }

  lemma SetTapeModeIsRun(s: State, on: bool) returns (actions: seq<Action>)
    ensures Run(s, actions) == SetTapeMode(s, on)
  {
    var rest := FinishConsumerIsRun(Step(s, CallTape(on)));
    actions := [CallTape(on)] + rest;
  }

  // Hence every call keeps what every run keeps.
  lemma PushKeepsInv(s: State, f: Frame)
    requires Inv(s)
    ensures Inv(Push(s, f))
  {
    var a := PushIsRun(s, f);
    RunKeepsInv(s, a);
  }

  lemma PopKeepsInv(s: State)
    requires Inv(s)
    ensures Inv(Pop(s))
  {
    var a := PopIsRun(s);
    RunKeepsInv(s, a);
  }

  lemma SetTapeModeKeepsInv(s: State, on: bool)
    requires Inv(s)
    ensures Inv(SetTapeMode(s, on))
  {
    var a := SetTapeModeIsRun(s, on);
    RunKeepsInv(s, a);
  }

  // ------------------------------------------------- what calls do ---------

  function Stored(m: Memory, f: Frame): Memory {
    var i := Slot(m.head);
    m.(ring := Put(Put(m.ring, 2 * i, f.left), 2 * i + 1, f.right), head := (m.head + 1) % WORD)
  }

  lemma PushStores(s: State, f: Frame)
    requires s.p.PIdle? && Distance(s.mem.head, s.mem.tail) < CAPACITY
    ensures Push(s, f) ==
            s.(mem := Stored(s.mem, f),
               stats := s.stats.(received := s.stats.received + 1),
               hist := s.hist.(attempted := s.hist.attempted + 1, log := s.hist.log + [f]))
  {
    var s1 := ProducerStep(Step(s, CallPush(f)));
    var s2 := ProducerStep(s1);
    var s3 := ProducerStep(s2);
    assert s1.p == PLeft(f) && s2.p == PRight(f) && s3.p == PStore(f);
    var s4 := ProducerStep(s3);
    assert FinishProducer(s3) == FinishProducer(s4) == ProducerStep(s4);
    assert FinishProducer(s1) == FinishProducer(s3);
  }

  lemma PushRefuses(s: State, f: Frame)
    requires s.p.PIdle? && Distance(s.mem.head, s.mem.tail) >= CAPACITY
    ensures Push(s, f) ==
            s.(mem := s.mem.(overflowed := true),
               stats := s.stats.(dropped := s.stats.dropped + 1),
               hist := s.hist.(attempted := s.hist.attempted + 1, refused := s.hist.refused + 1))
  {
    var s1 := ProducerStep(Step(s, CallPush(f)));
    var s2 := ProducerStep(s1);
    assert s1.p == PRefuse && s2.p == PFlag;
    assert FinishProducer(s1) == FinishProducer(s2) == ProducerStep(s2);
  }

  // A push with room appends the frame; a push into a full ring only counts
  // the drop and raises the overflow flag.
  lemma PushEffect(s: State, f: Frame)
    requires Inv(s) && s.p.PIdle?
    ensures var s' := Push(s, f);
            && Inv(s') && s'.p.PIdle? && s'.c == s.c && s'.own == s.own
            && s'.hist.attempted == s.hist.attempted + 1
            && s'.hist.taken == s.hist.taken && s'.hist.outs == s.hist.outs
            && (if |s.hist.log| - s.hist.taken < CAPACITY then
                  && s'.hist.log == s.hist.log + [f] && s'.mem.overflowed == s.mem.overflowed
                  && s'.stats == s.stats.(received := s.stats.received + 1)
                  && s'.hist.refused == s.hist.refused
                else
                  && s'.hist.log == s.hist.log && s'.mem == s.mem.(overflowed := true)
                  && s'.stats == s.stats.(dropped := s.stats.dropped + 1)
                  && s'.hist.refused == s.hist.refused + 1)
  {
    WordDistance(|s.hist.log|, s.hist.taken);
    PushKeepsInv(s, f);
    if |s.hist.log| - s.hist.taken < CAPACITY { PushStores(s, f); } else { PushRefuses(s, f); }
  }

  // The frame in the slot a plan points at.
  function FrameOf(m: Memory, plan: Plan): Frame {
    var i := Slot(m.tail + plan.trim);
    Frame(Get(m.ring, 2 * i), Get(m.ring, 2 * i + 1))
  }

  // The state after a decided play: counters, tail and one more outcome.
  function AfterPlay(s: State, plan: Plan): State {
    s.(stats := Adjusted(s.stats, plan), mem := Advance(s.mem, plan.trim + plan.step), c := CIdle,
       hist := s.hist.(taken := s.hist.taken + plan.trim + plan.step,
                       outs := s.hist.outs + [Played(s.hist.taken + plan.trim, FrameOf(s.mem, plan),
                                                     s.own.tapeMode, plan)]))
  }

  lemma FinishPlay(s: State)
    requires s.c.CAdjust?
    ensures FinishConsumer(s) == AfterPlay(s, s.c.plan)
  {
    var s1 := ConsumerStep(s);
    var s2 := ConsumerStep(s1);
    var s3 := ConsumerStep(s2);
    assert s3 == s1.(c := CStore(s.c.plan, FrameOf(s.mem, s.c.plan)));
    assert FinishConsumer(s3) == ConsumerStep(s3);
    assert FinishConsumer(s1) == FinishConsumer(s2) == FinishConsumer(s3);
  }

  function AfterSilence(s: State): State { s.(hist := s.hist.(outs := s.hist.outs + [Silent])) }

  function AfterFlush(s: State, n: nat): State {
    s.(stats := s.stats.(dropped := s.stats.dropped + n),
       mem := Advance(s.mem.(overflowed := false), n), own := s.own.(playing := false), c := CIdle,
       hist := s.hist.(taken := s.hist.taken + n, outs := s.hist.outs + [Silent]))
  }

  function AfterUnderrun(s: State): State {
    AfterSilence(s.(own := s.own.(playing := false), stats := s.stats.(underruns := s.stats.underruns + 1)))
  }

  lemma FinishFlush(s: State)
    requires s.c.CFlush? && !s.mem.overflowed
    ensures FinishConsumer(s) == AfterFlush(s, s.c.available)
  {
    var s1 := ConsumerStep(s);
    assert FinishConsumer(s) == FinishConsumer(s1) == ConsumerStep(s1);
  }

  // The whole of pop as one case distinction on what it saw.
  lemma PopCases(s: State)
    requires s.c.CIdle?
    ensures var n := Distance(s.mem.head, s.mem.tail);
            Pop(s) ==
            if s.mem.overflowed then AfterFlush(s, n)
            else if !s.own.playing && n < Prebuffer(s.own.tapeMode) then AfterSilence(s)
            else if n == 0 then AfterUnderrun(s)
            else AfterPlay(s.(own := s.own.(playing := true, sinceAdjust := SinceAfter(s.own, n))),
                           PlanFor(s.own, n))
  {
    var s0 := Step(s, CallPop);
    var s1 := ConsumerStep(s0);
    var s2 := ConsumerStep(s1);
    assert FinishConsumer(s0) == FinishConsumer(s1) == FinishConsumer(s2);
    match s2.c {
      case CFlush(_) => FinishFlush(s2);
      case CAdjust(_) => FinishPlay(s2);
      case _ =>
    }
  }

  // Leaving tape mode drops what lies beyond the music target, once.
  lemma LeavingTapeMode(s: State)
    requires s.c.CIdle? && s.own.tapeMode
    ensures var n := Distance(s.mem.head, s.mem.tail);
            var skip := if n > TARGET then n - TARGET else 0;
            SetTapeMode(s, false) ==
            s.(own := Own(s.own.playing, false, 0), mem := if skip > 0 then Advance(s.mem, skip) else s.mem,
               stats := s.stats.(dropped := s.stats.dropped + skip),
               hist := s.hist.(taken := s.hist.taken + skip))
  {
    var s0 := Step(s, CallTape(false));
    var s1 := ConsumerStep(s0);
    assert FinishConsumer(s0) == FinishConsumer(s1);
    if s1.c.TStore? {
      var s2 := ConsumerStep(s1);
      assert FinishConsumer(s1) == FinishConsumer(s2) == ConsumerStep(s2);
    }
  }

  // A pop that restarts playback with a full prebuffer plays the frame its
  // plan points at.
  lemma PopRestarts(s: State)
    requires Inv(s) && s.c.CIdle? && !s.mem.overflowed && !s.own.playing
    requires |s.hist.log| - s.hist.taken >= Prebuffer(s.own.tapeMode)
    ensures var s' := Pop(s);
            var plan := PlanFor(s.own, |s.hist.log| - s.hist.taken);
            && s'.c.CIdle? && |s'.hist.outs| == |s.hist.outs| + 1
            && s'.hist.outs[|s.hist.outs|].Played?
            && s'.hist.outs[|s.hist.outs|].index == s.hist.taken + plan.trim
  {
    WordDistance(|s.hist.log|, s.hist.taken);
    PopCases(s);
  }

  // A pop that sees the overflow flag forgets everything queued.
  lemma PopFlushes(s: State)
    requires Inv(s) && s.c.CIdle? && s.mem.overflowed
    ensures var s' := Pop(s);
            && s'.c.CIdle? && !s'.mem.overflowed && !s'.own.playing
            && s'.hist == s.hist.(taken := |s.hist.log|, outs := s.hist.outs + [Silent])
            && s'.stats == s.stats.(dropped := s.stats.dropped + |s.hist.log| - s.hist.taken)
  {
    WordDistance(|s.hist.log|, s.hist.taken);
    PopCases(s);
  }

  // ----------------------------------------------- many pushes in a row ----

  function PushAll(s: State, frames: seq<Frame>): State
    decreases |frames|
  {
    if frames == [] then s else PushAll(Push(s, frames[0]), frames[1..])
  }

  lemma {:induction false} PushAllIsRun(s: State, frames: seq<Frame>) returns (actions: seq<Action>)
    ensures Run(s, actions) == PushAll(s, frames)
    decreases |frames|
  {
    if frames == [] {
      actions := [];
    } else {
      var first := PushIsRun(s, frames[0]);
      var rest := PushAllIsRun(Push(s, frames[0]), frames[1..]);
      RunAppend(s, first, rest);
      actions := first + rest;
    }
  }

  // Frames that fit are all queued, in order, and nothing else changes.
  lemma {:induction false} PushAllFits(s: State, frames: seq<Frame>)
    requires Inv(s) && s.p.PIdle? && |s.hist.log| - s.hist.taken + |frames| <= CAPACITY
    ensures var s' := PushAll(s, frames);
            && Inv(s') && s'.p.PIdle? && s'.c == s.c && s'.own == s.own
            && s'.hist.log == s.hist.log + frames
            && s'.hist.taken == s.hist.taken && s'.hist.outs == s.hist.outs
            && s'.mem.overflowed == s.mem.overflowed
            && s'.stats == s.stats.(received := s.stats.received + |frames|)
    decreases |frames|
  {
    if frames != [] {
      PushEffect(s, frames[0]);
      PushAllFits(Push(s, frames[0]), frames[1..]);
      assert s.hist.log + [frames[0]] + frames[1..] == s.hist.log + frames;
    } else {
      assert s.hist.log + frames == s.hist.log;
    }
  }
}
