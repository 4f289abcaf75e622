/**
 What a drop does to the pops after it.  The header promises that after the
 ring overflowed the next pop flushes it and playback restarts on fresh audio.
 That holds for the next pop to load `head` exactly when no pop stood between
 its load of `head` and its overflow test at the moment the flag was raised.
 */
module PiOverflow {
  import opened PiRing
  import opened PiHistory
  import opened PiCalls

  // 1 if the pop in flight is already past its overflow test, so that the next
  // pop to load `head` is the one after it.
  function PastTest(c: Consumer): nat {
    if c.CFlush? || c.CFlushStore? || c.CUnderrun? || MidPlay(c) then 1 else 0
  }

  // Outcome number n is silent and every frame played from then on is at or
  // beyond `bound`.
  ghost predicate Flushed(outs: seq<Outcome>, n: nat, bound: nat) {
    && (n < |outs| ==> outs[n].Silent?)
    && (forall k {:trigger outs[k]} | n <= k < |outs| && outs[k].Played? :: outs[k].index >= bound)
  }

  // The stages between a raised flag and the flush it forces.
  ghost predicate Pending(s: State, n: nat, bound: nat) {
    var outs := s.hist.outs;
    if |outs| > n then
      Flushed(outs, n, bound) && s.hist.taken >= bound
    else if |outs| == n && (s.c.CFlush? || s.c.CFlushStore?) then
      s.hist.taken + Claim(s.c) >= bound
    else if |outs| == n && s.c.CLoaded? then
      s.mem.overflowed && s.hist.taken + Claim(s.c) >= bound
    else
      s.mem.overflowed && !s.c.CLoaded? && |outs| + PastTest(s.c) == n && bound <= |s.hist.log|
  }

  lemma ConsumerKeepsPending(s: State, n: nat, bound: nat)
    requires Inv(s) && Pending(s, n, bound)
    ensures Pending(ConsumerStep(s), n, bound)
  {
    var s' := ConsumerStep(s);
    match s.c
    case CBegin => WordDistance(|s.hist.log|, s.hist.taken);
    case CLoaded(_) =>
    case CStore(_, _) =>
    case CFlushStore(_) =>
    case CUnderrun =>
    case TStore(_) =>
    case TBegin =>
    case CIdle =>
    case CFlush(_) =>
    case CAdjust(_) =>
    case CLeft(_) =>
    case CRight(_, _) =>
    case TCount(_) =>
  }

  lemma StepKeepsPending(s: State, a: Action, n: nat, bound: nat)
    requires Inv(s) && Pending(s, n, bound)
    ensures Pending(Step(s, a), n, bound)
  {
    match a
    case StepConsumer => ConsumerKeepsPending(s, n, bound);
    case StepProducer => ProducerFrame(s); ProducerMonotone(s);
    case CallTape(_) =>
    case CallPop =>
    case CallPush(_) =>
  }

  lemma ProducerMonotone(s: State)
    ensures var s' := ProducerStep(s);
            && s'.hist.taken == s.hist.taken && |s.hist.log| <= |s'.hist.log|
            && (s.mem.overflowed ==> s'.mem.overflowed)
  {
  }

  lemma {:induction false} RunKeepsPending(s: State, actions: seq<Action>, n: nat, bound: nat)
    requires Inv(s) && Pending(s, n, bound)
    ensures Pending(Run(s, actions), n, bound)
    decreases |actions|
  {
    if actions != [] {
      StepKeepsInv(s, actions[0]);
      StepKeepsPending(s, actions[0], n, bound);
      RunKeepsPending(Step(s, actions[0]), actions[1..], n, bound);
    }
  }

  // The pop in flight has loaded `head` but not yet tested the flag.
  predicate InWindow(s: State) { s.c.CLoaded? }

  // Number of the outcome of the next pop to load `head`.
  function NextLoad(s: State): nat {
    |s.hist.outs| + (if InWindow(s) then 1 else PastTest(s.c))
  }

  // With no pop in the window, the next pop to load `head` after the drop is
  // silent, and nothing that was queued at the drop is ever played from there on.
  lemma {:induction false} DropIsFlushed(s: State, actions: seq<Action>)
    requires Inv(s) && s.p.PFlag? && !InWindow(s)
    ensures Flushed(Run(Step(s, StepProducer), actions).hist.outs, NextLoad(s), |s.hist.log|)
  {
    var s' := Step(s, StepProducer);
    StepKeepsInv(s, StepProducer);
    if s.c.CFlush? || s.c.CFlushStore? {
      assert PastTest(s.c) == 1;
    }
    RunKeepsPending(s', actions, NextLoad(s), |s.hist.log|);
  }

  // From a silent, flushed consumer: fill up to the prebuffer and pop once.
  lemma FillAndPop(s: State, f: Frame) returns (actions: seq<Action>)
    requires Inv(s) && s.p.PIdle? && s.c.CIdle? && !s.mem.overflowed && !s.own.playing
    ensures var outs := Run(s, actions).hist.outs;
            && |outs| == |s.hist.outs| + 1
            && outs[|s.hist.outs|].Played?
            && (s.hist.taken < |s.hist.log| ==> outs[|s.hist.outs|].index < |s.hist.log|)
  {
    var queued := |s.hist.log| - s.hist.taken;
    var need := Prebuffer(s.own.tapeMode);
    var frames := seq(if queued < need then need - queued else 0, _ => f);
    PushAllFits(s, frames);
    var s1 := PushAll(s, frames);
    var fill := PushAllIsRun(s, frames);
    PopRestarts(s1);
    var pop := PopIsRun(s1);
    RunAppend(s, fill, pop);
    actions := fill + pop;
  }

  // A pop in the window swallows the flag: it flushes only up to the head it
  // had loaded, and a run exists in which the next pop plays, and plays a
  // frame from before the drop if any was pushed inside the window.
  lemma WindowLosesFlush(s: State, f: Frame) returns (actions: seq<Action>)
    requires Inv(s) && s.p.PFlag? && InWindow(s)
    ensures var outs := Run(Step(s, StepProducer), actions).hist.outs;
            && NextLoad(s) < |outs| && outs[NextLoad(s)].Played?
            && (s.hist.taken + s.c.available < |s.hist.log| ==> outs[NextLoad(s)].index < |s.hist.log|)
  {
    var s1 := Step(s, StepProducer);
    StepKeepsInv(s, StepProducer);
    var s2 := ConsumerStep(s1);
    StepKeepsInv(s1, StepConsumer);
    var s3 := ConsumerStep(s2);
    StepKeepsInv(s2, StepConsumer);
    var s4 := ConsumerStep(s3);
    StepKeepsInv(s3, StepConsumer);
    assert s2.c == CFlush(s.c.available) && s3.c == CFlushStore(s.c.available);
    var flush := [StepConsumer, StepConsumer, StepConsumer];
    assert Run(s1, flush) == s4 by {
      assert flush[1..] == [StepConsumer, StepConsumer] && flush[1..][1..] == [StepConsumer];
      assert Run(s3, [StepConsumer]) == s4;
      assert Run(s2, [StepConsumer, StepConsumer]) == Run(s3, [StepConsumer]);
    }
    var rest := FillAndPop(s4, f);
    RunAppend(s1, flush, rest);
    actions := flush + rest;
  }

  // The header's promise, with its exact condition: in every reachable state
  // with the flag about to be raised, "whatever happens next, the next pop to
  // load `head` is silent" holds if and only if no pop is in the window.
  lemma {:induction false} FlushPromise(prefix: seq<Action>)
    requires Run(Initial, prefix).p.PFlag?
    ensures var s := Run(Initial, prefix);
            (forall actions: seq<Action> ::
               var outs := Run(Step(s, StepProducer), actions).hist.outs;
               NextLoad(s) < |outs| ==> outs[NextLoad(s)].Silent?)
            <==> !InWindow(s)
  {
    InitialInv();
    RunKeepsInv(Initial, prefix);
    var s := Run(Initial, prefix);
    if InWindow(s) {
      var actions := WindowLosesFlush(s, Frame(0, 0));
    } else {
      forall actions: seq<Action>
        ensures var outs := Run(Step(s, StepProducer), actions).hist.outs;
                NextLoad(s) < |outs| ==> outs[NextLoad(s)].Silent?
      {
        DropIsFlushed(s, actions);
      }
    }
  }

  // A pop that begins with the flag up is silent, and no frame queued when it
  // loads `head` is played by it or by any later pop, in any continuation.
  lemma {:induction false} NothingStaleAfterLoad(s: State, actions: seq<Action>)
    requires Inv(s) && s.mem.overflowed && s.c.CBegin?
    ensures Flushed(Run(s, actions).hist.outs, |s.hist.outs|, |s.hist.log|)
  {
    RunKeepsPending(s, actions, |s.hist.outs|, |s.hist.log|);
  }

  // The window is reachable: one frame and one refused frame arrive between a
  // pop's load of `head` and its test, so the promise really is broken.
  lemma WindowIsReachable(f: Frame) returns (prefix: seq<Action>)
    ensures var s := Run(Initial, prefix);
            && s.p.PFlag? && s.c == CLoaded(CAPACITY - 1)
            && s.hist.taken == 0 && |s.hist.log| == CAPACITY
  {
    InitialInv();
    var frames := seq(CAPACITY - 1, _ => f);
    PushAllFits(Initial, frames);
    var s1 := PushAll(Initial, frames);
    var a1 := PushAllIsRun(Initial, frames);

    var load := [CallPop, StepConsumer];
    var s2 := Step(Step(s1, CallPop), StepConsumer);
    StepKeepsInv(s1, CallPop);
    StepKeepsInv(Step(s1, CallPop), StepConsumer);
    WordDistance(|s1.hist.log|, 0);
    assert Run(s1, load) == s2 by { assert load[1..] == [StepConsumer]; }

    PushAllFits(s2, [f]);
    var s3 := PushAll(s2, [f]);
    var a3 := PushAllIsRun(s2, [f]);
    WordDistance(|s3.hist.log|, 0);

    var refuse := [CallPush(f), StepProducer, StepProducer];
    var s4 := Step(s3, CallPush(f));
    var s5 := Step(s4, StepProducer);
    var s6 := Step(s5, StepProducer);
    assert s5.p == PRefuse && s6.p == PFlag;
    assert Run(s3, refuse) == s6 by {
      assert refuse[1..] == [StepProducer, StepProducer] && refuse[1..][1..] == [StepProducer];
      assert Run(s5, [StepProducer]) == s6;
      assert Run(s4, [StepProducer, StepProducer]) == Run(s5, [StepProducer]);
    }
    RunAppend(Initial, a1, load);
    RunAppend(Initial, a1 + load, a3);
    RunAppend(Initial, a1 + load + a3, refuse);
    prefix := a1 + load + a3 + refuse;
  }
}
