/**
 The object over whole histories of calls: what a user of PiAudio can rely on.
 */
module PiObject {
  import opened Common
  import opened PiRing
  import opened PiHistory
  import opened PiCalls
  import opened PiAudioClass

  datatype Call = Pushes(frame: Frame) | Pops | TapeMode(on: bool)

  function Called(s: State, c: Call): State {
    match c
    case Pushes(f) => PiCalls.Push(s, f)
    case Pops => PiCalls.Pop(s)
    case TapeMode(on) => PiCalls.SetTapeMode(s, on)
  }

  function Calls(s: State, calls: seq<Call>): State {
    if calls == [] then s else Called(Calls(s, calls[..|calls| - 1]), calls[|calls| - 1])
  }

  lemma CalledKeepsInv(s: State, c: Call)
    requires Inv(s)
    ensures Inv(Called(s, c))
  {
    match c
    case Pushes(f) => PushKeepsInv(s, f);
    case Pops => PopKeepsInv(s);
    case TapeMode(on) => SetTapeModeKeepsInv(s, on);
  }

  // A finished call leaves neither thread inside one.
  lemma {:induction false} ConsumerFinishes(s: State)
    ensures FinishConsumer(s).c.CIdle? && FinishConsumer(s).p == s.p
    decreases ConsumerRank(s.c)
  {
    if !s.c.CIdle? {
      ConsumerFinishes(ConsumerStep(s));
    }
  }

  lemma {:induction false} ProducerFinishes(s: State)
    ensures FinishProducer(s).p.PIdle? && FinishProducer(s).c == s.c
    decreases ProducerRank(s.p)
  {
    if !s.p.PIdle? {
      ProducerFinishes(ProducerStep(s));
    }
  }

  lemma CalledIsIdle(s: State, c: Call)
    requires s.p.PIdle? && s.c.CIdle?
    ensures Called(s, c).p.PIdle? && Called(s, c).c.CIdle?
  {
    match c
    case Pushes(f) => ProducerFinishes(Step(s, CallPush(f)));
    case Pops => ConsumerFinishes(Step(s, CallPop));
    case TapeMode(on) => ConsumerFinishes(Step(s, CallTape(on)));
  }

  lemma CalledIsRun(s: State, c: Call) returns (actions: seq<Action>)
    ensures Run(s, actions) == Called(s, c)
  {
    match c
    case Pushes(f) => actions := PushIsRun(s, f);
    case Pops => actions := PopIsRun(s);
    case TapeMode(on) => actions := SetTapeModeIsRun(s, on);
  }

  // Every history of calls is a run from the start that ends between calls, in a
  // good state.
  lemma {:induction false} CallsAreARun(calls: seq<Call>) returns (actions: seq<Action>)
    ensures Run(Initial, actions) == Calls(Initial, calls)
    ensures Calls(Initial, calls).p.PIdle? && Calls(Initial, calls).c.CIdle? && Inv(Calls(Initial, calls))
  {
    if calls == [] {
      actions := [];
      InitialInv();
    } else {
      var s, c := Calls(Initial, calls[..|calls| - 1]), calls[|calls| - 1];
      var front := CallsAreARun(calls[..|calls| - 1]);
      var last := CalledIsRun(s, c);
      RunAppend(Initial, front, last);
      CalledIsIdle(s, c);
      CalledKeepsInv(s, c);
      actions := front + last;
    }
  }

  // Every push is accounted for by what the object publishes.
  ghost predicate Accounted(s: State) {
    && s.hist.attempted == Plays(s.hist.outs, |s.hist.outs|) + s.stats.skipped - s.stats.repeated
         + s.stats.dropped + Distance(s.mem.head, s.mem.tail)
    && s.stats.received == s.hist.attempted - s.hist.refused
  }

  // Every frame a pop returned is the one pushed at its index, in order.
  ghost predicate Faithful(h: History) {
    forall k | 0 <= k < |h.outs| && h.outs[k].Played? ::
      h.outs[k].index < |h.log| && h.outs[k].frame == h.log[h.outs[k].index]
  }

  lemma CallsAccount(calls: seq<Call>)
    ensures Accounted(Calls(Initial, calls)) && Faithful(Calls(Initial, calls).hist)
  {
    var actions := CallsAreARun(calls);
    FrameAccounting(actions);
    var h := Calls(Initial, calls).hist;
    forall k | 0 <= k < |h.outs| && h.outs[k].Played?
      ensures h.outs[k].index < |h.log| && h.outs[k].frame == h.log[h.outs[k].index]
    {
      PopsReturnPushedFrames(actions, k, k);
    }
  }

  // What the pops gave their callers.
  function Given(o: Outcome): Option<Frame> { if o.Played? then Some(o.frame) else None }

  function AllGiven(outs: seq<Outcome>): seq<Option<Frame>> {
    if outs == [] then [] else AllGiven(outs[..|outs| - 1]) + [Given(outs[|outs| - 1])]
  }

  lemma GivenMore(outs: seq<Outcome>, o: Outcome)
    ensures AllGiven(outs + [o]) == AllGiven(outs) + [Given(o)]
  {
    assert (outs + [o])[..|outs|] == outs;
  }

  // A pop adds one outcome, and nothing else does.
  lemma OutcomesGrow(s: State, c: Call)
    requires Inv(s) && s.p.PIdle? && s.c.CIdle?
    ensures var outs, outs' := s.hist.outs, Called(s, c).hist.outs;
            if c.Pops? then |outs'| == |outs| + 1 && outs' == outs + [outs'[|outs|]] else outs' == outs
  {
    match c
    case Pushes(f) => PushEffect(s, f);
    case Pops => PopCases(s);
    case TapeMode(on) =>
      if !on && s.own.tapeMode {
        LeavingTapeMode(s);
      }
  }

  method Do(pi: PiAudio, c: Call) returns (got: seq<Option<Frame>>)
    requires pi.Valid()
    modifies pi, pi.ring
    ensures pi.Valid() && pi.Snapshot() == Called(old(pi.Snapshot()), c)
    ensures if c.Pops? then |pi.hist.outs| == |old(pi.hist.outs)| + 1
                            && got == [Given(pi.hist.outs[|old(pi.hist.outs)|])]
            else got == []
  {
    got := [];
    match c
    case Pushes(f) => pi.Push(f.left, f.right);
    case Pops =>
      var ok, left, right := pi.Pop();
      got := [if ok then Some(Frame(left, right)) else None];
    case TapeMode(on) => pi.SetTapeMode(on);
  }

  // One history of calls on one object: the ring stays good, what the pops gave is
  // pushed frames and silence as the history tells, and the counters balance.
  method RunCalls(calls: seq<Call>) returns (pi: PiAudio, got: seq<Option<Frame>>)
    ensures pi.Valid() && pi.Snapshot() == Calls(Initial, calls)
    ensures Inv(pi.Snapshot()) && Accounted(pi.Snapshot())
    ensures got == AllGiven(pi.hist.outs) && Faithful(pi.hist)
  {
    pi := new PiAudio();
    got := [];
    for i := 0 to |calls|
      invariant fresh(pi) && fresh(pi.ring) && pi.Valid()
      invariant pi.Snapshot() == Calls(Initial, calls[..i]) && got == AllGiven(pi.hist.outs)
    {
      assert calls[..i + 1][..i] == calls[..i];
      ghost var s := pi.Snapshot();
      var _ := CallsAreARun(calls[..i]);
      OutcomesGrow(s, calls[i]);
      var more := Do(pi, calls[i]);
      if calls[i].Pops? {
        GivenMore(s.hist.outs, pi.hist.outs[|s.hist.outs|]);
      }
      got := got + more;
    }
    assert calls[..|calls|] == calls;
    var _ := CallsAreARun(calls);
    CallsAccount(calls);
  }
}
