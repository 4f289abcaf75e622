/**
 What two outcomes in a row have to do with each other, and with the head that
 the later pop loaded: while nothing enters tape mode, playback is broken off
 by an underrun or an overflow only.
 */
module PiPlayback {
  import opened PiRing
  import opened PiHistory

  // ------------------------------------------ no restart in mid-playback ---

  // Does this action enter tape mode? Asking for the mode that is on does not.
  predicate Enters(s: State, a: Action) { a.CallTape? && a.on && !s.own.tapeMode && s.c.CIdle? }

  // Nothing in these actions, taken from s, enters tape mode.
  predicate NoEntry(s: State, actions: seq<Action>)
    decreases |actions|
  {
    actions == [] || (!Enters(s, actions[0]) && NoEntry(Step(s, actions[0]), actions[1..]))
  }

  // From outcome n on: after a play the consumer keeps running until an underrun
  // or a flush, and no play that follows a play is a restart.
  ghost predicate Unbroken(s: State, n: nat) {
    var outs := s.hist.outs;
    && (|outs| > n && outs[|outs| - 1].Played? && !s.c.CUnderrun? ==> Running(s))
    && (forall k {:trigger outs[k]} | n < k < |outs| && outs[k - 1].Played? && outs[k].Played? ::
          !outs[k].plan.restart)
  }

  lemma OutcomeKeepsUnbroken(s: State, n: nat)
    requires Inv(s) && Unbroken(s, n) && (s.c.CStore? || s.c.CFlushStore? || s.c.CUnderrun?)
    ensures Unbroken(ConsumerStep(s), n)
  {
  }

  lemma DecideKeepsUnbroken(s: State, n: nat)
    requires Inv(s) && Unbroken(s, n) && s.c.CLoaded?
    ensures Unbroken(ConsumerStep(s), n)
  {
  }

  lemma ConsumerKeepsUnbroken(s: State, n: nat)
    requires Inv(s) && Unbroken(s, n)
    ensures Unbroken(ConsumerStep(s), n)
  {
    match s.c
    case CStore(_, _) => OutcomeKeepsUnbroken(s, n);
    case CFlushStore(_) => OutcomeKeepsUnbroken(s, n);
    case CUnderrun => OutcomeKeepsUnbroken(s, n);
    case CLoaded(_) => DecideKeepsUnbroken(s, n);
    case CBegin =>
    case CFlush(_) =>
    case CAdjust(_) =>
    case CLeft(_) =>
    case CRight(_, _) =>
    case TBegin =>
    case TStore(_) =>
    case TCount(_) =>
    case CIdle =>
  }

  lemma StepKeepsUnbroken(s: State, a: Action, n: nat)
    requires Inv(s) && Unbroken(s, n) && !Enters(s, a)
    ensures Unbroken(Step(s, a), n)
  {
    match a
    case StepConsumer => ConsumerKeepsUnbroken(s, n);
    case StepProducer => LogGrows(s);
    case CallPop =>
    case CallPush(_) =>
    case CallTape(_) =>
  }

  lemma {:induction false} RunKeepsUnbroken(s: State, actions: seq<Action>, n: nat)
    requires Inv(s) && Unbroken(s, n) && NoEntry(s, actions)
    ensures Unbroken(Run(s, actions), n)
    decreases |actions|
  {
    if actions != [] {
      StepKeepsInv(s, actions[0]);
      StepKeepsUnbroken(s, actions[0], n);
      RunKeepsUnbroken(Step(s, actions[0]), actions[1..], n);
    }
  }

  /** While nothing enters tape mode, two plays in a row are neighbours: the later
      one is no restart, and in one mode its index is the earlier one's plus that
      one's step (1, or 0 or 2 for a repeat or skip) plus the later one's trim.
      Leaving tape mode in between can only move it further on. */
  lemma {:induction false} PlaysAreNeighbours(prefix: seq<Action>, actions: seq<Action>, k: nat)
    requires NoEntry(Run(Initial, prefix), actions)
    requires var outs := Run(Run(Initial, prefix), actions).hist.outs;
             |Run(Initial, prefix).hist.outs| < k < |outs| && outs[k - 1].Played? && outs[k].Played?
    ensures var outs := Run(Run(Initial, prefix), actions).hist.outs;
            var o, next := outs[k - 1], outs[k];
            && !next.plan.restart
            && o.index + o.plan.step + next.plan.trim <= next.index
            && (o.tape == next.tape ==> next.index == o.index + o.plan.step + next.plan.trim)
            && (next.tape ==> o.tape)
            && (next.plan.trim > 0 <==> next.plan.available > MaxLatency(next.tape))
  {
    InitialInv();
    RunKeepsTold(Initial, prefix);
    var s := Run(Initial, prefix);
    var t := Run(s, actions);
    RunKeepsTold(s, actions);
    RunKeepsUnbroken(s, actions, |s.hist.outs|);
    assert Exact(t.hist, t.hist.outs[k]) && Follows(t.hist.outs[k - 1], t.hist.outs[k]);
  }

  /** And a pop whose predecessor played plays on unless it sees the overflow flag
      or an empty ring. */
  lemma {:induction false} PlayGoesOn(prefix: seq<Action>, actions: seq<Action>)
    requires NoEntry(Run(Initial, prefix), actions)
    requires var s := Run(Run(Initial, prefix), actions);
             var outs := s.hist.outs;
             s.c.CLoaded? && |outs| > |Run(Initial, prefix).hist.outs| && outs[|outs| - 1].Played?
    ensures var s := Run(Run(Initial, prefix), actions);
            var next := ConsumerStep(s).c;
            if s.mem.overflowed then next.CFlush?
            else if s.c.available == 0 then next.CUnderrun?
            else next.CAdjust? && !next.plan.restart
  {
    InitialInv();
    RunKeepsInv(Initial, prefix);
    RunKeepsUnbroken(Run(Initial, prefix), actions, |Run(Initial, prefix).hist.outs|);
  }

  // --------------------------------------------------- the head it saw -----

  // The pop that makes outcome n has loaded `head` when `top` frames were stored.
  ghost predicate SawHead(s: State, n: nat, top: nat) {
    var outs := s.hist.outs;
    if |outs| > n then
      outs[n].Played? ==> outs[n].index + Latency(outs[n].plan) == top
    else
      && |outs| == n
      && (s.c.CLoaded? || s.c.CFlush? || s.c.CFlushStore? || s.c.CUnderrun? || MidPlay(s.c))
      && (s.c.CLoaded? || MidPlay(s.c) ==> s.hist.taken + Claim(s.c) == top)
  }

  lemma ConsumerKeepsSaw(s: State, n: nat, top: nat)
    requires Inv(s) && SawHead(s, n, top)
    ensures SawHead(ConsumerStep(s), n, top)
  {
    match s.c
    case CStore(_, _) =>
    case CFlushStore(_) =>
    case CUnderrun =>
    case CLoaded(_) =>
    case CBegin =>
    case CFlush(_) =>
    case CAdjust(_) =>
    case CLeft(_) =>
    case CRight(_, _) =>
    case TBegin =>
    case TStore(_) =>
    case TCount(_) =>
    case CIdle =>
  }

  lemma {:induction false} RunKeepsSaw(s: State, actions: seq<Action>, n: nat, top: nat)
    requires Inv(s) && SawHead(s, n, top)
    ensures SawHead(Run(s, actions), n, top)
    decreases |actions|
  {
    if actions != [] {
      var a := actions[0];
      StepKeepsInv(s, a);
      if a.StepConsumer? {
        ConsumerKeepsSaw(s, n, top);
      } else if a.StepProducer? {
        LogGrows(s);
      }
      RunKeepsSaw(Step(s, a), actions[1..], n, top);
    }
  }

  /** A pop that loads `head` when `top` frames have been stored, and plays, plays
      the frame pushed at its index, at least one and at most the mode's maximum
      latency behind that head, whatever the other thread does meanwhile. */
  lemma {:induction false} LatencyBehindLoadedHead(prefix: seq<Action>, actions: seq<Action>)
    requires Run(Initial, prefix).c.CBegin?
    requires var s := Run(Initial, prefix);
             var outs := Run(Step(s, StepConsumer), actions).hist.outs;
             |outs| > |s.hist.outs| && outs[|s.hist.outs|].Played?
    ensures var s := Run(Initial, prefix);
            var t := Run(Step(s, StepConsumer), actions);
            var o := t.hist.outs[|s.hist.outs|];
            && s.hist.log <= t.hist.log
            && 0 < |s.hist.log| - o.index <= MaxLatency(o.tape)
            && o.frame == s.hist.log[o.index]
  {
    var s := Run(Initial, prefix);
    InitialInv();
    RunKeepsTold(Initial, prefix);
    var s1 := Step(s, StepConsumer);
    StepKeepsTold(s, StepConsumer);
    WordDistance(|s.hist.log|, s.hist.taken);
    RunKeepsSaw(s1, actions, |s.hist.outs|, |s.hist.log|);
    RunKeepsTold(s1, actions);
    LogOnlyGrows(s1, actions);
    var t := Run(s1, actions);
    assert Exact(t.hist, t.hist.outs[|s.hist.outs|]);
  }

  lemma StepGrowsLog(s: State, a: Action)
    ensures s.hist.log <= Step(s, a).hist.log
  {
    if a.StepProducer? {
      LogGrows(s);
    }
  }

  lemma {:induction false} LogOnlyGrows(s: State, actions: seq<Action>)
    ensures s.hist.log <= Run(s, actions).hist.log
    decreases |actions|
  {
    if actions != [] {
      StepGrowsLog(s, actions[0]);
      LogOnlyGrows(Step(s, actions[0]), actions[1..]);
    }
  }
}
