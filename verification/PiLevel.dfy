/**
 Where a play lands in the queue, how far it moves on, and what a whole pop or
 mode change does to every counter, in numbers of frames.
 */
module PiLevel {
  import opened PiRing
  import opened PiHistory
  import opened PiCalls
  import opened PiPlayback

  // ------------------------------------- pops since the last adjustment ----

  // Plays at the end of a history, back to the last restart (counted) or the last
  // skip or repeat (not counted).
  function PlaysSince(outs: seq<Outcome>): nat {
    if outs == [] || outs[|outs| - 1].Silent? || outs[|outs| - 1].plan.step != 1 then 0
    else if outs[|outs| - 1].plan.restart then 1
    else 1 + PlaysSince(outs[..|outs| - 1])
  }

  // The same with one more play, before it is known how far that one moves on.
  function PlaysTo(outs: seq<Outcome>, restart: bool): nat { if restart then 1 else 1 + PlaysSince(outs) }

  lemma PlaysSinceMore(outs: seq<Outcome>, o: Outcome)
    ensures PlaysSince(outs + [o])
         == if o.Silent? || o.plan.step != 1 then 0 else PlaysTo(outs, o.plan.restart)
  {
    assert (outs + [o])[..|outs|] == outs;
  }

  function UpTo500(n: nat): nat { if n < 500 then n else 500 }

  // In tape mode the consumer's counter is that number, up to 500.
  ghost predicate CountsPlays(s: State) {
    s.own.tapeMode && s.own.playing ==>
      s.own.sinceAdjust == if !MidPlay(s.c) then UpTo500(PlaysSince(s.hist.outs))
                           else if s.c.plan.step == 1 then UpTo500(PlaysTo(s.hist.outs, s.c.plan.restart))
                           else 0
  }

  lemma ReturnKeepsCount(s: State)
    requires Inv(s) && CountsPlays(s) && (s.c.CStore? || s.c.CFlushStore? || s.c.CUnderrun?)
    ensures CountsPlays(ConsumerStep(s))
  {
    PlaysSinceMore(s.hist.outs, if s.c.CStore? then Returned(s) else Silent);
  }

  lemma DecideKeepsCount(s: State)
    requires Inv(s) && CountsPlays(s) && s.c.CLoaded?
    ensures CountsPlays(ConsumerStep(s))
  {
  }

  lemma ConsumerKeepsCount(s: State)
    requires Inv(s) && CountsPlays(s)
    ensures CountsPlays(ConsumerStep(s))
  {
    match s.c
    case CStore(_, _) => ReturnKeepsCount(s);
    case CFlushStore(_) => ReturnKeepsCount(s);
    case CUnderrun => ReturnKeepsCount(s);
    case CLoaded(_) => DecideKeepsCount(s);
    case _ => QuietStep(s);
  }

  lemma StepKeepsCount(s: State, a: Action)
    requires Inv(s) && CountsPlays(s)
    ensures CountsPlays(Step(s, a))
  {
    match a
    case StepConsumer => ConsumerKeepsCount(s);
    case StepProducer => ProducerFrame(s);
    case CallTape(_) =>
    case CallPop =>
    case CallPush(_) =>
  }

  lemma {:induction false} RunKeepsCount(s: State, actions: seq<Action>)
    requires Inv(s) && CountsPlays(s)
    ensures CountsPlays(Run(s, actions))
    decreases |actions|
  {
    if actions != [] {
      StepKeepsInv(s, actions[0]);
      StepKeepsCount(s, actions[0]);
      RunKeepsCount(Step(s, actions[0]), actions[1..]);
    }
  }

  // -------------------------------------------------- where a play lands ---

  // What a pop finds when it loads head: frames stored and consumed, the mode, and
  // the outcomes so far.
  datatype Found = Found(top: nat, from: nat, tape: bool, outs: seq<Outcome>)

  // Too long a queue is cut to its target, 4410 frames or 11025; any other is
  // played from its oldest frame.
  function Landing(f: Found): int {
    var queued := f.top - f.from;
    if f.tape && queued > 44100 then f.top - 11025
    else if !f.tape && queued > 13230 then f.top - 4410
    else f.from
  }

  // Tape mode skips a frame when more than 14333 are left and repeats one when
  // fewer than 7717 are, at the 500th play since it last did so or restarted, or
  // at any later one.
  function MovesOn(f: Found, restart: bool): nat {
    var left := f.top - Landing(f);
    if !f.tape || PlaysTo(f.outs, restart) < 500 then 1
    else if left > 14333 then 2
    else if left < 7717 then 0
    else 1
  }

  ghost predicate Lands(f: Found, o: Outcome) {
    o.Played? ==> o.tape == f.tape && o.index == Landing(f) && o.plan.step == MovesOn(f, o.plan.restart)
  }

  // The pop that makes the next outcome is under way, or has made it.
  ghost predicate OnItsWay(s: State, f: Found) {
    if |s.hist.outs| > |f.outs| then
      s.hist.outs[..|f.outs|] == f.outs && Lands(f, s.hist.outs[|f.outs|])
    else
      && s.hist.outs == f.outs && s.own.tapeMode == f.tape && s.hist.taken == f.from
      && (s.c.CLoaded? || s.c.CFlush? || s.c.CFlushStore? || s.c.CUnderrun? || MidPlay(s.c))
      && (s.c.CLoaded? ==> s.c.available == f.top - f.from)
      && (MidPlay(s.c) ==> s.hist.taken + s.c.plan.trim == Landing(f) && s.c.plan.step == MovesOn(f, s.c.plan.restart))
  }

  lemma DecideLands(s: State, f: Found)
    requires Inv(s) && CountsPlays(s) && OnItsWay(s, f) && |s.hist.outs| == |f.outs| && s.c.CLoaded?
    ensures OnItsWay(ConsumerStep(s), f)
  {
    var s' := ConsumerStep(s);
    assert s'.hist.outs == s.hist.outs || s'.hist.outs == s.hist.outs + [Silent];
  }

  lemma ReturnLands(s: State, f: Found)
    requires OnItsWay(s, f) && |s.hist.outs| == |f.outs| && (s.c.CStore? || s.c.CFlushStore? || s.c.CUnderrun?)
    ensures OnItsWay(ConsumerStep(s), f)
  {
    var outs' := ConsumerStep(s).hist.outs;
    assert outs'[..|f.outs|] == f.outs;
  }

  lemma OutsOnlyGrow(s: State)
    ensures s.hist.outs <= ConsumerStep(s).hist.outs
  {
  }

  lemma ConsumerLands(s: State, f: Found)
    requires Inv(s) && CountsPlays(s) && OnItsWay(s, f)
    ensures OnItsWay(ConsumerStep(s), f)
  {
    if |s.hist.outs| > |f.outs| {
      OutsOnlyGrow(s);
    } else {
      match s.c
      case CLoaded(_) => DecideLands(s, f);
      case CStore(_, _) => ReturnLands(s, f);
      case CFlushStore(_) => ReturnLands(s, f);
      case CUnderrun => ReturnLands(s, f);
      case _ => QuietStep(s);
    }
  }

  lemma {:induction false} RunLands(s: State, actions: seq<Action>, f: Found)
    requires Inv(s) && CountsPlays(s) && OnItsWay(s, f)
    ensures OnItsWay(Run(s, actions), f)
    decreases |actions|
  {
    if actions != [] {
      var a := actions[0];
      StepKeepsInv(s, a);
      StepKeepsCount(s, a);
      if a.StepConsumer? {
        ConsumerLands(s, f);
      } else if a.StepProducer? {
        LogGrows(s);
      }
      RunLands(Step(s, a), actions[1..], f);
    }
  }

  /** In every run, a pop that loads head when `top` frames have been stored and
      `from` consumed, and that plays, plays the oldest unconsumed frame, unless
      more than 13230 frames are queued (44100 in tape mode): then the frame 4410
      (11025) behind that head. In tape mode it moves on by two frames or by none
      exactly at the 500th play or later since it last did so or restarted, with
      more than 14333 frames left or fewer than 7717; otherwise by one. */
  lemma {:induction false} PlayLandsAt(prefix: seq<Action>, actions: seq<Action>)
    requires Run(Initial, prefix).c.CBegin?
    requires var s := Run(Initial, prefix);
             var outs := Run(Step(s, StepConsumer), actions).hist.outs;
             |outs| > |s.hist.outs| && outs[|s.hist.outs|].Played?
    ensures var s := Run(Initial, prefix);
            var o := Run(Step(s, StepConsumer), actions).hist.outs[|s.hist.outs|];
            var top, from := |s.hist.log|, s.hist.taken;
            var left := top - o.index;
            && o.tape == s.own.tapeMode
            && (if top - from > (if o.tape then 44100 else 13230) then left == (if o.tape then 11025 else 4410)
                else o.index == from)
            && (o.plan.step == 2 <==> o.tape && PlaysTo(s.hist.outs, o.plan.restart) >= 500 && left > 14333)
            && (o.plan.step == 0 <==> o.tape && PlaysTo(s.hist.outs, o.plan.restart) >= 500 && left < 7717)
            && (o.plan.step == 0 || o.plan.step == 1 || o.plan.step == 2)
  {
    var s := Run(Initial, prefix);
    InitialInv();
    RunKeepsInv(Initial, prefix);
    RunKeepsCount(Initial, prefix);
    var s1 := Step(s, StepConsumer);
    StepKeepsInv(s, StepConsumer);
    StepKeepsCount(s, StepConsumer);
    WordDistance(|s.hist.log|, s.hist.taken);
    RunLands(s1, actions, Found(|s.hist.log|, s.hist.taken, s.own.tapeMode, s.hist.outs));
  }

  // ----------------------------------------------------- whole calls -------

  /** One whole pop between calls, on a queue of n frames: it forgets everything
      under a raised flag; keeps waiting while stopped below 2205 frames (11025 in
      tape mode); counts an underrun when it was playing and n is 0; and else plays,
      counting what it trims, skips and repeats. */
  lemma PopInNumbers(s: State)
    requires Inv(s) && s.c.CIdle?
    ensures var s' := Pop(s);
            var n := |s.hist.log| - s.hist.taken;
            var fill := if s.own.tapeMode then 11025 else 2205;
            && s'.p == s.p && s'.hist.log == s.hist.log && s'.stats.received == s.stats.received
            && s'.own.tapeMode == s.own.tapeMode && !s'.mem.overflowed
            && |s'.hist.outs| == |s.hist.outs| + 1
            && (s'.hist.outs[|s.hist.outs|].Played?
                <==> !s.mem.overflowed && n > 0 && (s.own.playing || n >= fill))
            && (if s'.hist.outs[|s.hist.outs|].Played? then
                  var o := s'.hist.outs[|s.hist.outs|];
                  && s'.own.playing && s'.stats.underruns == s.stats.underruns
                  && s'.hist.taken == o.index + o.plan.step
                  && s'.stats.dropped == s.stats.dropped + o.index - s.hist.taken
                  && s'.stats.skipped == s.stats.skipped + (if o.plan.step == 2 then 1 else 0)
                  && s'.stats.repeated == s.stats.repeated + (if o.plan.step == 0 then 1 else 0)
                else
                  var flushed := if s.mem.overflowed then n else 0;
                  && !s'.own.playing && s'.hist.taken == s.hist.taken + flushed
                  && s'.stats == s.stats.(dropped := s.stats.dropped + flushed,
                                          underruns := s.stats.underruns
                                            + (if !s.mem.overflowed && s.own.playing then 1 else 0)))
  {
    WordDistance(|s.hist.log|, s.hist.taken);
    PopCases(s);
  }

  /** One whole mode change: into tape mode playback stops to fill up again; out of
      it all but the newest 4410 frames are dropped; asking for the mode that is on
      does nothing. */
  lemma ModeChangeInNumbers(s: State, on: bool)
    requires Inv(s) && s.c.CIdle?
    ensures var s' := SetTapeMode(s, on);
            var n := |s.hist.log| - s.hist.taken;
            var cut := if s.own.tapeMode && !on && n > 4410 then n - 4410 else 0;
            && s'.p == s.p && s'.hist == s.hist.(taken := s.hist.taken + cut)
            && s'.own.tapeMode == on && s'.mem.overflowed == s.mem.overflowed
            && s'.own.playing == (s.own.playing && (s.own.tapeMode || !on))
            && s'.own.sinceAdjust == (if s.own.tapeMode == on then s.own.sinceAdjust else 0)
            && s'.stats == s.stats.(dropped := s.stats.dropped + cut)
  {
    WordDistance(|s.hist.log|, s.hist.taken);
    if s.own.tapeMode && !on {
      LeavingTapeMode(s);
    }
  }
}
