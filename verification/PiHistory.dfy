/**
 What the consumer is told over a whole run of the ring: which frame each pop
 returns, when playback restarts, how often tape mode adjusts, and where every
 pushed frame went.
 */
module PiHistory {
  import opened PiRing

  // ------------------------------------------------- what pops returned ----

  // Frames still queued behind the played one in the head that pop loaded.
  function Latency(plan: Plan): int { plan.available - plan.trim }

  // The played frame is the one pushed at its index, not yet passed, no older
  // than the mode allows, and a restart had its prebuffer.
  ghost predicate Exact(h: History, o: Outcome) {
    o.Played? ==>
      && o.index <= h.taken
      && o.index + Latency(o.plan) <= |h.log|
      && 0 < Latency(o.plan)
      && o.frame == h.log[o.index]
      && PlanOk(o.plan, o.tape)
  }

  ghost predicate OutsExact(h: History) {
    forall k {:trigger h.outs[k]} | 0 <= k < |h.outs| :: Exact(h, h.outs[k])
  }

  ghost predicate OutsOrdered(h: History) {
    forall j, k {:trigger h.outs[j], h.outs[k]}
      | 0 <= j < k < |h.outs| && h.outs[j].Played? && h.outs[k].Played? ::
      h.outs[j].index <= h.outs[k].index
  }

  // How one outcome may follow another.
  ghost predicate Follows(o: Outcome, next: Outcome) {
    next.Played? && !next.plan.restart ==>
      && o.Played?
      && (next.tape ==> o.tape)
      && o.index + o.plan.step + next.plan.trim <= next.index
      && (o.tape == next.tape ==> next.index == o.index + o.plan.step + next.plan.trim)
  }

  ghost predicate OutsLinked(h: History) {
    && (|h.outs| > 0 ==> Follows(Silent, h.outs[0]))
    && (forall k {:trigger h.outs[k]} | 0 < k < |h.outs| :: Follows(h.outs[k - 1], h.outs[k]))
  }

  function Last(h: History): Outcome { if h.outs == [] then Silent else h.outs[|h.outs| - 1] }

  // Was playback running when the pop in flight (or the next one) began?
  predicate Running(s: State) {
    if MidPlay(s.c) then !s.c.plan.restart else s.own.playing
  }

  // While playback runs, the tail stands where the last outcome left it, except
  // that leaving tape mode may have trimmed beyond it.
  ghost predicate Steady(s: State) {
    && (Running(s) ==>
          var o := Last(s.hist);
          && o.Played?
          && (s.own.tapeMode ==> o.tape)
          && o.index + o.plan.step <= s.hist.taken
          && (o.tape == s.own.tapeMode ==> s.hist.taken == o.index + o.plan.step)
          && (s.c.TBegin? || s.c.TStore? || s.c.TCount? ==> o.tape))
    && (s.c.TBegin? || s.c.TStore? || s.c.TCount? ==> !s.own.tapeMode)
  }

  ghost predicate Told(s: State) {
    Inv(s) && OutsExact(s.hist) && OutsOrdered(s.hist) && OutsLinked(s.hist) && Steady(s)
  }

  lemma ProducerKeepsTold(s: State)
    requires Told(s)
    ensures Told(ProducerStep(s))
  {
    StepKeepsInv(s, StepProducer);
    LogGrows(s);
    MoreLogTold(s.hist, ProducerStep(s).hist);
  }

  lemma LogGrows(s: State)
    ensures var s' := ProducerStep(s);
            && s'.hist.outs == s.hist.outs && s'.c == s.c && s'.own == s.own
            && s'.hist.taken == s.hist.taken && s.hist.log <= s'.hist.log
  {
  }

  // Pushing more frames keeps what was told.
  lemma MoreLogTold(h: History, h': History)
    requires OutsExact(h) && OutsOrdered(h) && OutsLinked(h)
    requires h'.outs == h.outs && h.log <= h'.log && h.taken == h'.taken
    ensures OutsExact(h') && OutsOrdered(h') && OutsLinked(h')
  {
    forall k {:trigger h'.outs[k]} | 0 <= k < |h'.outs| ensures Exact(h', h'.outs[k]) {
      assert Exact(h, h.outs[k]);
    }
  }

  // Adding one outcome to a history that agrees with it.
  lemma AppendTold(h: History, h': History, o: Outcome)
    requires OutsExact(h) && OutsOrdered(h) && OutsLinked(h)
    requires h'.outs == h.outs + [o] && h'.log == h.log && h.taken <= h'.taken
    requires Exact(h', o) && Follows(Last(h), o)
    requires o.Played? ==> h.taken <= o.index
    ensures OutsExact(h') && OutsOrdered(h') && OutsLinked(h')
  {
    forall k {:trigger h'.outs[k]} | 0 <= k < |h'.outs| ensures Exact(h', h'.outs[k]) {
      if k < |h.outs| { assert Exact(h, h.outs[k]); }
    }
    forall j, k {:trigger h'.outs[j], h'.outs[k]}
      | 0 <= j < k < |h'.outs| && h'.outs[j].Played? && h'.outs[k].Played?
      ensures h'.outs[j].index <= h'.outs[k].index
    {
      assert Exact(h, h.outs[j]);
      if k < |h.outs| { assert h.outs[k] == h'.outs[k]; }
    }
    forall k {:trigger h'.outs[k]} | 0 < k < |h'.outs| ensures Follows(h'.outs[k - 1], h'.outs[k]) {
      if k < |h.outs| { assert Follows(h.outs[k - 1], h.outs[k]); }
    }
  }

  // Moving the tail, or nothing at all, keeps what was told.
  lemma SameOutsTold(h: History, h': History)
    requires OutsExact(h) && OutsOrdered(h) && OutsLinked(h)
    requires h'.outs == h.outs && h'.log == h.log && h.taken <= h'.taken
    ensures OutsExact(h') && OutsOrdered(h') && OutsLinked(h')
  {
    forall k {:trigger h'.outs[k]} | 0 <= k < |h'.outs| ensures Exact(h', h'.outs[k]) {
      assert Exact(h, h.outs[k]);
    }
  }

  // The outcome a pop is about to return.
  function Returned(s: State): Outcome
    requires s.c.CStore?
  {
    Played(s.hist.taken + s.c.plan.trim, s.c.frame, s.own.tapeMode, s.c.plan)
  }

  lemma PlayIsExact(s: State)
    requires Told(s) && s.c.CStore?
    ensures var h' := ConsumerStep(s).hist;
            h'.outs == s.hist.outs + [Returned(s)] && h'.log == s.hist.log
            && h'.taken == s.hist.taken + s.c.plan.trim + s.c.plan.step && Exact(h', Returned(s))
  {
  }

  lemma PlayKeepsTold(s: State)
    requires Told(s) && s.c.CStore?
    ensures Told(ConsumerStep(s))
  {
    StepKeepsInv(s, StepConsumer);
    var s' := ConsumerStep(s);
    PlayIsExact(s);
    AppendTold(s.hist, s'.hist, Returned(s));
  }

  lemma DecideKeepsTold(s: State)
    requires Told(s) && s.c.CLoaded?
    ensures Told(ConsumerStep(s))
  {
    StepKeepsInv(s, StepConsumer);
    var s' := ConsumerStep(s);
    if s'.hist.outs == s.hist.outs {
      SameOutsTold(s.hist, s'.hist);
    } else {
      AppendTold(s.hist, s'.hist, Silent);
    }
  }

  lemma ConsumerKeepsTold(s: State)
    requires Told(s)
    ensures Told(ConsumerStep(s))
  {
    StepKeepsInv(s, StepConsumer);
    var s' := ConsumerStep(s);
    match s.c
    case CStore(_, _) => PlayKeepsTold(s);
    case CLoaded(_) => DecideKeepsTold(s);
    case CFlushStore(_) => AppendTold(s.hist, s'.hist, Silent);
    case CUnderrun => AppendTold(s.hist, s'.hist, Silent);
    case TStore(_) => SameOutsTold(s.hist, s'.hist);
    case CBegin =>
    case TBegin =>
    case CIdle =>
    case CFlush(_) =>
    case CAdjust(_) =>
    case CLeft(_) =>
    case CRight(_, _) =>
    case TCount(_) =>
  }

  lemma CallKeepsTold(s: State, a: Action)
    requires Told(s) && !a.StepProducer? && !a.StepConsumer?
    ensures Told(Step(s, a))
  {
    StepKeepsInv(s, a);
    if !a.CallPush? {
      SameOutsTold(s.hist, Step(s, a).hist);
    }
  }

  lemma StepKeepsTold(s: State, a: Action)
    requires Told(s)
    ensures Told(Step(s, a))
  {
    StepKeepsInv(s, a);
    match a
    case StepProducer => ProducerKeepsTold(s);
    case StepConsumer => ConsumerKeepsTold(s);
    case CallPush(_) => CallKeepsTold(s, a);
    case CallPop => CallKeepsTold(s, a);
    case CallTape(_) => CallKeepsTold(s, a);
  }

  lemma {:induction false} RunKeepsTold(s: State, actions: seq<Action>)
    requires Told(s)
    ensures Told(Run(s, actions))
    decreases |actions|
  {
    if actions != [] {
      StepKeepsTold(s, actions[0]);
      RunKeepsTold(Step(s, actions[0]), actions[1..]);
    }
  }

  // Every successful pop of every run returns exactly the frame pushed at its
  // index, by a plan whose latency is positive, within the mode's maximum and no
  // further ahead than was pushed; indices never go backwards. The head that
  // latency is counted from is the one the pop loaded: PiPlayback shows that.
  lemma {:induction false} PopsReturnPushedFrames(actions: seq<Action>, j: nat, k: nat)
    requires var outs := Run(Initial, actions).hist.outs;
             j <= k < |outs| && outs[j].Played? && outs[k].Played?
    ensures var h := Run(Initial, actions).hist;
            var o := h.outs[k];
            && o.index + Latency(o.plan) <= |h.log|
            && 0 < Latency(o.plan) <= MaxLatency(o.tape)
            && o.frame == h.log[o.index]
            && h.outs[j].index <= o.index
  {
    InitialInv();
    RunKeepsTold(Initial, actions);
    var h := Run(Initial, actions).hist;
    assert Exact(h, h.outs[k]);
  }

  // A pop that plays after silence (or first) is a restart, and a restart saw its
  // mode's whole prebuffer; a play that is no restart, in the mode of the play
  // before it, moves by exactly one frame, except for a tape-mode skip or repeat,
  // and for a trim that needs a queue beyond the mode's maximum latency. When a
  // play can be a restart at all is the subject of PiPlayback.
  lemma {:induction false} PlaybackIsContinuous(actions: seq<Action>, k: nat)
    requires k < |Run(Initial, actions).hist.outs| && Run(Initial, actions).hist.outs[k].Played?
    ensures var outs := Run(Initial, actions).hist.outs;
            var o := outs[k];
            && (k == 0 || outs[k - 1].Silent? ==> o.plan.restart)
            && (o.plan.restart ==> o.plan.available >= Prebuffer(o.tape))
            && (o.plan.trim > 0 <==> o.plan.available > MaxLatency(o.tape))
            && (k > 0 && !o.plan.restart && outs[k - 1].tape == o.tape ==>
                  o.index == outs[k - 1].index + outs[k - 1].plan.step + o.plan.trim)
            && (!o.tape ==> o.plan.step == 1)
            && o.plan.step <= 2
  {
    InitialInv();
    RunKeepsTold(Initial, actions);
    var h := Run(Initial, actions).hist;
    assert Exact(h, h.outs[k]);
    if k > 0 { assert Follows(h.outs[k - 1], h.outs[k]); }
  }

  // ------------------------------------------------ the tape-mode cadence --

  // Successful pops among the first k outcomes.
  function Plays(outs: seq<Outcome>, k: nat): nat
    requires k <= |outs|
  {
    if k == 0 then 0 else Plays(outs, k - 1) + (if outs[k - 1].Played? then 1 else 0)
  }

  lemma {:induction false} PlaysAppend(outs: seq<Outcome>, o: Outcome, k: nat)
    requires k <= |outs|
    ensures Plays(outs + [o], k) == Plays(outs, k)
  {
    if k > 0 { PlaysAppend(outs, o, k - 1); }
  }

  predicate Adjusts(o: Outcome) { o.Played? && o.plan.step != 1 }

  function InFlight(c: Consumer): nat { if MidPlay(c) then 1 else 0 }

  // Any two skips or repeats are at least TAPE_ADJUST_EVERY successful pops apart.
  ghost predicate Spaced(outs: seq<Outcome>) {
    forall j, k {:trigger Plays(outs, j), Plays(outs, k)}
      | 0 <= j < k < |outs| && Adjusts(outs[j]) && Adjusts(outs[k]) ::
      Plays(outs, k) - Plays(outs, j) >= TAPE_ADJUST_EVERY
  }

  // `sinceAdjust` never overstates how many pops have played since the last one.
  ghost predicate Counted(s: State) {
    var outs := s.hist.outs;
    && s.own.sinceAdjust <= TAPE_ADJUST_EVERY
    && (MidPlay(s.c) && s.c.plan.step != 1 ==> s.own.sinceAdjust == 0)
    && (forall j {:trigger Plays(outs, j)} | 0 <= j < |outs| && Adjusts(outs[j]) ::
          && s.own.sinceAdjust < Plays(outs, |outs|) - Plays(outs, j) + InFlight(s.c)
          && (MidPlay(s.c) && s.c.plan.step != 1 ==>
                Plays(outs, |outs|) - Plays(outs, j) >= TAPE_ADJUST_EVERY))
  }

  lemma PlaysPrefix(outs: seq<Outcome>, o: Outcome)
    ensures forall j {:trigger Plays(outs, j)} {:trigger Plays(outs + [o], j)} | 0 <= j <= |outs| ::
              Plays(outs + [o], j) == Plays(outs, j)
    ensures Plays(outs + [o], |outs| + 1) == Plays(outs, |outs|) + (if o.Played? then 1 else 0)
  {
    forall j | 0 <= j <= |outs| ensures Plays(outs + [o], j) == Plays(outs, j) {
      PlaysAppend(outs, o, j);
    }
  }

  lemma SilenceKeepsSpaced(outs: seq<Outcome>)
    requires Spaced(outs)
    ensures Spaced(outs + [Silent])
  {
    PlaysPrefix(outs, Silent);
  }

  lemma PlayKeepsSpaced(outs: seq<Outcome>, o: Outcome)
    requires Spaced(outs) && o.Played?
    requires Adjusts(o) ==> forall j {:trigger Plays(outs, j)} | 0 <= j < |outs| && Adjusts(outs[j]) ::
               Plays(outs, |outs|) - Plays(outs, j) >= TAPE_ADJUST_EVERY
    ensures Spaced(outs + [o])
  {
    PlaysPrefix(outs, o);
  }

  lemma DecideKeepsCounted(s: State)
    requires Inv(s) && Counted(s) && s.c.CLoaded? && Spaced(s.hist.outs)
    ensures Counted(ConsumerStep(s)) && Spaced(ConsumerStep(s).hist.outs)
  {
    var s' := ConsumerStep(s);
    var outs, outs' := s.hist.outs, s'.hist.outs;
    PlaysPrefix(outs, Silent);
    SilenceKeepsSpaced(outs);
    assert outs' == outs || outs' == outs + [Silent];
    forall j {:trigger Plays(outs', j)} | 0 <= j < |outs'| && Adjusts(outs'[j])
      ensures s'.own.sinceAdjust < Plays(outs', |outs'|) - Plays(outs', j) + InFlight(s'.c)
      ensures MidPlay(s'.c) && s'.c.plan.step != 1 ==>
                Plays(outs', |outs'|) - Plays(outs', j) >= TAPE_ADJUST_EVERY
    {
      assert Adjusts(outs[j]);
      assert s.own.sinceAdjust < Plays(outs, |outs|) - Plays(outs, j);
    }
  }

  lemma SilenceKeepsCounted(s: State)
    requires Counted(s) && Spaced(s.hist.outs)
    requires s.c.CFlushStore? || s.c.CUnderrun?
    ensures Counted(ConsumerStep(s)) && Spaced(ConsumerStep(s).hist.outs)
  {
    PlaysPrefix(s.hist.outs, Silent);
    SilenceKeepsSpaced(s.hist.outs);
  }

  lemma PlayKeepsCounted(s: State)
    requires Counted(s) && Spaced(s.hist.outs) && s.c.CStore?
    ensures Counted(ConsumerStep(s)) && Spaced(ConsumerStep(s).hist.outs)
  {
    PlaysPrefix(s.hist.outs, Returned(s));
    PlayKeepsSpaced(s.hist.outs, Returned(s));
  }

  lemma StepKeepsCounted(s: State, a: Action)
    requires Inv(s) && Counted(s) && Spaced(s.hist.outs)
    ensures Counted(Step(s, a)) && Spaced(Step(s, a).hist.outs)
  {
    match a
    case StepConsumer =>
      match s.c {
        case CLoaded(_) => DecideKeepsCounted(s);
        case CStore(_, _) => PlayKeepsCounted(s);
        case CFlushStore(_) => SilenceKeepsCounted(s);
        case CUnderrun => SilenceKeepsCounted(s);
        case _ => QuietStep(s);
      }
    case StepProducer => ProducerFrame(s);
    case CallTape(on) =>
    case CallPop =>
    case CallPush(_) =>
  }

  lemma ProducerFrame(s: State)
    ensures var s' := ProducerStep(s);
            s'.hist.outs == s.hist.outs && s'.own == s.own && s'.c == s.c
  {
  }

  // The remaining consumer steps change neither outcomes nor mode.
  lemma QuietStep(s: State)
    requires !s.c.CLoaded? && !s.c.CStore? && !s.c.CFlushStore? && !s.c.CUnderrun?
    ensures var s' := ConsumerStep(s);
            && s'.hist.outs == s.hist.outs && s'.own == s.own
            && MidPlay(s'.c) == MidPlay(s.c)
            && (MidPlay(s.c) ==> s'.c.plan == s.c.plan)
  {
  }

  lemma {:induction false} RunKeepsCounted(s: State, actions: seq<Action>)
    requires Inv(s) && Counted(s) && Spaced(s.hist.outs)
    ensures Counted(Run(s, actions)) && Spaced(Run(s, actions).hist.outs)
    decreases |actions|
  {
    if actions != [] {
      StepKeepsInv(s, actions[0]);
      StepKeepsCounted(s, actions[0]);
      RunKeepsCounted(Step(s, actions[0]), actions[1..]);
    }
  }

  // Over any run, through restarts and mode changes, two one-frame adjustments
  // are at least 500 successful pops apart.
  lemma {:induction false} AdjustmentsAreRare(actions: seq<Action>, j: nat, k: nat)
    requires var outs := Run(Initial, actions).hist.outs;
             j < k < |outs| && Adjusts(outs[j]) && Adjusts(outs[k])
    ensures var outs := Run(Initial, actions).hist.outs;
            Plays(outs, k) - Plays(outs, j) >= TAPE_ADJUST_EVERY
  {
    InitialInv();
    RunKeepsCounted(Initial, actions);
  }

  // ----------------------------------------------------- frame accounting --

  // Frames a step in flight has counted but not yet moved the tail past.
  function Due(c: Consumer): int {
    match c
    case CFlushStore(n) => n
    case CLeft(plan) => plan.trim + plan.step - 1
    case CRight(plan, _) => plan.trim + plan.step - 1
    case CStore(plan, _) => plan.trim + plan.step - 1
    case TCount(skip) => 0 - skip as int
    case _ => 0
  }

  ghost predicate Balanced(s: State) {
    var h, t := s.hist, s.stats;
    && h.attempted == |h.log| + h.refused
         + (if s.p.PIdle? || s.p.PFlag? || s.p.PCount? then 0 else 1)
    && t.received == |h.log| - (if s.p.PCount? then 1 else 0)
    && Plays(h.outs, |h.outs|) + t.skipped - t.repeated + t.dropped - h.refused
         == h.taken + Due(s.c)
  }

  lemma PlaysLast(outs: seq<Outcome>, o: Outcome)
    ensures Plays(outs + [o], |outs| + 1) == Plays(outs, |outs|) + (if o.Played? then 1 else 0)
  {
    PlaysAppend(outs, o, |outs|);
  }

  // The steps that end a pop.
  lemma ReturnKeepsBalance(s: State)
    requires Inv(s) && Balanced(s) && (s.c.CStore? || s.c.CFlushStore? || s.c.CUnderrun?)
    ensures Balanced(ConsumerStep(s))
  {
    PlaysLast(s.hist.outs, if s.c.CStore? then Returned(s) else Silent);
  }

  lemma DecideKeepsBalance(s: State)
    requires Inv(s) && Balanced(s) && s.c.CLoaded?
    ensures Balanced(ConsumerStep(s))
  {
    PlaysLast(s.hist.outs, Silent);
  }

  lemma AdjustKeepsBalance(s: State)
    requires Inv(s) && Balanced(s) && s.c.CAdjust?
    ensures Balanced(ConsumerStep(s))
  {
  }

  lemma ConsumerKeepsBalance(s: State)
    requires Inv(s) && Balanced(s)
    ensures Balanced(ConsumerStep(s))
  {
    match s.c
    case CStore(_, _) => ReturnKeepsBalance(s);
    case CFlushStore(_) => ReturnKeepsBalance(s);
    case CUnderrun => ReturnKeepsBalance(s);
    case CLoaded(_) => DecideKeepsBalance(s);
    case CAdjust(_) => AdjustKeepsBalance(s);
    case TStore(_) =>
    case CBegin =>
    case TBegin =>
    case CIdle =>
    case CFlush(_) =>
    case CLeft(_) =>
    case CRight(_, _) =>
    case TCount(_) =>
  }

  lemma StepKeepsBalance(s: State, a: Action)
    requires Inv(s) && Balanced(s)
    ensures Balanced(Step(s, a))
  {
    match a
    case StepConsumer => ConsumerKeepsBalance(s);
    case StepProducer =>
    case CallTape(_) =>
    case CallPop =>
    case CallPush(_) =>
  }

  lemma {:induction false} RunKeepsBalance(s: State, actions: seq<Action>)
    requires Inv(s) && Balanced(s)
    ensures Balanced(Run(s, actions))
    decreases |actions|
  {
    if actions != [] {
      StepKeepsInv(s, actions[0]);
      StepKeepsBalance(s, actions[0]);
      RunKeepsBalance(Step(s, actions[0]), actions[1..]);
    }
  }

  // Whenever neither thread is inside a call, every push attempted so far is
  // accounted for by the counters the class publishes.
  lemma {:induction false} FrameAccounting(actions: seq<Action>)
    requires Run(Initial, actions).p.PIdle? && Run(Initial, actions).c.CIdle?
    ensures var s := Run(Initial, actions);
            && s.hist.attempted == Plays(s.hist.outs, |s.hist.outs|) + s.stats.skipped - s.stats.repeated
                 + s.stats.dropped + Distance(s.mem.head, s.mem.tail)
            && s.stats.received == s.hist.attempted - s.hist.refused
  {
    InitialInv();
    RunKeepsBalance(Initial, actions);
    RingSafety(actions);
  }
}
