/**
 The Pi's I2S input register of src/audio/i2s.cpp: a latched 10-bit pair, the
 gated value the mixer reads, and the EAR comparator with hysteresis.
 */
module I2sClass {
  import opened Common
  import opened Ay

  const SILENCE: nat := 0x200

  // What the comparator looks at: the top two bits of either channel, or-ed.
  datatype Threshold = Low | Middle | High

  function ThresholdOf(left: nat, right: nat): Threshold {
    var l, r := left / 256 % 4, right / 256 % 4;
    if l == 0 && r == 0 then Low
    else if l == 3 || r == 3 || (l == 1 && r == 2) || (l == 2 && r == 1) then High
    else Middle
  }

  predicate EarRouted(ctl: byte) { (Bit(ctl, 128) || Bit(ctl, 64)) && Bit(ctl, 1) }

  type word = x: int | 0 <= x < 0x10000

  // What reaches the register: samples, control writes, and state loads, which
  // bring two 16-bit words as they were saved.
  datatype Event = Latch(left: nat, right: nat) | Control(ctl: byte) | Load(l: word, r: word)

  datatype Reg = Reg(left: nat, right: nat, ctl: byte, ear: bool)

  const REST: Reg := Reg(SILENCE, SILENCE, 0, false)

  function Compare(r: Reg): Reg {
    if !EarRouted(r.ctl) then r.(ear := false)
    else match ThresholdOf(r.left, r.right)
      case Low => r.(ear := false)
      case High => r.(ear := true)
      case Middle => r
  }

  function After(r: Reg, e: Event): Reg {
    match e
    case Latch(left, right) => Compare(r.(left := left % 1024, right := right % 1024))
    case Control(ctl) => Compare(r.(ctl := ctl))
    case Load(left, right) => r.(left := left, right := right, ear := false)
  }

  // Is the latched pair within ten bits? Samples are cut to them, a load is not.
  predicate TenBit(es: seq<Event>, n: nat)
    requires n <= |es|
  {
    n == 0 ||
    match es[n - 1]
    case Latch(_, _) => true
    case Control(_) => TenBit(es, n - 1)
    case Load(left, right) => left < 1024 && right < 1024
  }

  // The register after the first n events of a history.
  function StateAt(es: seq<Event>, n: nat): (r: Reg)
    requires n <= |es|
    ensures r.left < 0x10000 && r.right < 0x10000
    ensures r.left < 1024 && r.right < 1024 <==> TenBit(es, n)
  {
    if n == 0 then REST else After(StateAt(es, n - 1), es[n - 1])
  }

  // The gated left and right values: silence unless enabled, unmuted and not
  // routed to EAR; a lone enabled channel feeds both.
  function Gated(r: Reg, isLeft: bool): (v: nat)
    ensures v == SILENCE || v == r.left || v == r.right
  {
    var enL, enR := Bit(r.ctl, 128), Bit(r.ctl, 64);
    if !(enL || enR) || Bit(r.ctl, if isLeft then 8 else 4) || Bit(r.ctl, 1) then SILENCE
    else if isLeft then (if enL then r.left else r.right)
    else (if enR then r.right else r.left)
  }

  /** Each side, by the control bits: with neither channel enabled, or the EAR route on,
      or the side's own mute, silence; else its own channel when that is enabled, and
      the other one when only that is. */
  lemma GatedSides(r: Reg)
    ensures var enL, enR := r.ctl >= 128, r.ctl / 64 % 2 == 1;
            var ear, muteL, muteR := r.ctl % 2 == 1, r.ctl / 8 % 2 == 1, r.ctl / 4 % 2 == 1;
            && (ear || (!enL && !enR) ==> Gated(r, true) == 512 && Gated(r, false) == 512)
            && (muteL ==> Gated(r, true) == 512) && (muteR ==> Gated(r, false) == 512)
            && (!ear && enL && !muteL ==> Gated(r, true) == r.left)
            && (!ear && enR && !muteR ==> Gated(r, false) == r.right)
            && (!ear && enR && !enL && !muteL ==> Gated(r, true) == r.right)
            && (!ear && enL && !enR && !muteR ==> Gated(r, false) == r.left)
  {
    assert Bit(r.ctl, 1) <==> r.ctl % 2 == 1;
  }

  /** The comparator runs when a channel is enabled and the EAR route is on. */
  lemma RouteIs(ctl: byte)
    ensures EarRouted(ctl) <==> ctl >= 64 && ctl % 2 == 1
  {
    assert Bit(ctl, 1) <==> ctl % 2 == 1;
  }

  /** The comparator's thresholds, for ten-bit samples: low when both are below 256,
      high when either reaches 768 or when one is in the second quarter and the other
      in the third. */
  lemma ThresholdsAre(left: nat, right: nat)
    requires left < 1024 && right < 1024
    ensures ThresholdOf(left, right) == Low <==> left < 256 && right < 256
    ensures ThresholdOf(left, right) == High <==>
              || left >= 768 || right >= 768
              || (256 <= left < 512 && 512 <= right < 768) || (512 <= left < 768 && 256 <= right < 512)
  {
  }

  /** What the last event leaves: a sample the low ten bits of either channel, a load
      its pair, and both the control; a control byte the pair. */
  lemma LastEventLeaves(es: seq<Event>, n: nat)
    requires 0 < n <= |es|
    ensures var was, now := StateAt(es, n - 1), StateAt(es, n);
            match es[n - 1]
            case Latch(l, r) => now.left == l % 1024 && now.right == r % 1024 && now.ctl == was.ctl
            case Control(ctl) => now.left == was.left && now.right == was.right && now.ctl == ctl
            case Load(l, r) => now.left == l && now.right == r && now.ctl == was.ctl && !now.ear
  {
  }

  predicate AtTop(es: seq<Event>, n: nat)
    requires n <= |es|
  {
    var r := StateAt(es, n);
    n > 0 && !es[n - 1].Load? && EarRouted(r.ctl) && ThresholdOf(r.left, r.right) == High
  }

  predicate HoldsUp(es: seq<Event>, n: nat)
    requires n <= |es|
  {
    var r := StateAt(es, n);
    n > 0 && !es[n - 1].Load? && EarRouted(r.ctl) && ThresholdOf(r.left, r.right) != Low
  }

  // Step j was at the top and nothing since has let the comparator down.
  ghost predicate UpSince(es: seq<Event>, j: nat, n: nat)
    requires n <= |es|
  {
    0 < j <= n && AtTop(es, j) && forall i {:trigger HoldsUp(es, i)} | j <= i <= n :: HoldsUp(es, i)
  }

  ghost predicate UpSinceRise(es: seq<Event>, n: nat)
    requires n <= |es|
  {
    exists j :: UpSince(es, j, n)
  }

  // A step that lets the line be keeps its last rise.
  lemma HoldingOn(es: seq<Event>, n: nat)
    requires 0 < n <= |es| && HoldsUp(es, n) && !AtTop(es, n)
    ensures UpSinceRise(es, n) <==> UpSinceRise(es, n - 1)
  {
    if UpSinceRise(es, n - 1) {
      var j :| UpSince(es, j, n - 1);
      assert UpSince(es, j, n);
    }
    if UpSinceRise(es, n) {
      var j :| UpSince(es, j, n);
      assert UpSince(es, j, n - 1);
    }
  }

  // The hysteresis in one sentence: the EAR line is high exactly when some
  // earlier step reached the top threshold with the route on, and since then the
  // route has stayed on, no step has fallen to the bottom threshold, and no state
  // has been loaded.
  lemma {:induction false} EarIsLastRail(es: seq<Event>, n: nat)
    requires n <= |es|
    ensures StateAt(es, n).ear <==> UpSinceRise(es, n)
  {
    if n > 0 {
      EarIsLastRail(es, n - 1);
      if AtTop(es, n) {
        assert HoldsUp(es, n);
        assert UpSince(es, n, n);
      } else if HoldsUp(es, n) {
        HoldingOn(es, n);
      } else {
        forall j ensures !UpSince(es, j, n) {
          assert !HoldsUp(es, n);
        }
      }
    }
  }

  class I2s {
    var left: nat
    var right: nat
    var ctl: byte
    var feEar: bool

    ghost predicate Valid()
      reads this
    {
      left < 0x10000 && right < 0x10000
    }

    function At(): Reg
      reads this
    {
      Reg(left, right, ctl, feEar)
    }

    constructor ()
      ensures Valid() && At() == REST
    {
      left, right, ctl, feEar := SILENCE, SILENCE, 0, false;
    }

    method UpdateFeEar()
      modifies this`feEar
      ensures At() == Compare(old(At()))
    {
      var en := Bit(ctl, 128) || Bit(ctl, 64);
      if !en || !Bit(ctl, 1) {
        feEar := false;
        return;
      }
      var t := ThresholdOf(left, right);
      if feEar && t == Low {
        feEar := false;
      } else if !feEar && t == High {
        feEar := true;
      }
    }

    method SetSample(l: nat, r: nat)
      modifies this
      ensures Valid() && At() == After(old(At()), Latch(l, r))
    {
      left := l % 1024;
      right := r % 1024;
      UpdateFeEar();
    }

    method LoadState(l: word, r: word)
      modifies this
      ensures Valid() && At() == After(old(At()), Load(l, r))
    {
      left, right := l, r;
      feEar := false;
    }

    method SetControl(c: byte)
      requires Valid()
      modifies this
      ensures Valid() && At() == After(old(At()), Control(c))
    {
      ctl := c;
      UpdateFeEar();
    }
  }
}
