/**
 The TurboSound object of src/audio/turbosound.cpp: three AyChip objects and a
 stereo mix that Tick recomputes only when a chip's output or a mix input
 changed.  Every contract is the always-recomputing function of module Turbo.
 */
module TurboSoundClass {
  import opened Common
  import opened Ay
  import opened Turbo
  import opened AyChipClass

  class TurboSound {
    const ay0: AyChip
    const ay1: AyChip
    const ay2: AyChip
    var ctl: Control
    var pcm: Pcm
    var mixDirty: bool

    ghost function Chips3(): Chips
      reads ay0, ay1, ay2
    {
      [ay0.View(), ay1.View(), ay2.View()]
    }

    ghost function View(): Ts
      reads this, ay0, ay1, ay2
    {
      Ts(Chips3(), ctl, pcm)
    }

    ghost predicate ChipsValid()
      reads this, ay0, ay1, ay2
    {
      ay0 != ay1 && ay0 != ay2 && ay1 != ay2 && ay0.Valid() && ay1.Valid() && ay2.Valid()
    }

    // A mix that is not marked dirty is up to date.
    ghost predicate Valid()
      reads this, ay0, ay1, ay2
    {
      ChipsValid() && (mixDirty || pcm == Mix(Chips3(), ctl))
    }

    constructor ()
      ensures Valid() && fresh(ay0) && fresh(ay1) && fresh(ay2)
      ensures View() == NEW
    {
      ay0 := new AyChip(3);
      ay1 := new AyChip(2);
      ay2 := new AyChip(1);
      ctl := Control(3, [3, 3, 3], false, false, false, 0, 0);
      pcm := SILENT;
      mixDirty := true;
    }

    method PowerOn()
      requires Valid()
      modifies this, ay0, ay1, ay2
      ensures Valid() && View() == Turbo.PowerOn(old(View()))
    {
      ay0.PowerOn();
      ay1.PowerOn();
      ay2.PowerOn();
      Reset();
    }

    method Reset()
      requires ChipsValid()
      modifies this, ay0, ay1, ay2
      ensures Valid() && View() == ResetAll(old(View()))
    {
      ResetAyOnly();
      ctl := ctl.(enabled := false, stereo := false, mono := 0, resetHeld := false);
      mixDirty := true;
    }

    method ResetAyOnly()
      requires ChipsValid()
      modifies this, ay0, ay1, ay2
      ensures Valid() && View() == Turbo.ResetAyOnly(old(View()))
      ensures mixDirty
    {
      ay0.Reset();
      ay1.Reset();
      ay2.Reset();
      ctl := ctl.(select := 3, pan := [3, 3, 3]);
      pcm := SILENT;
      mixDirty := true;
    }

    method SetAyMode(on: bool)
      requires Valid()
      modifies ay0, ay1, ay2
      ensures Valid() && View() == Turbo.SetAyMode(old(View()), on)
    {
      ay0.SetAyMode(on);
      ay1.SetAyMode(on);
      ay2.SetAyMode(on);
      MixReadsOutputs(old(Chips3()), Chips3(), ctl);
    }

    method SetEnabled(on: bool)
      requires Valid()
      modifies this
      ensures Valid() && View() == Apply(old(View()), OpEnabled(on))
    {
      ctl := ctl.(enabled := on);
      mixDirty := true;
    }

    method SetStereoMode(on: bool)
      requires Valid()
      modifies this
      ensures Valid() && View() == Apply(old(View()), OpStereo(on))
    {
      ctl := ctl.(stereo := on);
      mixDirty := true;
    }

    method SetMonoMode(flags: byte)
      requires Valid()
      modifies this
      ensures Valid() && View() == Apply(old(View()), OpMono(flags))
    {
      ctl := ctl.(mono := flags % 8);
      mixDirty := true;
    }

    method SetChipMuteMask(mask: byte)
      requires Valid()
      modifies this
      ensures Valid() && View() == Apply(old(View()), OpMute(mask))
    {
      ctl := ctl.(mute := mask % 8);
      mixDirty := true;
    }

    // Not an input of the mix: no dirty flag.
    method SetResetHeld(on: bool)
      requires Valid()
      modifies this`ctl
      ensures Valid() && View() == Apply(old(View()), OpResetHeld(on))
    {
      MixIgnoresResetHeld(Chips3(), ctl, on);
      ctl := ctl.(resetHeld := on);
    }

    function Active(): (c: AyChip)
      reads this
      ensures c == [ay0, ay1, ay2][ActiveIndex(ctl.select)]
    {
      if ctl.select == 2 then ay1 else if ctl.select == 1 then ay2 else ay0
    }

    method WriteRegAddr(data: byte)
      requires Valid()
      modifies this, ay0, ay1, ay2
      ensures Valid() && View() == RegAddr(old(View()), data)
    {
      if ctl.resetHeld { return; }
      if ctl.enabled && Bit(data, 128) && data / 4 % 8 == 7 {
        var sel, pan := data % 4, data / 32 % 4;
        mixDirty := true;
        if sel == 2 {
          ctl := ctl.(pan := ctl.pan[1 := pan], select := 2);
        } else if sel == 1 {
          ctl := ctl.(pan := ctl.pan[2 := pan], select := 1);
        } else {
          ctl := ctl.(pan := ctl.pan[0 := pan], select := 3);
        }
        return;
      }
      if data / 32 == 0 {
        Active().SelectRegister(data);
        MixReadsOutputs(old(Chips3()), Chips3(), ctl);
      }
    }

    method WriteReg(data: byte)
      requires Valid()
      modifies this, ay0, ay1, ay2
      ensures Valid() && View() == RegWrite(old(View()), data)
    {
      if ctl.resetHeld { return; }
      Active().WriteData(data);
      MixReadsOutputs(old(Chips3()), Chips3(), ctl);
    }

    method ReadReg(regMode: bool) returns (data: byte)
      requires Valid()
      ensures data == RegRead(View(), regMode)
    {
      data := Read(Active().port, regMode);
    }

    method Tick()
      requires Valid()
      modifies this, ay0, ay1, ay2
      ensures Valid() && View() == TickAll(old(View()))
    {
      var c0 := ay0.Tick();
      var c1 := ay1.Tick();
      var c2 := ay2.Tick();
      if c0 || c1 || c2 || mixDirty {
        ComputeStereoMix();
        mixDirty := false;
      } else {
        MixReadsOutputs(old(Chips3()), Chips3(), ctl);
      }
    }

    method ComputeStereoMix()
      modifies this`pcm
      ensures pcm == Mix(Chips3(), ctl)
    {
      var chipL, chipR := [0, 0, 0], [0, 0, 0];
      var totalL, totalR := 0, 0;
      var outs := [ay0.out, ay1.out, ay2.out];
      for i := 0 to 3
        invariant |chipL| == 3 && |chipR| == 3
        invariant forall k | 0 <= k < i ::
            chipL[k] == ChipStereo(outs[k], ctl, k).left && chipR[k] == ChipStereo(outs[k], ctl, k).right
        invariant forall k | i <= k < 3 :: chipL[k] == 0 && chipR[k] == 0
        invariant totalL == chipL[0] + chipL[1] + chipL[2]
        invariant totalR == chipR[0] + chipR[1] + chipR[2]
      {
        var s := ChipStereo(outs[i], ctl, i);
        chipL, chipR := chipL[i := s.left], chipR[i := s.right];
        totalL, totalR := totalL + s.left, totalR + s.right;
      }
      pcm := Pcm(totalL % 4096, totalR % 4096, chipL, chipR, true);
      assert chipL == Mix(Chips3(), ctl).chipL && chipR == Mix(Chips3(), ctl).chipR;
    }

    // One chip's share as the host mixer may see it.
    method ChipPcm(idx: int) returns (left: nat, right: nat)
      requires Valid()
      ensures 0 <= idx < 3 && pcm.valid ==> left == pcm.chipL[idx] && right == pcm.chipR[idx]
      ensures !(0 <= idx < 3 && pcm.valid) ==> left == 0 && right == 0
    {
      left, right := 0, 0;
      if idx < 0 || idx >= 3 || !pcm.valid { return; }
      left, right := pcm.chipL[idx], pcm.chipR[idx];
    }

    // The chips of a state load.
    method LoadChips(chips: Chips)
      requires ChipsValid()
      modifies ay0, ay1, ay2
      ensures ChipsValid()
      ensures Chips3() == [KeepId(old(ay0.View()), chips[0]), KeepId(old(ay1.View()), chips[1]),
                           KeepId(old(ay2.View()), chips[2])]
    {
      ay0.Restore(chips[0]);
      ay1.Restore(chips[1]);
      ay2.Restore(chips[2]);
      ay0.MarkDirty();
      ay1.MarkDirty();
      ay2.MarkDirty();
    }

    method LoadState(s: Saved)
      requires Valid()
      modifies this, ay0, ay1, ay2
      ensures Valid() && View() == Load(old(View()), s)
    {
      LoadChips(s.chips);
      ctl := ctl.(select := s.select, pan := s.pan, enabled := s.enabled, stereo := s.stereo, mono := s.mono);
      pcm := Pcm(s.pcmLeft, s.pcmRight, [0, 0, 0], [0, 0, 0], false);
      mixDirty := true;
    }

    // One operation, by name.
    method Do(op: Op)
      requires Valid()
      modifies this, ay0, ay1, ay2
      ensures Valid() && View() == Apply(old(View()), op)
    {
      match op
      case OpRegAddr(data) => WriteRegAddr(data);
      case OpRegWrite(data) => WriteReg(data);
      case OpEnabled(on) => SetEnabled(on);
      case OpAyMode(on) => SetAyMode(on);
      case OpStereo(on) => SetStereoMode(on);
      case OpMono(flags) => SetMonoMode(flags);
      case OpMute(mask) => SetChipMuteMask(mask);
      case OpResetHeld(on) => SetResetHeld(on);
      case OpReset => Reset();
      case OpResetAyOnly => ResetAyOnly();
      case OpPowerOn => PowerOn();
      case OpTick => Tick();
      case OpLoad(saved) => LoadState(saved);
    }
  }

  // The cache is invisible over every history: after any sequence of port
  // writes, setters, resets, ticks and state loads, the caching object holds
  // what recomputing every output and the whole mix on every tick would hold,
  // and a port read returns the same byte.
  method RunHistory(ops: seq<Op>, regMode: bool) returns (ts: TurboSound, data: byte)
    ensures ts.Valid() && ts.View() == Run(NEW, ops)
    ensures data == RegRead(Run(NEW, ops), regMode)
  {
    ts := new TurboSound();
    for i := 0 to |ops|
      invariant fresh(ts) && fresh(ts.ay0) && fresh(ts.ay1) && fresh(ts.ay2)
      invariant ts.Valid() && Run(ts.View(), ops[i..]) == Run(NEW, ops)
    {
      ts.Do(ops[i]);
      assert ops[i..][1..] == ops[i + 1..];
    }
    data := ts.ReadReg(regMode);
  }
}
