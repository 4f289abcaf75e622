# JNEXT audio and text codecs in Dafny

A model, with proofs, of four parts of the JNEXT ZX Spectrum Next emulator.

**The Pi audio ring** (`PiRing`, `PiHistory`, `PiPlayback`, `PiOverflow`,
`PiLevel`, `PiCalls`, `PiObject`, `PiStream`, `PiWire`, `PiAudioClass`). A
reader thread pushes frames into a ring that the emulator thread pops from.
`PiRing` is a transition system in which every atomic load and store is a step
of its own and the two threads interleave in any way; unbounded ghost counts
stand beside the wrapping 32-bit counters. Whole calls are runs of these steps
(`PiCalls`), and the class updates its fields in place with the contracts of
those whole calls; `PiObject` carries the results over to an object driven
through any history of calls. `PiLevel` says in numbers of frames which frame a
play gives and what each call does. `PiStream` is the parser that turns reads of
any size into frames, `PiWire` the bytes it reads.

**The sound chips and the mixer** (`Ay`, `AyChipClass`, `AyTiming`, `Turbo`,
`AySound`, `AyNoise`, `TurboSoundClass`, `StereoLaw`, `I2sClass`, `MixLevels`,
`MixWeights`, `MixerClass`, `MixHistory`, `MixSound`, `FullScale`). `Ay` and
`Turbo` are a machine that recomputes every output and the whole mix on every
tick; the classes cache both behind dirty flags, and each of their methods is
proved to leave the value the recomputing machine has. `AyTiming` gives closed
forms for n ticks, `AySound` what is then heard, `StereoLaw` and `MixWeights`
how much of each channel and source reaches either side. `MixLevels` follows
amplitudes from the volume tables to 16-bit samples and the sample ring to a
bounded queue. `MixHistory` joins chips, I2S input and mixer in one history from
power-on; `FullScale` shows that the bounds are reached.

**The BASIC tokenizer and detokenizer** (`Decimals`, `BasicText`, `BasicTokens`,
`BasicParts`, `BasicCanon`, `BasicControls`, `BasicFile`, `BasicSource`,
`BasicRows`, `MakeBas`, `NextBasicDetok`). Text to tokenised +3DOS file and
back. `MakeBas` and `NextBasicDetok` hold the loops of the two tools, proved
against the functions of the other modules.

**The clock option and the tape member** (`Calendar`, `Rtc`, `TapeJson`,
`TapeText`, `TapeMember`, `TapeLayout`, `TapeAccept`, `TapeReader`, `TapePoll`).
Date parsing with its weekday formula against a calendar that is counted day by
day; and the tape deck's place in a snapshot, written at one clock and read at
another.

## Where code and comments disagree

The model follows the code.

- `pi_audio.h:30-32` promises that the pop after an overflow flushes. A pop that
  has loaded the head but not yet tested the flag uses the flag up and flushes to
  its older head only. `PiOverflow.FlushPromise` gives the exact condition and
  `PiOverflow.WindowIsReachable` a run that breaks the promise without it.
- `mixer.cpp:63` gives the mix a range of 0-5998. The tape EAR and I2S terms are
  missing there; the mix stays within 0..6510 (`MixLevels.MixRange`) and 6510 is
  reached (`FullScale.MixReaches6510`).
- `turbosound.cpp:199` speaks of 4095; three chips give at most 2295 (`Turbo.MixBound`)
  and reach it (`FullScale.ChipsReach2295`).
- `read_samples` has no guard against a negative count. What then happens is part
  of the contract of `MixerClass.Mixer.ReadSamples`.
- A line whose quotes do not balance is listed with its own terminator and an
  extra quote. `BasicTokens.DetokUndoesTok` says so and when.
- `tape_poll_detector.h:25-26` promises that a restored deck resumes on the same
  read. The loader sets the clock to the saved instant (`emulator_jns.cpp:1050`)
  before it reads the tape member (`emulator_jns.cpp:1161`), and then it always
  does (`TapePoll.ConsistentSnapshotResumes`). Only a snapshot whose member was
  written at another clock than the one it is loaded at can break it:
  `TapePoll.ResumesExactly` has the condition for all later reads and
  `TapePoll.YoungerClockBreaks` an input.
- `tape_poll_detector.h:39` says that a run of 32 reads or more polls. The count is
  32 bits wide and starts again from 0, so of a run of 2^32 reads or more its
  length modulo 2^32 counts (`TapePoll.PollingMeans`).

## Model

| member | source | states |
|---|---|---|
| PiRing.StepKeepsInv | src/audio/pi_audio.cpp:23-121 | one atomic step of either thread, whichever comes next, keeps the ring window, the plans in flight and the contents of every queued slot |
| PiRing.RunKeepsInv | src/audio/pi_audio.cpp:23-121 | so does every interleaved run of any length |
| PiRing.RingSafety | src/audio/pi_audio.cpp:23-38 | in every reachable state the 32-bit difference of the wrapped counters is the number of queued frames, at most the capacity, and each queued frame stands unharmed in its slot |
| PiRing.NoRace | src/audio/pi_audio.cpp:33-36 | while the producer stores a frame, its slot is neither the one the consumer is reading nor any slot not yet consumed |
| PiHistory.PopsReturnPushedFrames | src/audio/pi_audio.cpp:40-99 | every successful pop of every run returns exactly the frame pushed at its index, by a plan with a positive latency within the mode maximum; indices never go backwards (the head that latency counts from: LatencyBehindLoadedHead) |
| PiHistory.PlaybackIsContinuous | src/audio/pi_audio.cpp:58-98 | every play after silence is a restart, with the full prebuffer; a play that is no restart, in the mode of the play before, comes exactly that play's step plus its own trim later; a trim happens exactly beyond the mode maximum; music mode never skips or repeats (no restart between two plays: PlaysAreNeighbours) |
| PiHistory.AdjustmentsAreRare | src/audio/pi_audio.h:38-40 | between two one-frame skips or repeats of any run there are at least 500 successful pops |
| PiHistory.FrameAccounting | src/audio/pi_audio.cpp:23-121 | whenever neither thread is inside a call: pushes attempted = successful pops + skipped - repeated + dropped + available, and received = attempted - refused |
| PiHistory.RunKeepsTold | src/audio/pi_audio.cpp:40-121 | what pops have returned so far stays true of every continuation |
| PiPlayback.PlaysAreNeighbours | src/audio/pi_audio.cpp:58-98 | after any run, while nothing enters tape mode: of two plays in a row the later is no restart, and in one mode its index is the earlier index plus the step (1, or 0 or 2 for a repeat or skip) plus the trim; leaving tape mode in between only moves it further on |
| PiPlayback.PlayGoesOn | src/audio/pi_audio.cpp:45-67 | while nothing enters tape mode, a pop after a play plays on without a restart unless it sees the overflow flag or an empty ring |
| PiPlayback.LatencyBehindLoadedHead | src/audio/pi_audio.cpp:41-98 | a pop that loads the head when n frames have been stored, and plays, returns the frame at index n less its latency, which is positive and within the mode maximum, whatever the other thread does meanwhile |
| PiLevel.PlayLandsAt | src/audio/pi_audio.cpp:58-98 | in every run, at the head that a playing pop loaded: with more than 13230 frames queued (44100 in tape mode) it plays the frame exactly 4410 (11025) behind that head, else the oldest unconsumed one; it moves on by two frames, or by none, exactly in tape mode, at the 500th play or later since the last adjustment or restart, with more than 14333 frames left, or fewer than 7717; else by one |
| PiLevel.PopInNumbers | src/audio/pi_audio.cpp:40-99 | one whole pop in numbers of frames: when it plays (flag down, a frame there, and playing or 2205 queued, 11025 in tape mode), what every counter gains, when playback stops, and when an underrun is counted |
| PiLevel.ModeChangeInNumbers | src/audio/pi_audio.cpp:101-121 | one whole mode change: into tape mode playback stops; out of it all but the newest 4410 frames are dropped and counted; the mode that is on changes nothing |
| PiOverflow.DropIsFlushed | src/audio/pi_audio.cpp:26-31 | a drop with no pop between its head load and its flag test: the next pop to load head is silent, and no frame queued at the drop is ever returned |
| PiOverflow.WindowLosesFlush | src/audio/pi_audio.cpp:41-56 | a pop in that window swallows the flag: a run exists in which the next pop plays, and plays a frame from before the drop if one was pushed inside the window |
| PiOverflow.FlushPromise | src/audio/pi_audio.h:30-32 | the promise that the next pop flushes holds in a reachable state if and only if no pop stands in the window |
| PiOverflow.NothingStaleAfterLoad | src/audio/pi_audio.cpp:45-56 | a pop that begins with the flag up is silent, and nothing queued when it loads head is returned by it or any later pop |
| PiOverflow.WindowIsReachable | src/audio/pi_audio.cpp:26-56 | a concrete run reaches the window, so the promise without its condition is false |
| PiCalls.PushIsRun | src/audio/pi_audio.cpp:23-38 | a whole push is a run of producer steps |
| PiCalls.PopIsRun | src/audio/pi_audio.cpp:40-99 | a whole pop is a run of consumer steps |
| PiCalls.SetTapeModeIsRun | src/audio/pi_audio.cpp:101-121 | a whole mode change is a run of consumer steps |
| PiCalls.PushEffect | src/audio/pi_audio.cpp:23-38 | a push with room appends its frame and changes nothing the consumer owns; a push without room counts a drop and raises the flag |
| PiCalls.PushStores | src/audio/pi_audio.cpp:33-37 | the stored push as one update of slot, head and counter |
| PiCalls.PushRefuses | src/audio/pi_audio.cpp:26-31 | the refused push as one update of counter and flag |
| PiCalls.PopCases | src/audio/pi_audio.cpp:40-99 | the whole pop as one case distinction: flush, still filling, underrun, or play by plan |
| PiCalls.PopFlushes | src/audio/pi_audio.cpp:45-56 | a pop that sees the flag forgets everything queued, counts it as dropped and stops playback |
| PiCalls.PopRestarts | src/audio/pi_audio.cpp:58-62 | a stopped pop with its prebuffer full plays the frame its plan points at |
| PiCalls.LeavingTapeMode | src/audio/pi_audio.cpp:111-120 | leaving tape mode drops exactly the frames beyond the music target |
| PiCalls.PushAllFits | src/audio/pi_audio.cpp:23-38 | frames that fit are all queued, in order, and nothing else changes |
| PiCalls.PushKeepsInv | src/audio/pi_audio.cpp:23-38 | a whole push keeps the ring invariant |
| PiCalls.PopKeepsInv | src/audio/pi_audio.cpp:40-99 | a whole pop keeps it |
| PiCalls.SetTapeModeKeepsInv | src/audio/pi_audio.cpp:101-121 | a whole mode change keeps it |
| PiObject.CallsAreARun | src/audio/pi_audio.cpp:23-121 | every history of whole calls is an interleaved run that ends with both threads idle and the ring invariant |
| PiObject.CallsAccount | src/audio/pi_audio.cpp:23-121 | after every history of whole calls the published counters balance and every play returned the frame pushed at its index |
| PiObject.RunCalls | src/audio/pi_audio.cpp:23-121 | one object driven through any history of pushes, pops and mode changes: the ring invariant holds, the counters balance, and the pops gave exactly the pushed frames and silences of that history |
| PiStream.ChunkingIsInvisible | src/audio/pi_audio.cpp:133-166 | for every byte stream and every way to cut it into reads: same frames, same header bytes left, same carry as one read |
| PiStream.TwoCuttingsAgree | src/audio/pi_audio.cpp:133-166 | two cuttings of one stream cannot be told apart, and the carry stays below 12 bytes and empty while a header is skipped |
| PiStream.FeedAppend | src/audio/pi_audio.cpp:136-165 | two reads do what one read of both does |
| PiStream.FeedRests | src/audio/pi_audio.cpp:136-165 | between reads: an empty carry while a header is being skipped, else an undecided carry of under 12 bytes |
| PiStream.CutBytes | src/audio/pi_audio.cpp:162 | decoding little-endian pairs undoes encoding them |
| PiStream.DrainExact | src/audio/pi_audio.cpp:143-164 | frames are neither lost nor invented exactly when no 12 bytes on a frame boundary spell a header |
| PiStream.OneWriterExact | src/audio/pi_audio.cpp:123-166 | one header and its frames are parsed back to those frames if and only if the data spells no header on a frame boundary |
| PiStream.WritersInARow | src/audio/pi_audio.cpp:143-164 | streams that follow one another with no reset, cut any way, give the concatenation of their frames when neither data nor data run into a header spells a header |
| PiWire.FreshSkips44 | src/audio/pi_audio.cpp:133-141 | the first 44 bytes of a stream are dropped, whatever they are |
| PiWire.NextWriterSkips44 | src/audio/pi_audio.cpp:127-131 | so are those of the stream after the writer is gone, whatever was left over |
| PiWire.NextOnTheWire | src/audio/pi_audio.cpp:149-164 | at a frame boundary with twelve bytes at hand: "RIFF", any four, "WAVE" is dropped as 44 bytes, those still to come included; anything else gives one frame, left first, low byte first |
| PiWire.ShortOfAHeader | src/audio/pi_audio.cpp:148-164 | with fewer, nothing is decided about under four bytes or a "RIFF"; else one frame is read |
| PiAudioClass.ToI2s | src/audio/pi_audio.cpp:17-21 | the sample lies in the 64-wide band the 10-bit value names |
| PiAudioClass.ToI2sFaithful | src/audio/pi_audio.h:85-87 | the conversion keeps order, and silence 0x200 stands for exactly the samples 0..63 |
| PiAudioClass.PiAudio.constructor | src/audio/pi_audio.h:133-147 | a new object is the initial state of the ring |
| PiAudioClass.PiAudio.Push | src/audio/pi_audio.cpp:23-38 | the fields after push are those of the push run, with nothing else changed |
| PiAudioClass.PiAudio.Pop | src/audio/pi_audio.cpp:40-99 | the fields after pop are those of the pop run, which PiLevel.PopInNumbers and PiLevel.PlayLandsAt give in numbers of frames; true comes with the played frame, false with silence |
| PiAudioClass.PiAudio.Play | src/audio/pi_audio.cpp:68-98 | trimming, steering and reading give the frame and the fields of the plan, which is PiLevel.PlayLandsAt's |
| PiAudioClass.PiAudio.Continue | src/audio/pi_audio.cpp:58-98 | a pop that may play restarts if it was stopped, stops at an empty ring, and else plays by the plan |
| PiAudioClass.PiAudio.Take | src/audio/pi_audio.cpp:94-98 | the frame after the trimmed ones, and the tail past it |
| PiAudioClass.PiAudio.Steer | src/audio/pi_audio.cpp:78-93 | in tape mode, once in 500 pops at most, one frame more above the band and one less below it |
| PiAudioClass.PiAudio.SetTapeMode | src/audio/pi_audio.cpp:101-121 | the fields after a mode change are those of the mode-change run |
| PiAudioClass.PiAudio.StreamEnds | src/audio/pi_audio.cpp:127-131 | the next writer starts afresh |
| PiAudioClass.PiAudio.SkipHeader | src/audio/pi_audio.cpp:151-161 | a header in the stream is skipped as far as it is there; a possible one is waited for |
| PiAudioClass.PiAudio.PushFrames | src/audio/pi_audio.cpp:149-164 | the loop pushes exactly the frames that can be decided, in order |
| PiAudioClass.PiAudio.Consume | src/audio/pi_audio.cpp:133-166 | one read leaves the stream where the parser function leaves it, and the ring after pushing its frames one by one |
| AyChipClass.AyChip.Reset | src/audio/ay_chip.cpp:22-43 | registers, address and outputs as the always-recomputing chip resets them; generators keep running; a pending envelope load is applied first |
| AyChipClass.AyChip.PowerOn | src/audio/ay_chip.cpp:45-53 | declared initial values, the mode kept |
| AyChipClass.AyChip.LoadEnvelope | src/audio/ay_chip.cpp:55-73 | the ramp starts at the rail the attack bit names |
| AyChipClass.AyChip.SelectRegister | src/audio/ay_chip.cpp:75-78 | five address bits |
| AyChipClass.AyChip.WriteData | src/audio/ay_chip.cpp:80-91 | a register changes only when addressable; R13 leaves a load pending |
| AyChipClass.AyChip.SetAyMode | src/audio/ay_chip.h:49 | the table choice changes and the cached outputs are marked |
| AyChipClass.AyChip.Restore | src/audio/ay_chip.cpp:436-467 | any fields may be loaded, provided the outputs are marked |
| AyChipClass.AyChip.Tick | src/audio/ay_chip.cpp:197-218 | the cached tick leaves the chip exactly as the tick that always recomputes its outputs, whose outputs AySound.ChannelAfter gives, and reports exactly whether one changed |
| AyChipClass.AyChip.UpdateDivider | src/audio/ay_chip.cpp:220-253 | one divider step; noise strobes are every second pulse |
| AyChipClass.AyChip.UpdateToneGenerators | src/audio/ay_chip.cpp:255-266 | three tone steps |
| AyChipClass.AyChip.UpdateNoiseGenerator | src/audio/ay_chip.cpp:268-281 | one noise step |
| AyChipClass.AyChip.UpdateEnvelope | src/audio/ay_chip.cpp:283-384 | one envelope step, boundaries taken before the step |
| AyChipClass.AyChip.UpdateOutput | src/audio/ay_chip.cpp:386-426 | mixing, volume and table lookup of all three channels (what that sounds like: AySound) |
| Ay.QuietTick | src/audio/ay_chip.h:108-114 | a tick without a divider pulse and without a pending load changes no input of the outputs |
| AyTiming.DividerAfter | src/audio/ay_chip.cpp:220-253 | after n ticks the divider stands at its start minus n modulo 8 |
| AyTiming.StrobesCount | src/audio/ay_chip.cpp:227-249 | the strobes fire exactly when the closed counts of pulses and noise pulses move |
| AyTiming.ToneAfter | src/audio/ay_chip.cpp:157-169 | from any counter, any phase and any pending load: a tone has toggled by the quotient of phase and pulses by max(1, period), the remainder in the counter; a counter left at or above a lowered period fires on the first pulse |
| AyTiming.NoiseAfter | src/audio/ay_chip.cpp:171-179 | the same for the shift register and noise pulses |
| AyTiming.FromPowerOn | src/audio/ay_chip.cpp:197-281 | from power-on with constant registers: (n+7)/8 pulses, half of them for noise, toggles and shifts as quotients |
| AyTiming.LfsrIsReversible | src/audio/ay_chip.cpp:271-276 | the step is a bijection of the nonzero 17-bit states |
| AyTiming.LfsrNeverSticks | src/audio/ay_chip.cpp:271-276 | after the first step the register is never zero again |
| AyTiming.EnvelopeIsDrawn | src/audio/ay_chip.cpp:298-383 | for each of the 16 shapes and every number of steps, stepping from the loaded ramp gives the closed-form ramp, direction and hold included |
| AyTiming.EnvelopeAfter | src/audio/ay_chip.cpp:283-296 | the same for the envelope and any ramp; a pending load is applied first |
| AyTiming.EnvelopeAfterWrite | src/audio/ay_chip.cpp:80-91 | after an R13 write, whatever the chip was doing, the volume n ticks later is the drawn shape at that quotient |
| AyTiming.ShapesSettle | src/audio/ay_chip.cpp:339-363 | shapes 0-7, 9 and 15 settle at 0, shapes 11 and 13 at 31 |
| AyTiming.ShapesRepeat | src/audio/ay_chip.cpp:364-383 | shapes 8 and 12 repeat every 32 steps, 10 and 14 every 64, standing still for one step at each rail |
| AySound.ChannelAfter | src/audio/ay_chip.cpp:386-426 | n ticks on with the registers left alone, a channel is at its level while its tone, unless switched off, and the noise, unless switched off, are high by their quotients, and at 0 otherwise |
| AySound.ToneAlone | src/audio/ay_chip.cpp:386-426 | a tone alone: the level exactly while the channel's own square, toggled once per period, is high |
| AySound.NoiseAlone | src/audio/ay_chip.cpp:386-426 | noise alone: the level exactly while the low bit of the shifted register is set |
| AySound.ToneAndNoise | src/audio/ay_chip.cpp:386-426 | both: the level exactly while both are high |
| AySound.SwitchedOffIsSteady | src/audio/ay_chip.cpp:386-426 | neither: the level all the time |
| AySound.EnvelopeIsHeard | src/audio/ay_chip.cpp:386-426 | with bit 4 of the volume register set, the level of the shape that a write to R13 began to draw, at the number of steps since |
| AySound.LevelsRise | src/audio/ay_chip.cpp:8-19 | both volume tables rise from 0 to 255 over fixed and over envelope volumes |
| AySound.SquareFromPowerOn | src/audio/ay_chip.cpp:197-426 | from power-on: a square wave that turns over every 8 ticks times the twelve-bit period, on any channel |
| AySound.NoiseFromPowerOn | src/audio/ay_chip.cpp:197-426 | from power-on: the noise bit, one shift every 16 ticks times the five-bit period |
| AySound.EnvelopeFromPowerOn | src/audio/ay_chip.cpp:197-426 | from power-on: the drawn envelope, one step every 8 ticks times the sixteen-bit period |
| AyNoise.NoiseRecurrence | src/audio/ay_chip.cpp:271-276 | every noise bit is the exclusive or of the bits 17 and 15 before it |
| AyNoise.WriteThenRead | src/audio/ay_chip.cpp:75-150 | a register that is selected and written reads back, in AY mode cut to its bits, an I/O port as 0xFF unless an output; no other register changes |
| AyNoise.HighRegisters | src/audio/ay_chip.cpp:80-105 | registers 16 to 31 take nothing and read as 0xFF or, in AY mode, as the lower one; the other read mode gives chip and number |
| AyNoise.ResetRunsOn | src/audio/ay_chip.cpp:22-43 | a reset clears registers (R7 to 255), address and outputs and leaves the generators running |
| Turbo.MuteNeverReachesTheGuest | src/audio/audio_mute.h:12-23 | two histories that differ in mute, stereo and mono settings only leave all three chips and every port read the same |
| Turbo.ListenerIsInvisible | src/audio/turbosound.h:92-98 | dropping those settings from a history changes nothing below the mix |
| Turbo.MuteSubtracts | src/audio/turbosound.cpp:213-236 | the muted mix is the unmuted mix less exactly the muted chips' shares |
| Turbo.MixBound | src/audio/turbosound.cpp:176-203 | each chip contributes at most 765 and the three at most 2295, so the 12-bit mask never acts |
| Turbo.RunStaysBounded | src/audio/turbosound.cpp:176-273 | over every history the latched sums are within 2295 and equal their shares if and only if no state load brought larger sums that are not yet recomputed |
| Turbo.RecomputingBounds | src/audio/turbosound.cpp:159-203 | one tick or reset puts the sums in range whatever was loaded |
| FullScale.ChipsReach2295 | src/audio/turbosound.cpp:176-203 | a history of port writes from power-on and one tick that brings both sums to 2295 |
| Turbo.MixReadsOutputs | src/audio/turbosound.h:140-145 | the mix depends on the chips through their outputs only |
| Turbo.MixIgnoresResetHeld | src/audio/turbosound.h:140-145 | and not on the reset level |
| StereoLaw.MixAfterTick | src/audio/turbosound.cpp:159-236 | after a tick under any settings each chip's share is the channels that go to that side: A and B left in ABC, A and C in ACB, B and C right, all to both when mono; gated by its pan bits, its mute and its selection; and the sums are the shares |
| StereoLaw.OneForOne | src/audio/turbosound.cpp:213-236 | when one chip's outputs change, the left moves one for one with A and B (ABC) or A and C (ACB) and the right with B and C, or both with all three (mono); each pan bit takes away its own side, and a chip not let in moves nothing |
| StereoLaw.SelectAndPan | src/audio/turbosound.cpp:111-146 | a command byte selects the named chip and sets that chip's pan only, with TurboSound on; off it does nothing |
| StereoLaw.RegisterSelect | src/audio/turbosound.cpp:111-146 | a byte below 32 selects that register of the active chip only; other bytes, and all while reset is held, do nothing |
| StereoLaw.SettersReach | src/audio/turbosound.cpp:96-110 | each setter reaches its own setting; the three chips' mono and mute flags are kept |
| StereoLaw.ResetSettings | src/audio/turbosound.cpp:50-94 | what a reset selects, pans and clears, and that it leaves the listener's mute |
| StereoLaw.PortReaches | src/audio/turbosound.cpp:148-157 | a data write and a read go to the selected chip and no other chip changes; with reset held a write does nothing |
| StereoLaw.NumbersStay | src/audio/turbosound.cpp:44-56 | over every history the three chips keep the numbers 3, 2, 1 |
| TurboSoundClass.TurboSound.constructor | src/audio/turbosound.cpp:44-48 | a new object is the reset machine |
| TurboSoundClass.TurboSound.PowerOn | src/audio/turbosound.cpp:50-56 | as the always-recomputing machine powers on |
| TurboSoundClass.TurboSound.Reset | src/audio/turbosound.cpp:58-74 | as the always-recomputing machine resets |
| TurboSoundClass.TurboSound.ResetAyOnly | src/audio/turbosound.cpp:76-94 | chips, select, pans and latched sums only |
| TurboSoundClass.TurboSound.WriteRegAddr | src/audio/turbosound.cpp:111-146 | select and pan command, register select, or nothing |
| TurboSoundClass.TurboSound.WriteReg | src/audio/turbosound.cpp:148-152 | one register of the active chip |
| TurboSoundClass.TurboSound.ReadReg | src/audio/turbosound.cpp:154-157 | the byte a read of the active chip gives |
| TurboSoundClass.TurboSound.Tick | src/audio/turbosound.cpp:159-174 | the twice-cached tick leaves the machine as recomputing all outputs and the whole mix does, whose sums StereoLaw.MixAfterTick gives |
| TurboSoundClass.TurboSound.ComputeStereoMix | src/audio/turbosound.cpp:176-203 | the mix of the three chips' outputs (what goes to which side: StereoLaw) |
| TurboSoundClass.TurboSound.ChipPcm | src/audio/turbosound.cpp:205-211 | the latched share of one chip, zero when out of range or unknown |
| TurboSoundClass.TurboSound.LoadState | src/audio/turbosound.cpp:257-273 | any loaded state is followed by a full recomputation |
| TurboSoundClass.TurboSound.Do | src/audio/turbosound.cpp:96-174 | every operation keeps the two caches honest |
| TurboSoundClass.RunHistory | src/audio/turbosound.cpp:159-203 | over every sequence of writes, setters, resets, ticks and loads the caching object holds what recomputing everything on every tick would, and reads the same byte |
| I2sClass.Gated | src/audio/i2s.cpp:43-75 | each side is silence, its own channel, or the other one alone, by the control bits; so a ten-bit register gives ten bits |
| I2sClass.GatedSides | src/audio/i2s.cpp:43-75 | each side by the control bits: silence when nothing is enabled, on the EAR route or under its own mute; else its own channel, or the lone other one |
| I2sClass.RouteIs | src/audio/i2s.cpp:23-32 | the comparator runs exactly when a channel is enabled and the EAR bit set |
| I2sClass.ThresholdsAre | src/audio/i2s.cpp:23-32 | its thresholds in sample values: low below 256 on both, high from 768 on either or in the second and third quarter |
| I2sClass.LastEventLeaves | src/audio/i2s.cpp:34-41 | a sample leaves the low ten bits of either channel on its own side, a control byte itself, a load its pair and a low comparator |
| I2sClass.EarIsLastRail | src/audio/i2s.cpp:23-32 | the EAR line is high exactly when some earlier step reached the top threshold and nothing since has let it down |
| I2sClass.I2s.UpdateFeEar | src/audio/i2s.cpp:23-32 | one comparator step |
| I2sClass.I2s.SetSample | src/audio/i2s.cpp:34-41 | ten bits latched, then one comparator step |
| I2sClass.I2s.SetControl | src/audio/i2s.h:53 | the control byte, then one comparator step |
| I2sClass.I2s.LoadState | src/audio/i2s.cpp:98-105 | any saved pair is taken over and the comparator starts from 0 |
| MixLevels.MixRange | src/audio/mixer.cpp:52-170 | chips within 2295 and ten-bit I2S keep the mix within 0..6510 |
| MixLevels.ReachableMix | src/audio/mixer.cpp:52-170 | after any chip and I2S histories whose loaded values are in range or overwritten, the mix is within 0..6510 |
| FullScale.MixReaches6510 | src/audio/mixer.cpp:52-170 | with those chips, I2S, beeper, tape and DAC at full scale the mix is 6510 |
| MixWeights.RestLevel | src/audio/mixer.cpp:52-170 | at rest both sides are at 1536, and a muted DAC is at rest |
| MixWeights.BeeperWeights | src/audio/mixer.cpp:66-90 | whatever else sounds, EAR adds 512 to both sides, MIC 128 and tape EAR 512, and nothing while exclusive or muted |
| MixWeights.DacWeights | src/audio/mixer.cpp:52-170 | a step of DAC A or B is 4 on the left only, of C or D 4 on the right only, and nothing while muted |
| MixWeights.SumsAndI2sWeights | src/audio/mixer.cpp:52-170 | a step of a chip sum or a gated I2S side moves its own side by one |
| MixLevels.RoundingError | src/audio/mixer.cpp:198-206 | the emitted value q satisfies 2*abs(q*cycles - 4*sum) <= cycles |
| MixLevels.BoxStaysBetween | src/audio/mixer.h:70-86 | the average lies between four times the extremes fed in |
| MixLevels.SilenceIsZero | src/audio/mixer.h:46-58 | any run of silence emits exactly 0 |
| MixWeights.HeldLevelEmits | src/audio/mixer.cpp:192-229 | a level held over slices of any length emits four times its distance from 1536, cut to 16 bits |
| MixWeights.HalvesRoundAway | src/audio/mixer.cpp:198-229 | averages round to the nearest, halves away from zero, then the rest level goes and 16 bits are cut |
| MixWeights.Click | src/audio/mixer.cpp:172-241 | EAR alone on the mixer itself queues 2048 on both sides, and 0 without it |
| MixSound.HeldTimeEmits | src/audio/mixer.cpp:52-241 | after any history with nothing integrated, a time in which nothing changes emits, on each side, four times the sum of that side's sources: beeper, latched chip sum, its two DAC channels from 128 and its I2S side from 512 |
| MixSound.PiSampleIsHeard | src/audio/mixer.cpp:52-241 | from power-on with both I2S channels let through, a sample pair is queued on its own sides at four times its distance from 512 |
| MixLevels.SamplesStayInRange | src/audio/mixer.cpp:212-229 | slices with levels in 0..6510 average to a sample in -6144..19896, so the 16-bit clamp does not act on it (that the slices of every history are such: ClampNeverActs) |
| MixHistory.ClampNeverActs | src/audio/mixer.cpp:192-229 | in every history of chip operations, I2S events, gates, mutes, integration, samples, reads and resets in which out-of-range loaded values are replaced before time is integrated, the clamp never acts and the next sample lies in -6144..19896 |
| MixHistory.QueueOverHistories | src/audio/mixer.cpp:192-263 | in every such history the queue is the newest unread samples of all emitted, at most 4096, each in -6144..19896 |
| MixHistory.RunDesk | src/audio/mixer.cpp:38-263 | chips, I2S input and mixer as objects driven through any history from power-on: the mixer queue is exactly that one |
| MixLevels.SubdivisionIsInvisible | src/audio/mixer.h:84-86 | cutting a slice of constant level into any pieces anywhere changes no sum |
| MixLevels.AccumulatorsFit | src/audio/mixer.h:148-152 | the 64-bit sums, scaled and rounded, hold up to 2^48 cycles |
| MixLevels.QueueIsNewest | src/audio/mixer.cpp:231-263 | over every history of emits and reads the queue is the newest unread samples, in order, at most 4096 |
| MixLevels.QueueDropsHead | src/audio/mixer.cpp:232-236 | dropping the oldest sample advances the read position by one sample |
| MixLevels.QueueGrowsTail | src/audio/mixer.cpp:238-241 | storing at the write position appends one sample |
| MixLevels.CountCannotJump | src/audio/mixer.cpp:253-262 | a count raised with nothing stored disagrees with the positions, but for one accident |
| MixerClass.Mixer.Reset | src/audio/mixer.cpp:38-50 | an empty queue and accumulator |
| MixerClass.Mixer.Accumulate | src/audio/mixer.cpp:172-184 | the accumulators are the weighted sums of the slices since the last sample (what each source weighs: MixWeights) |
| MixerClass.Mixer.SetExcI | src/audio/mixer.h:131 | the speaker-exclusive gate |
| MixerClass.Mixer.SetMuteMask | src/audio/mixer.h:139 | of a mute mask the DAC and beeper bits are kept |
| MixerClass.Mixer.EmitSample | src/audio/mixer.cpp:192-241 | one rounded average joins the queue, or nothing when no time has passed |
| MixerClass.Mixer.Enqueue | src/audio/mixer.cpp:231-241 | the queue keeps the newest 4096 |
| MixerClass.Mixer.ReadSamples | src/audio/mixer.cpp:253-263 | into a buffer with room for what is copied: for a count that is not negative a prefix of the queue is copied and removed; the ring stays coherent exactly then, but for one accident |
| BasicText.KeywordFacts | tools/make-bas.py:20-38 | both tools agree on the token of every keyword of the tokenizer |
| Decimals.DecimalOfDec | tools/nextbasic_detok.py:95-97 | a number printed in decimal reads as itself |
| Decimals.DecimalFromLeft | tools/make-bas.py:107-110 | digits count tenfold from right to left |
| BasicTokens.DetokUndoesTok | tools/make-bas.py:41-126 | detokenising a tokenised line of printable text gives the text with recognised keywords in upper case, and nothing more if and only if its quotes balance; else the terminator and a quote are added |
| BasicTokens.RefusedForDotsOnly | tools/make-bas.py:93-118 | a line of 8-bit text is refused if and only if a number outside strings and remarks has more than one dot, for a converter that takes one dot |
| BasicParts.TokOfParts | tools/make-bas.py:41-126 | a line is tokenised, and shown, part by part wherever no word and no number runs across and the front part closes its strings and has no REM |
| BasicParts.RemarkTok | tools/make-bas.py:67-92 | REM, in any case, and what follows it: byte 234 and the text, byte for byte |
| BasicParts.RemarkStaysText | tools/make-bas.py:67-92 | text after REM stays text behind any front part that closes its strings, ends at a word's end and has no other REM: never tokenised, never refused for its dots, shown with its letters as they were |
| BasicParts.RemarkIsListed | tools/nextbasic_detok.py:67-119 | and so it is listed when its quotes balance |
| BasicParts.KeywordTok | tools/make-bas.py:73-92 | a keyword in any case is its one byte, shown in upper case |
| BasicParts.TokenBytes | tools/make-bas.py:20-35 | the fourteen keywords and their bytes |
| BasicParts.NumberTok | tools/make-bas.py:93-117 | a run of digits is its characters and, up to 65535, the bytes 14, 0, 0, low, high, 0 |
| BasicParts.DottedTok | tools/make-bas.py:93-117 | with one dot it takes the host's value or is refused; with more dots it is refused |
| BasicParts.StringTok | tools/make-bas.py:55-65 | a string is its characters, quotes included |
| BasicParts.OtherTok | tools/make-bas.py:118-126 | any other character is its code, or refused above 255 |
| BasicTokens.DetokPiece | tools/nextbasic_detok.py:86-117 | every piece the tokenizer emits is printed as its text, inside and outside strings |
| BasicTokens.DetokPayload | tools/nextbasic_detok.py:91-93 | the marker and its five bytes are skipped whatever they hold |
| BasicControls.AtIsShown | tools/nextbasic_detok.py:94-98 | the AT code and its operands in decimal, in this order; cut short, the listing breaks off |
| BasicControls.ControlIsShown | tools/nextbasic_detok.py:94-105 | the TAB and colour codes with their operand |
| BasicControls.PlainByteIsShown | tools/nextbasic_detok.py:116-117 | a byte without a picture as its two hexadecimal digits |
| BasicControls.HiddenBytes | tools/nextbasic_detok.py:88-93 | line ends, and number markers with the five bytes behind them, are not shown |
| BasicTokens.NextAndQuotes | tools/make-bas.py:55-65 | a step goes in or out of a string on a quote only |
| BasicCanon.TokOfCanon | tools/make-bas.py:41-126 | the listed text differs in letter case only, tokenises to the same bytes, and lists as itself |
| BasicCanon.KeywordSame | tools/make-bas.py:73-92 | keyword recognition does not depend on letter case |
| BasicFile.RawOfFrames | tools/nextbasic_detok.py:73-84 | framed lines are found again from any offset, up to the first that is not listable |
| BasicFile.YieldedAreDecoded | tools/nextbasic_detok.py:67-119 | whatever the file, the lines yielded are its plausible lines in order with their decoded texts: all of them, or those before the first that fails to decode |
| BasicControls.WhereReadingStops | tools/nextbasic_detok.py:72-84 | lines read have numbers in 1..9999 and bodies of 1..2000 bytes, and reading stops at the first place without such a line |
| BasicFile.ListOfFile | tools/nextbasic_detok.py:67-119 | listing a written file yields the longest prefix of listable lines, each with its text as shown, and ends without an error; the whole program if and only if every line is listable |
| BasicControls.ListedWhole | tools/nextbasic_detok.py:67-119 | a written program is listed whole if and only if its numbers are in 1..9999 and no line is over 2000 bytes |
| BasicFile.OffsetsPointAtBodies | tools/nextbasic_detok.py:67-119 | the offsets of a listing lead to the bytes it decoded, each line starting where the last one ends |
| BasicFile.BodyIsFrames | tools/make-bas.py:129-148 | the program body is the lines framed one after the other |
| BasicSource.SourceRoundTrip | tools/make-bas.py:129-170 | a source program written to a file is listed with the same numbers and texts, keywords in upper case |
| BasicSource.LinesRoundTrip | tools/make-bas.py:129-170 | the same for lines that are given rather than read from a text |
| BasicSource.ListingRebuilds | tools/make-bas.py:129-148 | the listing taken as source makes the same bytes |
| BasicSource.ParseOfSource | tools/make-bas.py:132-143 | lines written as source text are parsed as those lines |
| BasicRows.RowEnds | tools/make-bas.py:132 | a row ends at any of seven break characters |
| BasicRows.RowEndsOnce | tools/make-bas.py:132 | a carriage return and a line feed together are one break |
| BasicRows.LineRow | tools/make-bas.py:132-142 | digits, white space and a text, between white space, are that line |
| BasicRows.BlankRow | tools/make-bas.py:134-136 | a blank row is none |
| BasicRows.TakenRows | tools/make-bas.py:137-140 | and no other row is taken |
| MakeBas.FindKeyword | tools/make-bas.py:73-88 | the first spelt keyword, longest names first |
| MakeBas.TakeNumber | tools/make-bas.py:93-117 | the end of the number and its bytes |
| MakeBas.TokenizeLine | tools/make-bas.py:41-126 | the loop computes the token bytes of the line, which BasicParts gives part by part, or fails where a number is refused |
| MakeBas.TokenizeProgram | tools/make-bas.py:129-148 | the loop computes the framed lines of the whole source, or fails |
| MakeBas.MakeP3dosBasic | tools/make-bas.py:151-170 | header fields, zeros and checksum in place, body behind; fails exactly when a length or the autostart line does not fit |
| NextBasicDetok.DetokString | tools/nextbasic_detok.py:109-115 | a string is copied up to its closing quote or the end |
| NextBasicDetok.DetokeniseBody | tools/nextbasic_detok.py:84-117 | the nested loops compute the text of a line body |
| NextBasicDetok.Detokenise | tools/nextbasic_detok.py:67-119 | the loop yields the lines of the listing, and reaches its end exactly when all of them decode |
| Calendar.NextDayNumber | src/core/emulator_config.h:127-133 | the day number counts days across month ends, leap days and year ends |
| Calendar.EveryDateIsReached | src/core/emulator_config.h:127-133 | every date from 1900 on is reached day by day after its day number |
| Calendar.WeekdayCountsDays | src/core/emulator_config.h:133-136 | the weekday formula is the day count from Monday 1900-01-01 modulo 7 |
| Calendar.FourHundredYears | src/core/emulator_config.h:127-133 | the calendar repeats every 400 years, after 146097 days |
| Calendar.FormulaFitsUpTo | src/core/emulator_config.h:133-136 | every partial sum of the formula fits an int if and only if its year is at most 1717986918 |
| Rtc.PrintThenParse | src/core/emulator_config.h:100-148 | printing a real date and time and parsing it gives the six fields back, with T or space; and its weekday wherever no partial sum of the formula overflows |
| Rtc.PrintedTimeIsParsed | src/core/emulator_config.h:101-132 | six digit runs with separators in place are accepted exactly when they are a real time |
| Rtc.ParsedIsARealTime | src/core/emulator_config.h:101-132 | whatever is accepted has that form and names a real date and time |
| Rtc.AcceptedTexts | src/core/emulator_config.h:101-132 | a text is accepted if and only if it is six digit runs, none over 2147483647, with - - T-or-blank : : between them, the first three a day that counting from 1900-01-01 comes to and the others a time of day |
| Rtc.GivenNumbers | src/core/emulator_config.h:133-148 | and gives those numbers, the year from 1900 and the month from 0 |
| Rtc.ReadField | src/core/emulator_config.h:108-121 | one pass of the field loop |
| Rtc.SplitFields | src/core/emulator_config.h:105-122 | the loop over six fields |
| Rtc.ParseRtcDatetime | src/core/emulator_config.h:100-148 | the parser returns the fields and weekday of an accepted text, and refuses all others |
| TapeJson.StrtollOfDecimals | src/core/emulator_jns.cpp:200-211 | a signed 64-bit value written as decimal text reads as itself |
| TapeText.NumeralIsRead | src/core/emulator_jns.cpp:200-211 | blanks, a sign or none, and digits are read as their value, or refused when it does not fit 64 bits |
| TapeText.OnlyNumerals | src/core/emulator_jns.cpp:200-211 | no other text without a NUL is read |
| TapeText.NulEnds | src/core/emulator_jns.cpp:200-211 | what stands behind a NUL is not looked at; a text that starts with one is 0 |
| TapeJson.DeckIsRead | src/core/emulator_jns.cpp:270-315 | every field of a written deck reads back |
| TapeJson.TzxKeys | src/core/emulator_jns.cpp:145-162 | no two fields of a tzx deck share a key |
| TapeMember.DistanceIsKept | src/core/emulator_jns.cpp:127-128 | a time kept as a signed distance comes back at the same distance from the new clock |
| TapeMember.RebasingKeepsDistance | src/core/emulator_jns.cpp:251-252 | the poll time keeps its signed distance modulo 2^64, and is unchanged at the same clock |
| TapeMember.WrittenMemberIsRead | src/core/emulator_jns.cpp:122-315 | a written member is accepted exactly when its loader is known and its typist can be restored, and then gives the same loader, typist and deck and the rebased poll |
| TapeLayout.MemberLayout | src/core/emulator_jns.cpp:122-168 | the keys of a written member, with one deck under the loader's name, or under wav |
| TapeLayout.PollLayout | src/core/emulator_jns.cpp:127-128 | the poll's keys; its instant is the signed 64-bit distance from the clock in decimal text |
| TapeLayout.TypistLayout | src/core/emulator_jns.cpp:129-132 | the typist's keys, state and mode by name |
| TapeLayout.DeckHolds | src/core/emulator_jns.cpp:133-166 | a written deck's object holds every row of its table |
| TapeLayout.TapLayout | src/core/emulator_jns.cpp:133-138 | the ten keys of a tap deck and their types |
| TapeLayout.TzxPulsesLayout | src/core/emulator_jns.cpp:141-146 | the first ten keys of a tzx deck |
| TapeLayout.TzxDataLayout | src/core/emulator_jns.cpp:147-152 | the second ten |
| TapeLayout.TzxTonesLayout | src/core/emulator_jns.cpp:152-160 | the last ten |
| TapeLayout.WavLayout | src/core/emulator_jns.cpp:161-164 | the two keys of a wav deck |
| TapeLayout.WrittenIsTaken | src/core/emulator_jns.cpp:229-315 | a written member is read exactly when its loader is one of the three and its typist's delay at most 8 |
| TapeAccept.MemberTaken | src/core/emulator_jns.cpp:229-315 | a JSON value is read as a member exactly when every key is there, of its type and within its range, or one of its names |
| TapeAccept.MemberValues | src/core/emulator_jns.cpp:229-315 | and then its parts are those of their keys |
| TapeAccept.PollTaken | src/core/emulator_jns.cpp:246-252 | when a poll is read, and its instant relative to the new clock |
| TapeAccept.TypistTaken | src/core/emulator_jns.cpp:254-268 | when a typist is read, and as what |
| TapeAccept.DeckTaken | src/core/emulator_jns.cpp:270-315 | when a deck is read, and each row's value |
| TapeMember.AcceptedIsInRange | src/core/emulator_jns.cpp:170-172 | whatever the JSON, an accepted member has every field in its declared range |
| TapeMember.ReadWriteRead | src/core/emulator_jns.cpp:122-315 | what was read can be saved and read again without loss |
| TapePoll.ResumesOnTheSameRead | src/core/tape_poll_detector.h:25-42 | the restored poll detector answers as the original after any further reads, when the last read lies within the range of the new clock |
| TapePoll.ResumesExactly | src/core/tape_poll_detector.h:25-42 | over all later reads on any two clocks: original and restored detector answer alike if and only if no run was current at saving whose last read is older than the new clock (or, at the other end, none becomes current that was 2^64 away) |
| TapePoll.PollingMeans | src/core/tape_poll_detector.h:30-42 | a fresh detector answers that it polls exactly when its last 32 reads each came within 1000 T-states of the one before and now is within 1000 of the last; of a run of 2^32 reads or more the length modulo 2^32 counts |
| TapePoll.ConsistentSnapshotResumes | src/core/emulator_jns.cpp:1050 | loading sets the clock to the saved instant, and then the promise holds always |
| TapePoll.YoungerClockBreaks | src/core/tape_poll_detector.h:25-42 | a member that does not belong to its clock: 20 reads, saved at 1010, loaded at 5, and the detectors differ twelve reads later |
| TapePoll.PollingSurvivesLoading | src/core/tape_poll_detector.h:39-42 | at the instant of loading the restored detector polls exactly when the original did and its last read is no older than the new clock |
| TapeReader.ToJson | src/core/emulator_jns.cpp:122-168 | the writer's assignments build the member's object |
| TapeReader.NameIndex | src/core/emulator_jns.cpp:222-227 | the first matching name, or -1 |
| TapeReader.TapeJsonReader.Num | src/core/emulator_jns.cpp:173-187 | an in-range whole number, or the reason |
| TapeReader.TapeJsonReader.FlagAt | src/core/emulator_jns.cpp:188-193 | a boolean, or the reason |
| TapeReader.TapeJsonReader.StrAt | src/core/emulator_jns.cpp:194-199 | a string, or the reason |
| TapeReader.TapeJsonReader.I64s | src/core/emulator_jns.cpp:200-211 | a signed 64-bit decimal text, or the reason |
| TapeReader.TapeJsonReader.ObjAt | src/core/emulator_jns.cpp:212-219 | an object, or the reason |
| TapeReader.TapeJsonReader.ReadDeck | src/core/emulator_jns.cpp:270-315 | the deck's fields in order, stopping with the reason at the first that fails |
| TapeReader.TapeMemberRecord.FillDeck | src/core/emulator_jns.cpp:270-315 | the deck of the named loader is filled and the others are left |
| TapeReader.TapeMemberRecord.FillBody | src/core/emulator_jns.cpp:246-315 | poll, typist and deck are filled in this order, or the first reason reported |
| TapeReader.TapeMemberRecord.FromJson | src/core/emulator_jns.cpp:229-315 | the member is filled as the reading function says, or the reason is reported |

## Left out

- FIFO, named pipe, poll and threads of `PiAudio::open`, `close` and `run`, and all of `pi_audio_win.cpp`: operating-system calls. The order of reads and the writer-gone reset are kept.
- Weak memory: steps are sequentially consistent. A thread's load of its own counter is joined to its next step, and each statistics counter update is one step.
- The 64-bit statistics counters are unbounded numbers.
- Float gains of the mixer: all are 1, the path on which the code does not round. Without gains the per-chip shares do not enter the mix.
- Recording and capture callbacks of the mixer.
- The mixer's 64-bit accumulators are unbounded; `MixLevels.AccumulatorsFit` says how long they fit.
- Generator state of a chip is a group of small records and its 16 registers a sequence: update in place is at the level of these fields. Loops over the three chips are written out.
- `describe_state` and the save streams: a load is any state in range (`AyChip.Restore`, `TurboSound.LoadState`), followed by the code's own steps after it.
- AyTiming.ToneAfter: states the quotient by its witnesses q and r with count == r + period * q, which fix it; the same holds for NoiseAfter, EnvelopeAfter, EnvelopeAfterWrite and FromPowerOn.
- The conversion of a number with one dot is a parameter of the tokenizer, `host`: the nearest double cut to a whole number, or nothing on overflow. Whole-number runs of over 4300 digits, which newer Python versions also refuse, are converted here.
- Characters above ASCII are copied as bytes up to 255 and refused above, as the code does, but are never letters, digits, spaces or line breaks here; Python's Unicode tables count some of them.
- BasicSource.SourceRoundTrip: asks for printable ASCII; in other text the detokenizer prints control bytes as codes, which no tokenizer input gives back. File reading and writing and the command lines of both tools are not modelled.
- The detokenizer's errors are one: that it fails, and after which lines, is modelled, and which exception it raises is not.
- `tm_isdst` and the unset fields of `std::tm` are constant and left out. Beyond the years of `Calendar.FormulaFitsUpTo` the C++ sum overflows, which the language leaves undefined; the functions have the exact sum there.
- Rtc.PrintThenParse: says nothing of the weekday beyond the years of `Calendar.FormulaFitsUpTo`, where the C++ sum overflows.
- JSON text: the tape member is a small JSON value, whole numbers within 64 bits are `Int`, everything else the reader must refuse is `Other`.
- The chains of typed reads and writes of a deck are walks over a table of keys and kinds, in the order of the code. The tape loaders' own checks when a deck is restored are not modelled.
- TapePoll.ResumesExactly: compares the two detectors until either clock passes 2^64.
- `beeper.cpp`, `dac.cpp`, `clock.cpp`, option plumbing, scheduler, video and CPU: small setters or code that holds no harder property; the beeper and DAC levels enter the mix as inputs.
