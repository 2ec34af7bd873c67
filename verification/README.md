# Verification model of the Lyra control and signal core

This project models the stateful core of Lyra, a control program for HPSDR-style transceivers, and proves what
that core promises about every run:

- the IQ-domain transform engine and the noise-profile capture on top of it (`Complex`, `Dft`, `Fft`, `IqStft`,
  `CapturedProfile`): an in-place radix-2 transform against the textbook sum, Parseval's law (`Parseval`), a streaming
  overlap-add against the identity, what an installed modifier does to the stream (`IqGain`), and the noise reducer
  that installs one (`NoiseReducer`);
- the transmit/receive sequencer and the voice-operated gate that polls on top of it (`MoxSequencer`, `MoxTiming`,
  `VoxGate`, `KeyingStream`): a labelled transition system over requests, timers, settings and the clock; what was
  asked, and what the lockouts make of it (`MoxIntent`);
- the automatic receive gain (`AutoLna`), the drive chokepoint (`TxPower`), the watts-cap servo and its ceiling
  (`CapServo`, `WattsCeiling`), the reflected-power and watts protection (`SwrProtect`, `ProtectionScope`,
  `PowerChain`); what a cut of the protection makes of the keying sequencer (`KeyedProtection`), and what becomes of a
  fold over such a session (`FoldFate`);
- the VFO plan and click-tune (`VfoPlan`, `VfoHistory`, `Ctune`);
- per-band memory, the memory bank's CSV, selective backup and restore, and the dB auto-scaler (`BandMemory`,
  `BandHistory`, `MemoryCsv`, `MemoryBank`, `Backup`, `BackupScope`, `AutoScale`), with the automatic gain
  loop on a remembered band (`GainMemory`).

`Basics` holds the shared option type, bounds and powers of two.

Code that updates fields is a class whose methods are tied to a step function of the old state, `ensures State() ==
Step(old(State()))` or its parts under a narrow `modifies`; the promises are lemmas about runs of those steps. The
transforms work in place on arrays. `dafny verify dfyconfig.toml` checks the whole project.

Where the code and its comments disagree, the model follows the code and a lemma says exactly when the comment holds:

- a cancel in the RF delay followed by a re-key in the space window rests with MOX on and no modulator
  (`MoxSequencer.IdleOutcome`; the run is `DeadCarrier`); a re-key in a PTT-out delay leaves the on-air flag lit in
  receive until a later key-up runs out (`IdleOutcome`; from come-up, `LitInReceive`) and overwrites the saved
  attenuation (`AttenuationAtRest`, `AttenuationRestored`); the inhibit misses a pending key-down (`InhibitOutcome`);
  a key-down asked for inside the going-to-receive edge is lost (`FaithfulNext`);
- the voice gate loses a key it raised if it polls before MOX comes on (`VoxGate.KeptIff`), and then never releases it
  (`OrphanForever`);
- the servo may rest above the cap with a drive that starts below the ceiling (`CapServo.LandsUnderTheCapIff`), and cannot
  climb after a leftover fold (`ClimbsIff`, `FoldStallsTheWalk`);
- a fold is not undone at the next key-down if a tick in a tune met a locked ceiling (`FoldFate.KeyDownAfterFold`,
  `TuneForgetsIff`); a drive request equal to the folded level is not stored (`SwrProtect.RequestKeptIff`);
- a protection cut is a request: a re-key inside the space delay keeps the station on the air with nothing watching it
  (`KeyedProtection.CutEndsCarrierIff`, `OnAirIsWatched`); switching reflected-power protection off while keyed also
  stops the watts cap, which its comment calls independent (`OnAirIsWatched`, `SwrProtect.StandDownDropsTheWattsCap`);
- a click-tune view with a filter wider than its half of the span scrolls away again at the next evaluation
  (`Ctune.SettlesIff`); a centre clamped to nought leaves the demodulator shifted (`VfoPlan.ApplyOnDialIff`,
  `StrandedShift`); come-up ignores RIT and XIT (`VfoPlan.ComesUpCoherentIff`);
- band memory saves protection folds, and the transmit waterfall range while keyed (`BandMemory.FoldIsRemembered`,
  `LeftKeyedIff`, `EnteredKeyedIff`); the header of that class says automatic gain changes are not stored, but the
  automatic loop's writer signals them like the operator's (`BandMemory.AutoGainStoredIff`, `AutoRunStoredIff`,
  `AutoGainRemembered`; under the loop itself, `GainMemory.LoopOwnsTheBand`);
- the CSV import drops double quotes and trims, and a line break or a comma in the wrong column cuts a row apart, so it
  is not the inverse of the export for every bank (`MemoryCsv.RoundTripIff`, `SecondTripIff`);
- the export tests a key as it is, the restore its rig-stripped form (`Backup.ExportedUnrestorableIff`).

Conventions: floating point is `real`; timers are pending steps with a due time; `int` stands for the source's
integers, with the 32-bit stores and conversions of the tuning code written out (`Ctune.U32`, `Ctune.I32`).
Trigonometry enters as two facts about the twiddle steps (the step of length 2 is -1, the square of a step is the step
of half the length), which `Fft.TwiddlesAreRoots` derives from the double-angle formulas; the window as the law that
squared taps half a frame apart sum to one, which `IqStft.HannIsPowerComplementary` derives from the constructor's
Hann window; square and cube roots as numbers with that square or cube. Meter readings, poll intervals, band tables
and what connected slots request are inputs, arbitrary unless a lemma says otherwise.

The table gives the theorems first, then the methods that tie the fields of the classes to the steps the theorems are
about.

## Model

| member | source | states |
|---|---|---|
| `Complex.PowAdd` | src/iqstft.cpp:68-105 | powers of a twiddle step multiply by adding exponents: what the running `w *= wlen` relies on |
| `Dft.EvalSplit` | src/iqstft.cpp:83-98 | a sum over a signal is the sum over its even samples plus the twiddled sum over its odd samples |
| `Dft.DanielsonLanczos` | src/iqstft.cpp:83-98 | a bin of the spectrum of 2m samples, and the bin half a turn on, from the same bin of the two half-length spectra |
| `Dft.SumAndDifference` | src/iqstft.cpp:88-96 | the two outputs of a butterfly pass give back twice the half-length spectra as their sum and difference |
| `Dft.Inversion` | src/iqstft.cpp:68-105 | transform and opposite transform compose to N times the signal, for every N = 2^p, from the root facts alone |
| `Fft.RevInvolution` | src/iqstft.cpp:73-82 | bit reversal of p bits is its own inverse, so swapping pairs once is a permutation |
| `Fft.ReversedAt` | src/iqstft.cpp:73-82 | the recursive even/odd shuffle puts at i the sample at the reversal of i |
| `Fft.CarryStep` | src/iqstft.cpp:74-78 | one turn of the carry loop keeps the reversed counter equal to the reversal of the counter it stands for |
| `Fft.NextReversed` | src/iqstft.cpp:74-78 | the incremental update of j turns the reversal of i - 1 into the reversal of i |
| `Fft.CombineSpectra` | src/iqstft.cpp:88-96 | one butterfly pass builds the spectrum of a block from the spectra of its even and odd samples |
| `Fft.FlyReversed` | src/iqstft.cpp:83-98 | all passes over a bit-reversed block give the naive transform of the block in its original order |
| `Fft.LevelStep` | src/iqstft.cpp:84-98 | a stage takes the array from all blocks of one length finished to all blocks of twice the length finished |
| `Fft.Fft` | src/iqstft.cpp:68-105 | the whole in-place routine equals the naive transform sum (forward) or its scaled opposite (inverse), for every power of two |
| `Fft.RoundTrip` | src/iqstft.cpp:68-105 | the inverse call after the forward call returns the original array |
| `Fft.TwiddlesAreRoots` | src/iqstft.cpp:84-86 | the root facts hold for steps built from any cosine and sine tables that obey the double-angle formulas down to half a turn, for every length; that the steps lie on the unit circle follows |
| `Fft.FourPointRoots` | src/iqstft.cpp:85-86 | the root facts are met by the tables of lengths 2 and 4, so they are no contradiction |
| `Parseval.TransformEnergy` | src/iqstft.cpp:68-105 | Parseval's law: the transform of 2^p samples carries their energy times 2^p, for every step on the unit circle |
| `Parseval.UnitRoot` | src/iqstft.cpp:84-86 | the steps lie on the unit circle, from the root facts alone |
| `IqStft.Stable` | src/iqstft.cpp:31-66 | samples fed later change neither what was emitted nor the carried half frame; they only queue |
| `IqStft.OneMoreFrame` | src/iqstft.cpp:40-65 | one turn of the frame loop extends the output by one hop and moves the carry, over the whole stream fed so far |
| `IqStft.OverlapSum` | src/iqstft.cpp:13-24 | two taps whose squares sum to one put a sample back together |
| `IqStft.HannIsPowerComplementary` | src/iqstft.cpp:13-24 | the constructor's window, the square root of a periodic Hann window, has squared taps half a frame apart that sum to one, because half a period on a cosine changes its sign |
| `IqStft.PerfectReconstruction` | src/iqstft.cpp:31-66 | with no modifier the output of the overlap-add recursion is the input, by induction over the frames |
| `IqStft.DrainedCount` | src/iqstft.cpp:40-65 | frames emitted, from the total fed: (total - n) / h + 1 once total reaches n, else none |
| `IqStft.UnmodifiedStream` | src/iqstft.cpp:31-66 | for every way of feeding the stream: h times the frame count samples are out, sample j is input j from h on, and input j times the squared tap before |
| `IqStft.EngineIsIdentity` | src/iqstft.cpp:31-66 | any engine that never had a modifier: what it has emitted is what it was fed, sample by sample from h on, and the rest is queued |
| `IqGain.FrameCarriesModified` | src/iqstft.cpp:46-49 | whatever an installed modifier makes of the analysed spectrum is the spectrum of the resynthesised frame |
| `IqGain.HopOverlaps` | src/iqstft.cpp:51-63 | overlap-add over any modifiers: each position of a hop is the front half of its frame on top of the back half of the frame before |
| `IqGain.ScaledStream` | src/iqstft.cpp:31-66 | frames of strength c_i: position k of hop i comes out as win[k]^2 c_i + win[h+k]^2 c_(i-1) times the input there |
| `IqGain.EngineFollowsGain` | src/iqstft.cpp:31-66 | an engine with one multiplying modifier emits the input times it from h on; a muting one emits silence |
| `IqStft.Engine.Process` | src/iqstft.cpp:31-66 | any chunking: the stream fed grows by the chunk, what is returned is exactly the growth of the output, spectra go to the hook in order, everything else stays queued |
| `CapturedProfile.SurplusIgnored` | src/capturedprofile.cpp:13-26 | frames beyond the target never change the mean over the first ones |
| `CapturedProfile.Profile.Feed` | src/capturedprofile.cpp:47-61 | in every chunking the capture ends with the call that reaches the target, and the valid profile is the per-bin mean power over exactly the first target frames of the whole stream |
| `CapturedProfile.MeanOfSums` | src/capturedprofile.cpp:52-60 | sums over the frames seen, divided by the target, are the mean over the first target frames |
| `CapturedProfile.ProfileEnergy` | src/capturedprofile.cpp:13-26 | what a profile measures: its bins together, times the number of frames, are the energy of the windowed input under those frames times the length |
| `NoiseReducer.SubtractsPower` | src/noisereducer.cpp:19-33 | the share of power a bin keeps is what the over-weighted profile leaves of it, between the floor's and all of it |
| `NoiseReducer.NoisierIsQuieter` | src/noisereducer.cpp:19-33 | a noisier profile never gives a bin more gain |
| `NoiseReducer.MasksStayBetween` | src/noisereducer.cpp:16-37 | over every stream no bin is amplified and none attenuated beyond the floor, smoothing included |
| `NoiseReducer.EmptyProfilePasses` | src/noisereducer.cpp:16-37 | a profile of nothing leaves every bin of every stream alone |
| `NoiseReducer.MaskCloses` | src/noisereducer.cpp:32-33 | on a steady spectrum each bin's gain closes in on the wanted one by the smoothing factor each frame |
| `NoiseReducer.ReducesEnergy` | src/noisereducer.cpp:16-37 | through the engine: a reduced frame never has more energy in time than the windowed input under it |
| `NoiseReducer.GivenAt` | src/noisereducer.cpp:61-86 | in blocks of any sizes: frame t out is silence for one window and then what the engine emitted, in order, none lost |
| `NoiseReducer.PassesDelayed` | src/noisereducer.cpp:61-86 | without a profile the reducer is a delay of exactly one window after the fade-in |
| `NoiseReducer.Reducer.Process` | src/noisereducer.cpp:68-86 | exactly as many frames out as in: the primed queue never runs dry |
| `MoxSequencer.WireNested` | src/hl2_stream.cpp:3409-3696 | XmitBit equals MOX, modulator running implies inject implies MOX, and a chain is in flight exactly when one step is pending |
| `MoxSequencer.SafeNext` | src/hl2_stream.cpp:3360-3696 | every event, request or timer or setting, in any order, keeps that invariant |
| `MoxSequencer.SafeRun` | src/hl2_stream.cpp:3360-3696 | the invariant over whole sessions |
| `MoxSequencer.FireNextProgress` | src/hl2_stream.cpp:3467-3696 | with no new request each timer step lowers an explicit step count by exactly one |
| `MoxSequencer.Converges` | src/hl2_stream.cpp:3409-3696 | from any chain state, once requests stop at most four steps end it with wire MOX equal to the intent |
| `MoxSequencer.FaithfulNext` | src/hl2_stream.cpp:3662-3696 | intent and wire of an idle sequencer part company in exactly one way: a key-down asked for inside the going-to-receive edge is lost |
| `MoxSequencer.InhibitOutcome` | src/hl2_stream.cpp:4051-4062 | engaging the inhibit during a chain still ends on the air exactly when a key-down was requested and wire MOX was not yet on |
| `MoxIntent.InhibitHolds` | src/hl2_stream.cpp:4051-4062 | once the inhibit is on, and no key-down was on its way out, no request of any source leads anywhere until it is released: nothing wanted, in receive or on the way there |
| `MoxIntent.LockoutHolds` | src/hl2_stream.cpp:3372-3377 | while the converter's lockout lasts no key-down gets through, and a station without a key stays in receive |
| `MoxIntent.PressThroughIff` | src/hl2_stream.cpp:3360-3377 | in every session a press gets through exactly when the last word on either lockout was off |
| `MoxIntent.PressGoesOut` | src/hl2_stream.cpp:3360-3407 | and what gets through is recorded with its source and ends on the air once nothing else is asked |
| `MoxIntent.SettingsAreHistory` | src/hl2_stream.cpp:4032-4074 | over every session each setting is what was last asked for within its limits (0 to 31 dB, 1 to 500 ms), and the clock is the time waited |
| `MoxIntent.AttenuationWhileKeyed` | src/hl2_stream.cpp:3409-3465 | from the raise to the end of MOX the attenuator is at the value last set, 31 dB with the setting off, if it is not edited between raise and MOX |
| `MoxIntent.IntentIsLastWord` | src/hl2_stream.cpp:3360-3407 | over every session the intent is the last word let through: of a source, of a slot of an edge, or of the inhibit on a keyed station |
| `MoxIntent.SourceIsLastKeyer` | src/hl2_stream.cpp:3378-3396 | over every session the recorded source is that of the last key-down let through, and the default again after each return to receive |
| `MoxSequencer.RecordedRun` | src/hl2_stream.cpp:3409-3696 | over every session, settings edited or not, the state is tied to which guards fired on the way (cancel in the RF delay, re-key in a PTT-out delay and whether the last one was, on-air and receive edges, retune while keyed) |
| `MoxSequencer.IdleOutcome` | src/hl2_stream.cpp:3409-3696 | idle transmit has modulator and inject on exactly when the RF delay was not cancelled; idle receive has everything off; in receive the on-air flag is lit exactly when the last PTT-out delay was ended by a re-key and an on-air edge came since the last receive edge |
| `MoxSequencer.AttenuationAtRest` | src/hl2_stream.cpp:3409-3696 | in receive the attenuation is the one from before the session, or the one in force when a re-key last ended a PTT-out delay, whatever settings were edited |
| `MoxSequencer.AttenuationRestored` | src/hl2_stream.cpp:3409-3477 | without attenuator edits the pre-key attenuation comes back exactly when no re-key ended a PTT-out delay in the session |
| `MoxSequencer.DeadCarrier` | src/hl2_stream.cpp:3516-3571 | from every keydown past its RF delay, release and re-press in the space window rest with MOX on and the modulator never started |
| `MoxSequencer.StaleLamp` | src/hl2_stream.cpp:3467-3477 | from every keyup past its PTT-out delay, re-press and release rest in receive with the on-air flag as it was and the raised attenuation kept |
| `MoxSequencer.LitInReceive` | src/hl2_stream.cpp:3467-3696 | a whole session from come-up, for all delays: press, release, press at the end of the PTT-out delay, release; it rests in receive, unrequested, with the on-air flag lit |
| `MoxTiming.SpacingKept` | src/hl2_stream.cpp:3409-3696 | at least the MOX delay from ATT/OC raise to MOX, the RF delay from MOX to modulator start, the TX-stop delay from modulator stop to MOX off, the PTT-out delay from MOX off to ATT/OC restore, in every orderly run |
| `VoxGate.OwnKeyOnly` | src/hl2_stream.cpp:3137-3210 | over every interleaving with other key sources the gate asks for key-down only with wire and intent off, and for key-up only when the last key-down intent was its own |
| `VoxGate.OpensIff` | src/hl2_stream.cpp:3178-3202 | in every session a poll opens the gate exactly on speech, gate last switched on, no CW, no inhibit, wire and intent off |
| `VoxGate.ClosingReleases` | src/hl2_stream.cpp:3182-3209 | silence, CW, the inhibit or switching off lets an own key go, and it goes off the air |
| `VoxGate.SwitchedOffNeverKeys` | src/hl2_stream.cpp:3222-3238 | a gate that stays off asks for no key-down, and without a key leaves the sequencer alone |
| `VoxGate.GateIsHistory` | src/hl2_stream.cpp:3222-3238 | over every session the gate is as last switched and its lamp is its ownership |
| `VoxGate.AheadRun` | src/hl2_stream.cpp:3137-3210 | in every session with timers on time no pending step is ever due further ahead than its delay: what the bounds on an opening rest on |
| `VoxGate.OpeningArrives` | src/hl2_stream.cpp:3137-3210 | the poll that opens the gate, from rest or any part of a chain, sets the moment of the MOX bit: within MOX plus PTT-out delay |
| `VoxGate.KeptIff` | src/hl2_stream.cpp:3137-3210 | from every state the gate can open in, with nobody else keying: at a later poll the key is on the wire and still the gate's own exactly when that moment has come |
| `VoxGate.KeptToNextPoll` | src/hl2_stream.cpp:3137-3210 | in every session with timers on time: with MOX delay plus PTT-out delay below the 50 ms poll, the key is on the wire and still owned at the next poll unless someone stepped in |
| `VoxGate.LostBeforeMox` | src/hl2_stream.cpp:3167-3229 | from every state the gate can open in: before that moment a poll, or switching the gate off, loses the ownership while the key-down goes on |
| `VoxGate.OrphanForever` | src/hl2_stream.cpp:3137-3238 | such a key is never released by the gate again, over any run of polls, timers and gate switches |
| `AutoLna.RidingNext` | src/hl2_stream.cpp:805-961 | a loop in its band around the edge stays there on every poll, for every jitter with at least three polls to a hold interval |
| `AutoLna.DistanceShrinks` | src/hl2_stream.cpp:805-961 | every poll brings the loop into the band or strictly closer to it |
| `AutoLna.FindsTheEdge` | src/hl2_stream.cpp:805-961 | for every front end that clips above T, -9 <= T <= 46, with undo on and at least three polls to a hold interval: the gain enters [T-2, T+1] within an explicit number of polls and stays |
| `AutoLna.DistanceStarts` | src/hl2_stream.cpp:805-961 | that number is at most 600 plus sixty hold intervals |
| `AutoLna.SlowPollsOvershoot` | src/hl2_stream.cpp:805-961 | that pace is exact: at every slower one a loop at rest on the edge steps past T+1 |
| `AutoLna.AcquireOvershoot` | src/hl2_stream.cpp:805-961 | a fast acquire from a quiet start at or below T never goes beyond T+4 |
| `AutoLna.PinnedForever` | src/hl2_stream.cpp:805-961 | a clipping gain at or below the back-off limit is never reduced and the lamp stays at its top tier |
| `AutoLna.StandsBy` | src/hl2_stream.cpp:889-909 | switched off or keyed, over any polls: gain and arming stay, only the clock runs |
| `AutoLna.LoopStandsBy` | src/hl2_stream.cpp:889-909 | so in front of every converter |
| `AutoLna.WithoutUndoNeverRises` | src/hl2_stream.cpp:935-961 | with undo off and no acquire armed no run of polls raises the gain |
| `AutoLna.GainStaysInRange` | src/hl2_stream.cpp:911-961 | no run takes the gain beyond 47 from below it, nor under -11 from above it |
| `AutoLna.AcquireClimbs` | src/hl2_stream.cpp:935-961 | an armed acquire climbs one step with every clean poll, undo or not, up to 47 |
| `AutoLna.ClipsConfirm` | src/hl2_stream.cpp:805-888 | clipping polls in a row fill the counter to five; red from four on, amber before |
| `AutoLna.CleanPollsFade` | src/hl2_stream.cpp:805-888 | clean polls in a row empty it one by one; amber exactly until it is empty |
| `TxPower.ChokepointMonotone` | src/hl2_stream.cpp:2537-2581 | for every mode, band gain and cap state the byte is in 0..255, monotone in the request, never above the byte at the watts ceiling, and the final clamp never cuts |
| `TxPower.NeutralByte` | src/hl2_stream.cpp:2297-2316 | at neutral settings the byte is the request on the analog path, and sixteen fifteenths of it, full from 239 on, on the coarse one |
| `TxPower.DigitalShare` | src/hl2_stream.cpp:2537-2545 | with a neutral analog chain a digital mode emits its percentage of the request, rounded down, and any other mode the request |
| `TxPower.ByteCarriesVolume` | src/hl2_stream.cpp:2546-2581 | the byte carries the volume to half a step, in capped CW on the coarse path 85 percent of its square |
| `TxPower.FoldOnlyReduces` | src/hl2_stream.cpp:2567-2581 | the capped-CW fold never emits more than the unfolded byte |
| `TxPower.CutOnlyReduces` | src/hl2_stream.cpp:2537-2545 | the digital-mode cut never emits more than no cut, nor a deeper cut more than a shallower one |
| `CapServo.RootsAreOrdered` | src/hl2_stream.cpp:2327-2339 | on (0,1) the square root of cap over full lies under its cube root |
| `CapServo.SeedUnderHardMax` | src/hl2_stream.cpp:2318-2340 | on either drive path the seed is at least 1 and never above the runaway bound, from the order of the two roots alone |
| `WattsCeiling.CeilingInRange` | src/hl2_stream.cpp:2359-2374 | with something to learn, learned within the bound or not learned, the watts ceiling is between one and the runaway bound |
| `WattsCeiling.RunawayBound` | src/hl2_stream.cpp:2400-2440 | the runaway bound: full drive on the analog path, else 255 times the cube root of cap over full, to half a step |
| `WattsCeiling.LearnedIsTuned` | src/hl2_stream.cpp:2342-2347 | learned means a stored ceiling whose cap is that in force to a hundredth of a watt |
| `WattsCeiling.UnlearnedCeiling` | src/hl2_stream.cpp:2318-2374 | a band that learned nothing: 255 with the cap off or at full output, 76 without a reference, else the square root of cap over full, or 85 percent of it on the analog path, to half a step |
| `WattsCeiling.LearnedCeiling` | src/hl2_stream.cpp:2359-2374 | a learned ceiling is itself the limit |
| `WattsCeiling.UnlearnedStaysUnderCap` | src/hl2_stream.cpp:2318-2340 | on any plant no shallower than the square of the drive an unlearned band stays at or under the cap, to half a step of the ceiling |
| `WattsCeiling.UnlearnedAnalogStaysUnderCap` | src/hl2_stream.cpp:2318-2340 | on the analog path, on any plant no shallower than linear, at or under 85 percent of it |
| `WattsCeiling.TickSeeds` | src/hl2_stream.cpp:2376-2440 | with nothing to learn no tick does anything; otherwise the first one takes the unlearned ceiling as its seed, unlatched |
| `WattsCeiling.NothingOverTheCeiling` | src/hl2_stream.cpp:2516-2592 | through the chokepoint: no request in any mode emits more than the station's own ceiling would |
| `WattsCeiling.AnalogByteUnderTheCeiling` | src/hl2_stream.cpp:2516-2592 | on the analog path with a neutral trim the emitted byte itself is at or under the ceiling |
| `CapServo.TickWalks` | src/hl2_stream.cpp:2376-2504 | one tick with any reading, or none, puts the ceiling between 1 and the runaway bound |
| `CapServo.TickFrame` | src/hl2_stream.cpp:2376-2504 | a tick touches only the learned ceiling, its latch, the applied drive and the throttle |
| `CapServo.SettledNeverRises` | src/hl2_stream.cpp:2376-2504 | once parked for a cap no reading and no drive raises the ceiling or undoes the latch |
| `CapServo.ClimbFromBelow` | src/hl2_stream.cpp:2483-2503 | a climb happens only on a reading under 0.97 of the cap, by at most one step (12 or 3), never past the request |
| `CapServo.ClimbsIff` | src/hl2_stream.cpp:2483-2503 | exactly when a tick raises the ceiling |
| `CapServo.ClimbsBy` | src/hl2_stream.cpp:2483-2503 | how far: three, or twelve on the analog path well under the cap, never past request or bound |
| `CapServo.FallsIff` | src/hl2_stream.cpp:2471-2503 | exactly when a tick lowers the ceiling, by three, and when the latch closes; a decision every third tick |
| `CapServo.Lands` | src/hl2_stream.cpp:2376-2504 | on any plant at any constant drive the servo parks within an explicit number of ticks and stays parked |
| `CapServo.LandsUnderTheCap` | src/hl2_stream.cpp:2376-2504 | wherever it lands: at or under the cap, or at ceiling 1, or with the drive below the ceiling; at full request the last is out; an unlatched rest is at min(bound, request) |
| `CapServo.LandsUnderTheCapIff` | src/hl2_stream.cpp:2376-2504 | on any plant at any drive it lands at or under the cap, or at ceiling 1, exactly when at the start the drive pressed against the ceiling, or was under the cap by itself, or the ceiling was 1 |
| `CapServo.BelowTheCeilingUnwatched` | src/hl2_stream.cpp:2471-2503 | with the drive below the ceiling no tick ever acts, whatever the power |
| `CapServo.OvershootBounded` | src/hl2_stream.cpp:2376-2504 | on a monotone plant, from a reading under the cap, the ceiling is never more than one climb above one that reads under the cap |
| `CapServo.FoldStallsTheWalk` | src/hl2_stream.cpp:2458-2503 | a leftover fold hands the drive back at or below the ceiling, after which the walk never climbs until the operator moves the drive |
| `CapServo.TickDrive` | src/hl2_stream.cpp:2376-2514 | what every tick does to the drive: nothing without a fold, with nothing to learn, or while only seeding; under a locked ceiling the flag goes and the folded drive stays; else the stored slider comes back under the ceiling |
| `SwrProtect.ReflectsIff` | src/hl2_stream.cpp:4832-4847 | the trip condition is exactly rev/fwd >= ((L-1)/(L+1))^2 above the floors: the cap on the reflection coefficient never hides an over-limit |
| `ProtectionScope.WattsCounts` | src/hl2_stream.cpp:4771-4815 | how a tick counts for the watts check, in its own terms: armed cap, no tune, 30 percent over, the floor, blanking and dwell in steps of 50 ms |
| `ProtectionScope.SwrCounts` | src/hl2_stream.cpp:4823-4856 | how it counts for the reflected-power check: enabled, the tune exemption, blanking and dwell |
| `ProtectionScope.UnderTheFloors` | src/hl2_stream.cpp:4771-4835 | a meter without a reading, or under its floor, is nothing against anybody |
| `ProtectionScope.HarmlessRun` | src/hl2_stream.cpp:4771-4856 | over any readings neither check has anything against, outside a tune, nothing happens to drive, key, lamp or learning |
| `ProtectionScope.OffMeansOff` | src/hl2_stream.cpp:4771-4856 | with protection off and no cap armed and set that is so for every reading, in a tune or not |
| `ProtectionScope.FirstAction` | src/hl2_stream.cpp:4735-4898 | from a key-down with a steady reflection: exactly nothing until the ticks past the blanking make up the dwell, and on that tick half the drive, not below the floor percentage, or the cut |
| `ProtectionScope.FreshWindowIsBlanked` | src/hl2_stream.cpp:4078-4096 | switched on in the middle of a transmission, protection starts a fresh window and does nothing until its blanking is over |
| `ProtectionScope.SwitchStartsFresh` | src/hl2_stream.cpp:4078-4096 | what the switch does: a fresh window while keyed, a stop, or only the setting |
| `ProtectionScope.TuneResetsTheLamp` | src/hl2_stream.cpp:2967-2990 | a tune that begins on the air puts the lamp out and keeps the counters |
| `ProtectionScope.SliderTakesEffect` | src/hl2_stream.cpp:2720-2750 | the slider takes effect at once, and is stored unless the drive is there already |
| `SwrProtect.DriveOnlyFolds` | src/hl2_stream.cpp:4771-4940 | over any readings of a keyed window without a tune: drive never rises, never folds below the floor, stored slider and learned ceilings stay, folds made plus folds left is constant |
| `SwrProtect.SevenFolds` | src/hl2_stream.cpp:4858-4898 | at most seven folds, whatever the floor and the start |
| `SwrProtect.CountersAreStreaks` | src/hl2_stream.cpp:4771-4856 | both dwell counters equal the unbroken over-limit streaks of the whole run, tune or no tune |
| `SwrProtect.ActsOnlyAfterDwell` | src/hl2_stream.cpp:4807-4855 | neither protection acts on less than a full dwell of over-limit ticks with no counted under-limit tick and no action between |
| `SwrProtect.ChangesOnlyWhenActing` | src/hl2_stream.cpp:4771-4856 | drive, evaluator and request to drop the key change on exactly the ticks where a check acts |
| `SwrProtect.SustainedReflectionCuts` | src/hl2_stream.cpp:4836-4898 | with every reading over the limit the key is asked to drop within one dwell per fold left plus one; what the sequencer makes of it is in `KeyedProtection` |
| `SwrProtect.SustainedPowerCuts` | src/hl2_stream.cpp:4807-4815 | a sustained watts overrun folds and asks for the key to drop within the same bound, independent of the reflected-power enable; what the sequencer makes of it is in `KeyedProtection` |
| `SwrProtect.StandDownDropsTheWattsCap` | src/hl2_stream.cpp:4078-4096 | switching reflected-power protection off while keyed stops the evaluator: no reading folds or cuts until the next key-down |
| `SwrProtect.NextKeyDownRestores` | src/hl2_stream.cpp:4735-4762 | the next key-down restores the stored slider under the ceiling and clears lamp and counters |
| `SwrProtect.FoldsAreUndone` | src/hl2_stream.cpp:4735-4762 | key-down, any readings, key-down gives back the same servo and drive when the drive was the stored one under the ceiling |
| `SwrProtect.RequestKeptIff` | src/hl2_stream.cpp:2736-2741 | a drive request survives the next key-down except when it asks for exactly the folded level, which is taken for no change and not stored |
| `FoldFate.MomentFlag` | src/hl2_stream.cpp:2440-2514 | whatever happens in a session, a fold is in force afterwards exactly when one is made, or one was and neither an on-air edge nor the servo at work in a tune nor a tune that begins on the air drops it |
| `FoldFate.MomentDrive` | src/hl2_stream.cpp:2440-2514 | what becomes of the drive when no fold is made: kept, kept with the flag dropped (the forgotten fold), or handed back under the ceiling of that moment |
| `FoldFate.FlagIsInForce` | src/hl2_stream.cpp:2440-2514 | over every session of keying, readings, protection and tune switches the flag is exactly the history of folds made and dropped |
| `FoldFate.DriveAfterFold` | src/hl2_stream.cpp:2440-2514 | after a fold and no further one, the drive at every later moment of the session |
| `FoldFate.KeyDownAfterFold` | src/hl2_stream.cpp:4735-4762 | a fold in a session, anything after it, and an on-air edge of the sequencer: the stored slider is back under the ceiling of the hand-back, exactly when no tick forgot the fold or the two levels agree |
| `FoldFate.TuneForgetsIff` | src/hl2_stream.cpp:2440-2464 | in a tune a fold is forgotten exactly when an awake tick comes and the cap is active, there is something to learn and the ceiling for this cap is locked |
| `KeyedProtection.OnAirIsWatched` | src/hl2_stream.cpp:676-683 | over every session of keying, readings, protection and tune switches: at rest on the air the evaluator runs, outside a stand-down and the run of a cut whose keyup a re-key called off |
| `KeyedProtection.ReceiveIsUnwatched` | src/hl2_stream.cpp:4735-4769 | over every session, at rest in receive the evaluator is stopped unless the last PTT-out delay was ended by a re-key |
| `KeyedProtection.EdgesMoveTheFlag` | src/hl2_stream.cpp:3516-3696 | the two edges are what moves the on-air flag, and nothing else does |
| `KeyedProtection.SwitchesAreHistory` | src/hl2_stream.cpp:2929-2991 | over every session protection is on as last switched, and a tune lasts until switched off or back in receive |
| `KeyedProtection.TxRunsOnItsShare` | src/hl2_stream.cpp:676-683 | the sequencer in such a session is the sequencer on its own events and the key-ups of the cuts, so all its results hold there |
| `KeyedProtection.CutEndsCarrierIff` | src/hl2_stream.cpp:3563-3630 | a cut on the air ends the carrier exactly when no key-down was the last word let through before the space delay ended; with one, the station stays on the air |
| `KeyedProtection.RekeyedUnwatched` | src/hl2_stream.cpp:3563-3571 | that run, from every rest on the air: cut, press in the space delay, and the station is on the air at rest with the evaluator stopped and no reading acting any more |
| `KeyedProtection.ReflectionReleasesKey` | src/hl2_stream.cpp:4823-4962 | from rest on the air a reflection that stays over the limit puts the sequencer into its keyup within the bound |
| `KeyedProtection.PowerReleasesKey` | src/hl2_stream.cpp:4807-4940 | so does a power that stays over the watts cap, with the reflected-power check on or off |
| `Ctune.CentredOrCaptured` | src/hl2_stream.cpp:1994-2011 | after every evaluation the demodulator is at the centre or has its whole passband in the captured span |
| `Ctune.CentredOrWithin46` | src/hl2_stream.cpp:1994-2011 | in hertz: within 46 percent of the captured span on either side, or centred |
| `Ctune.LandsInView` | src/hl2_stream.cpp:1986-2011 | in the fits-in-view case the passband ends within the display margins to under 1 Hz |
| `Ctune.DecidesInHertz` | src/hl2_stream.cpp:1986-2011 | the whole decision in hertz: nine tenths of the screen, half a megahertz beyond, the least scroll to the margin, 46 percent of the captured span |
| `Ctune.AlwaysInViewIff` | src/hl2_stream.cpp:1986-2011 | for a view the passband fits, it ends in view for all dials and centres exactly when each side takes less than 0.45 of the span plus 1 Hz |
| `Ctune.StaysIff` | src/hl2_stream.cpp:1996-2011 | the centre is left alone exactly when the passband is in view already, and centred or captured |
| `Ctune.SettlesIff` | src/hl2_stream.cpp:1986-2011 | at the receiver's rates and for a view the passband fits: a second evaluation moves nothing, for all dials and centres, exactly when the centred dial holds, in terms of filter edges, jump and captured span |
| `Ctune.SettlesIffThree` | src/hl2_stream.cpp:1986-2011 | for every view and rate: exactly when it holds at the centre and next to the two stops of the captured span |
| `Ctune.CentreHoldsIff` | src/hl2_stream.cpp:1986-2011 | what a holding centre is: jumped straight back, not out of the margins by a hertz, or out of the captured span |
| `Ctune.SettlesAtOnce` | src/hl2_stream.cpp:1996-2011 | at any rate: filters within their half of the view, and views the passband does not fit, settle with one evaluation |
| `Ctune.WideFilterHunts` | src/hl2_stream.cpp:1996-2011 | an instance at 192 kHz: a far click centres the dial and the next evaluation scrolls away again |
| `Ctune.FasterRateHunts` | src/hl2_stream.cpp:1986-2011 | beyond the receiver's rates a holding centre is not enough |
| `Ctune.StaysLive` | src/hl2_stream.cpp:2012-2018 | from a live centre and a dial above nought neither the clamp nor the 32-bit store touches the new centre |
| `VfoPlan.RunCoheres` | src/hl2_stream.cpp:1857-2251 | over every sequence of setters: TX is VFO B or A plus XIT, DDC1 is the second receiver or DDC0, centre plus shift is dial plus RIT, SUB with SPLIT ties RX2 to VFO B, focus on B needs SUB or SPLIT |
| `VfoPlan.ApplyCoheres` | src/hl2_stream.cpp:1857-2251 | each single setter keeps that |
| `VfoHistory.PlanIsHistory` | src/hl2_stream.cpp:1857-2251 | over every sequence of setters each field is what was last asked for: dials with the tie of SUB and SPLIT, offsets within 9999, switches, focus with its fallback, view |
| `VfoHistory.NoNewsNoWrite` | src/hl2_stream.cpp:1857-2251 | a setter asked for what is already so writes nothing, in any plan |
| `VfoHistory.SidesApart` | src/hl2_stream.cpp:1857-2251 | in any plan: XIT moves only the transmitter, RIT, SUB and click-tune never move it, an offset that is off moves nothing, nor does the view without click-tune |
| `VfoHistory.TransmitsTheHistory` | src/hl2_stream.cpp:1918-1947 | what is transmitted and what the second converter is given, from the history alone |
| `VfoHistory.HearsTheHistory` | src/hl2_stream.cpp:1956-2033 | what is heard, from the history alone, over every run in which no setter loses the dial |
| `VfoHistory.EngagesWhereAsked` | src/hl2_stream.cpp:2067-2077 | click-tune engaged where the passband is on screen and captured locks the radio exactly there |
| `VfoHistory.SwitchesOnAtTheDial` | src/hl2_stream.cpp:2059-2065 | switched on it locks on the dial |
| `VfoHistory.LockedCentreStands` | src/hl2_stream.cpp:1956-2033 | the point of click-tune: whatever is tuned with the passband on screen and captured, the radio's centre does not move and the shift follows |
| `VfoHistory.ReleasesToTheDial` | src/hl2_stream.cpp:2059-2077 | released, either way, the radio is on dial plus RIT without a shift |
| `VfoPlan.PushOnDialIff` | src/hl2_stream.cpp:1956-2033 | exactly when an evaluation loses the dial: the centre is clamped or wrapped to nought with a dial not at nought |
| `VfoPlan.ApplyOnDialIff` | src/hl2_stream.cpp:1956-2077 | for every coherent plan and setter: the dial is lost exactly when, before the call, the setter's guard for an evaluation holds and the centre it asks for would be clamped to nought from under a dial plus RIT, as asked for, not at nought |
| `VfoPlan.RunHearsTheDial` | src/hl2_stream.cpp:1956-2077 | over every run in which no setter does that, the hardware centre plus demodulator shift is dial plus RIT, as 32-bit words, and exactly below their sign bit |
| `VfoPlan.RoomyNeverLoses` | src/hl2_stream.cpp:1956-2077 | a run loses nothing while at every step the filter is within its half of the view, or the view does not fit the passband, and dial plus RIT is above nought and below the 32-bit limit |
| `VfoPlan.ComesUpCoherentIff` | src/hl2_stream.cpp:254-296 | the restored plan agrees with the radio exactly when XIT is off or nought, and is on the dial exactly when RIT is |
| `VfoHistory.ComesUpAsStored` | src/hl2_stream.cpp:254-296 | the restored plan is the stored one, but for the tie of SUB and SPLIT and a focus on B only under SUB |
| `VfoPlan.StrandedShift` | src/hl2_stream.cpp:2012-2031 | a centre clamped to nought reads as click-tune off but leaves the dial as demodulator shift; no tuning and no switching off takes it back |
| `VfoPlan.StrandedExample` | src/hl2_stream.cpp:2012-2031 | a coherent plan that gets there with two RIT edits |
| `BandMemory.OnlyCurrentBand` | src/bandmemory.cpp:127-140 | a step writes at most the RX1 page of the band it ends up on, and tuning writes nothing but the last frequency |
| `BandMemory.AwayKeepsThePage` | src/bandmemory.cpp:22-94 | over any run never on a band that band's RX1 page stays as it was |
| `BandMemory.StepMirrors` | src/bandmemory.cpp:22-94 | every event keeps the current band's page in step with the live settings |
| `BandMemory.ComeUpMirrors` | src/bandmemory.cpp:78-94 | start-up recalls the band of the restored frequency without writing |
| `BandMemory.ComesBackAsLeft` | src/bandmemory.cpp:203-285 | leaving a band, anything elsewhere, and coming back reproduces mode (by the band's sideband), ranges, drive (nought if never stored), gain and tune drive |
| `BandHistory.ComesBackAsAsked` | src/bandmemory.cpp:22-94 | a band with all its settings stored comes back, after anything on it and anything elsewhere, with each setting as last asked for there |
| `BandHistory.SettingsAreHistory` | src/prefs.cpp:411-891 | on one band every live setting is what was last asked for within its limits, each range on the keyed or the unkeyed side |
| `BandHistory.FrequenciesAreHistory` | src/bandmemory.cpp:127-160 | over every run each receiver is where it was last tuned, and each band remembers the last place either of them moved to on it |
| `BandHistory.SecondIsHistory` | src/bandmemory.cpp:152-186 | over every run the second receiver's mode is the last one set or recalled, by the band's sideband, and its band that of its frequency |
| `BandHistory.ChangeSavesTheLook` | src/bandmemory.cpp:188-201 | on a band every change of mode, range or key stores the whole look as it then is |
| `BandHistory.NoNewsNoSave` | src/bandmemory.cpp:22-94 | asking for what is in force already neither changes nor stores anything |
| `BandHistory.NothingStoredOutside` | src/bandmemory.cpp:22-140 | outside all bands nothing is ever stored |
| `BandHistory.ComesUpOutside` | src/bandmemory.cpp:78-94 | coming up outside all bands leaves the settings as they were restored |
| `BandMemory.FoldIsRemembered` | src/bandmemory.cpp:46-52 | a protection fold is saved like the operator's drive: after any events on the band and an excursion, the drive the operator last asked for is back exactly when no fold came since or the last one left that drive |
| `BandMemory.AutoGainStoredIff` | src/bandmemory.cpp:33-40 | a step of the automatic gain leaves the band's stored gain alone exactly outside the bands or when it changes nothing |
| `BandMemory.AutoRunStoredIff` | src/hl2_stream.cpp:727-742 | over any steps of the loop the stored gain is the one from before exactly when none changed anything or the last was back at it |
| `BandMemory.AutoGainRemembered` | src/hl2_stream.cpp:727-742 | after any events on a band, by hand and by the loop, and any excursion: the gain the operator last asked for is back exactly when the loop took no step since or its last was back there; a band with no gain to its name keeps the gain of the band before |
| `GainMemory.LoopOwnsTheBand` | src/hl2_stream.cpp:805-961 | with the loop on, after its bounded number of polls and any excursion a band that had a gain, or whose gain was outside [T-2, T+1], comes back with the loop's gain, which lies in that range |
| `BandMemory.LeftKeyedIff` | src/bandmemory.cpp:188-201 | leaving a band keyed replaces its receive waterfall range by the transmit one, unless they are equal or it was not keyed; the panadapter range is safe |
| `BandMemory.EnteredKeyedIff` | src/prefs.cpp:541-554 | over any events on the entered band that hold the key: the band's stored waterfall range survives the next key-up exactly when the band was not entered keyed or the ranges of the two bands are equal; entered keyed it becomes the previous band's |
| `BandMemory.ReceiversApart` | src/bandmemory.cpp:127-186 | neither receiver's events touch the other's settings or its part of any page |
| `BandMemory.SecondModeRecalled` | src/bandmemory.cpp:162-186 | a mode set on the second receiver is what a recall of its band brings back, by the band's sideband, whatever the first receiver does in between |
| `MemoryCsv.SplitUndoesJoin` | src/memorystore.cpp:171-213 | any row of escaped fields splits into as many fields, each the original less its double quotes |
| `MemoryCsv.ToIntOfPrinted` | src/memorystore.cpp:180-184 | a printed integer reads back |
| `MemoryCsv.ToRealOfTone` | src/memorystore.cpp:185-186 | a printed tone reads back as the nearest tenth |
| `MemoryCsv.RowReadsBack` | src/memorystore.cpp:178-226 | every exportable preset's row parses to an explicit normal form, whatever commas and quotes its name and notes hold |
| `MemoryCsv.NormalIff` | src/memorystore.cpp:218-226 | a preset is its own normal form exactly when names and notes are quote-free, trimmed and short enough, the mode is trimmed and upper case, the bandwidth is not negative and the tone is nought or a multiple of 0.1 Hz |
| `MemoryCsv.ExportReadsBack` | src/memorystore.cpp:167-232 | importing an export of exportable presets gives all normal forms in order with no row skipped |
| `MemoryCsv.RoundTripIff` | src/memorystore.cpp:167-237 | for every bank: it comes back exactly when each preset has a positive frequency, texts without line breaks, a mode without commas or quotes, bandwidth and offset of 32 bits, and is its own normal form |
| `MemoryCsv.SecondTripIff` | src/memorystore.cpp:218-226 | a second trip changes nothing unless the length limit cut a text right after a space |
| `MemoryBank.ColumnsInOrder` | src/memorystore.cpp:171-226 | the columns of a printed row under the header that names them, numbers as they read back |
| `MemoryBank.ShortRows` | src/memorystore.cpp:176-226 | a row cut short after any column imports as the whole row with the missing columns at nought, and is refused only without a mode: files without offset and tone still import |
| `MemoryBank.NegativeReads` | src/memorystore.cpp:216-226 | a leading minus negates what the rest reads as |
| `MemoryBank.WholeHertz` | src/memorystore.cpp:215-216 | a fraction of a hertz is dropped, towards nought |
| `MemoryBank.UpperCase` | src/memorystore.cpp:220-220 | an imported mode has its letters, and nothing else, raised to upper case |
| `MemoryBank.TrimTakesTheEnds` | src/memorystore.cpp:204-218 | trimming takes white space off both ends, all of it and nothing else |
| `MemoryBank.EveryLineCounted` | src/memorystore.cpp:202-228 | every line after the header that is not blank is either a preset or counted as skipped |
| `MemoryBank.FillsToTwenty` | src/memorystore.cpp:229-234 | an import fills the bank, or an emptied one, in the file's order up to twenty and no further |
| `MemoryBank.LoadsFirstTwenty` | src/memorystore.cpp:28-45 | a load keeps the first twenty presets with a frequency, in order, each as it was but for texts cut to 30 and 80 |
| `MemoryBank.CapturedAs` | src/memorystore.cpp:118-136 | live settings are stored under the name given or the one made up for them, with no width and no notes |
| `Backup.CatalogueUnambiguous` | src/backup.cpp:27-109 | no key is claimed by two sections of the catalogue |
| `Backup.OrderDoesNotMatter` | src/backup.cpp:148-155 | a key's section is the same for every order of the catalogue |
| `Backup.TravelsIff` | src/backup.cpp:117-155 | a key has a section exactly when its rig-stripped form is not machine-specific |
| `Backup.StripsTo` | src/backup.cpp:141-146 | a rig-scoped key has the section of its flat form |
| `Backup.RestoresExactly` | src/backup.cpp:176-199 | restore writes exactly the file's non-header, non-machine keys of the chosen sections and frames everything else |
| `Backup.RestoresCompose` | src/backup.cpp:176-199 | restoring S1 then S2 is restoring their union |
| `Backup.RestoresCommute` | src/backup.cpp:176-199 | in either order, and twice is once |
| `Backup.ExportRestoresIff` | src/backup.cpp:158-199 | a full restore of an export into an empty store has a key exactly when the source had it, it is no header and its rig-stripped form is not machine-specific; values agree |
| `Backup.PresentIff` | src/backup.cpp:201-210 | a section is listed exactly when restoring it alone writes something |
| `Backup.ExportedUnrestorableIff` | src/backup.cpp:117-165 | exactly which keys are written into a backup and have no section to come back with: rig-scoped copies of machine-specific keys |
| `BackupScope.ExportedIff` | src/backup.cpp:117-164 | exactly which keys an export writes: all but the machine's own, listed by name and prefix, and the header's, with their values |
| `BackupScope.StaysOnTheMachine` | src/backup.cpp:117-199 | no restore of any file and sections touches one of those keys, under a rig scope or not, nor a header key |
| `BackupScope.TravelsWithItsPrefix` | src/backup.cpp:138-155 | every key that starts with a prefix of the catalogue travels with that section |
| `BackupScope.NoScopeWithoutItsSlash` | src/backup.cpp:141-146 | a rig scope without its closing slash is no scope |
| `BackupScope.LayoutIff` | src/backup.cpp:188-195 | exactly which restored keys report the window layout back |
| `Backup.RigScopedIdentityTravels` | src/backup.cpp:158-165 | an instance: every machine-specific key under a rig's scope is exported and never restored |
| `Backup.PruneKeeps` | src/backup.cpp:244-251 | a prune keeps every manual snapshot and min(keep, total) automatic ones |
| `Backup.PruneDropsOldest` | src/backup.cpp:244-251 | no automatic snapshot kept is older than one removed |
| `Backup.EverySoMany` | src/backup.cpp:268-279 | over any number of launches snapshots taken times the period plus the counter is the number of launches |
| `BackupScope.NeverWithoutPeriod` | src/backup.cpp:268-272 | without a period no launch ever counts or takes a snapshot |
| `AutoScale.KthIsOrderStatistic` | src/autoscale.h:31-38 | the noise value is the k-th order statistic: at most k values below it, more than k up to it |
| `AutoScale.FloorIsTwentyPercent` | src/autoscale.h:31-38 | the floor target is 15 under a value of the spectrum with at most a fifth below it and over a fifth up to it |
| `AutoScale.PeakIsHighest` | src/autoscale.h:43-46 | the peak is one of the values and none is higher |
| `AutoScale.CeilIsHigher` | src/autoscale.h:53-57 | the ceiling target is the higher of 15 over the hold and 50 over the floor target |
| `AutoScale.SeedsAtOnce` | src/autoscale.h:47-62 | the first usable spectrum sets the range at once |
| `AutoScale.HoldIsFadedMaximum` | src/autoscale.h:47-51 | over every history, spectra under four points passed over: the hold is the maximum of all peaks heeded, faded by 0.25 per feed since, and of the faded start |
| `AutoScale.ShortOnesPassedOver` | src/autoscale.h:27-67 | every history feeds like the one without its spectra under four points |
| `AutoScale.SpanNeverCollapses` | src/autoscale.h:53-66 | once seeded the applied span is at least 50 dB |
| `AutoScale.FloorInHull` | src/autoscale.h:59-66 | the applied floor stays within the bounds of the floor targets since seeding |
| `AutoScale.CeilInHull` | src/autoscale.h:59-66 | the applied ceiling stays within the bounds of its targets |
| `AutoScale.ClosesIn` | src/autoscale.h:63-66 | on a steady spectrum the distance to the floor target shrinks by a tenth each feed |
| `Fft.BitReverse` | src/iqstft.cpp:73-82 | the in-place swap loop leaves exactly the shuffled array, nothing lost or duplicated |
| `Fft.Butterflies` | src/iqstft.cpp:88-96 | the inner loop, with its running twiddle, writes one combined block in place and touches nothing else |
| `Fft.Stage` | src/iqstft.cpp:87-97 | the middle loop applies the combination to every block of the array |
| `Fft.Normalise` | src/iqstft.cpp:99-104 | the closing loop of the inverse direction divides every element by N |
| `IqStft.Engine.ProcessFrame` | src/iqstft.cpp:40-65 | window, transform, hook, inverse, overlap-add, carry and erase of one hop, in place |
| `IqStft.Engine.OverlapAdd` | src/iqstft.cpp:51-63 | emits the windowed front half on top of the carry, then carries the windowed back half |
| `IqStft.Engine.Reset` | src/iqstft.cpp:26-29 | an engine after reset is one that was fed nothing |
| `CapturedProfile.Profile.Begin` | src/capturedprofile.cpp:29-40 | the target is the rounded frame count, at least one; accumulator and engine start empty and the old profile is no longer valid |
| `CapturedProfile.Profile.Cancel` | src/capturedprofile.cpp:42-45 | capturing ends, validity and profile stay as they are |
| `CapturedProfile.Profile.Hook` | src/capturedprofile.cpp:17-26 | adds the frame's power to each bin until the target is reached, then changes nothing |
| `NoiseReducer.Reducer.Reset` | src/noisereducer.cpp:61-66 | an empty engine and one window of silence primed |
| `KeyingStream.Stream.RequestMox` | src/hl2_stream.cpp:3360-3407 | lockouts, intent, source and start of a chain, as one step of the sequencer model |
| `KeyingStream.Stream.OnTimeout` | src/hl2_stream.cpp:3449-3658 | a due single-shot timer leaves the queue and runs its step, whichever it is |
| `KeyingStream.Stream.FsmAdvance` | src/hl2_stream.cpp:3409-3465 | picks keydown, keyup or rest from intent and wire; raises attenuator and filter board before the MOX delay |
| `KeyingStream.Stream.FsmKeydownPostMox` | src/hl2_stream.cpp:3467-3514 | cancel restores the front end, otherwise MOX and XmitBit go on and the RF delay starts |
| `KeyingStream.Stream.FsmKeydownSettled` | src/hl2_stream.cpp:3516-3561 | cancel goes to the space delay, otherwise inject, modulator and on-air edge, and a fresh look at the intent after the slots ran |
| `KeyingStream.Stream.FsmKeyupPostSpace` | src/hl2_stream.cpp:3563-3630 | a re-key ends the chain, otherwise the modulator stops |
| `KeyingStream.Stream.FsmKeyupTxOff` | src/hl2_stream.cpp:3632-3660 | inject, MOX and XmitBit go off and the PTT-out delay starts |
| `KeyingStream.Stream.FsmKeyupSettled` | src/hl2_stream.cpp:3662-3696 | a re-key advances at once, otherwise front end, on-air edge and source are restored |
| `KeyingStream.Stream.SetTxInhibit` | src/hl2_stream.cpp:4051-4062 | drops the key only when wire MOX is on |
| `KeyingStream.Stream.SetAttOnTxEnabled` | src/hl2_stream.cpp:4032-4049 | a change acts on the live attenuator while wire MOX is on |
| `KeyingStream.Stream.SetAttOnTxDb` | src/hl2_stream.cpp:4066-4074 | clamps to the attenuator's range and acts at once while enabled and keyed |
| `KeyingStream.Stream.OnVoxPoll` | src/hl2_stream.cpp:3137-3210 | reconciles ownership, then opens or closes the gate, on the same sequencer |
| `KeyingStream.Stream.SetVoxEnabled` | src/hl2_stream.cpp:3222-3238 | switching off releases only a key the gate still owns and that is on the wire |
| `AutoLna.Monitor.OnAutoLnaTick` | src/hl2_stream.cpp:805-961 | one poll: counter, lamp tier, back-off, fast acquire or creep, as one step of the loop model |
| `AutoLna.Monitor.SetAutoLna` | src/hl2_stream.cpp:744-775 | enabling arms the fast acquire and nothing else; disabling leaves the gain |
| `AutoLna.Monitor.NoteBandChange` | src/hl2_stream.h:753-753 | a change of band arms the fast acquire and touches nothing else |
| `TxPower.Chokepoint.ApplyTxPower` | src/hl2_stream.cpp:2516-2592 | the emitted byte and the fine gain of one request; nothing else is written |
| `PowerChain.Transmitter.TickCapServo` | src/hl2_stream.cpp:2376-2504 | the servo's field updates, early returns included, are one tick of the model |
| `PowerChain.Transmitter.RestoreFoldedDriveSafely` | src/hl2_stream.cpp:2506-2514 | hands back the stored slider under the ceiling, once |
| `PowerChain.Transmitter.ApplyDriveLevelNoPersist` | src/hl2_stream.cpp:2751-2764 | moves the applied drive only; the stored slider is not written |
| `PowerChain.Transmitter.SetTxDriveLevel` | src/hl2_stream.cpp:2720-2750 | applied and stored drive, or nothing when the applied drive is unchanged |
| `PowerChain.Transmitter.ArmSwrProtect` | src/hl2_stream.cpp:4735-4762 | the model's key-down: fold undone, lamp out, counters at nought, evaluator on |
| `PowerChain.Transmitter.DisarmSwrProtect` | src/hl2_stream.cpp:4764-4769 | stops the evaluator and keeps lamp and counters |
| `PowerChain.Transmitter.EvalSwrProtect` | src/hl2_stream.cpp:4771-4856 | one timer tick, with its early returns, is one tick of the model on servo and counters |
| `PowerChain.Transmitter.EvalReflected` | src/hl2_stream.cpp:4823-4856 | the second half of the evaluator tick is the model's, early returns included |
| `PowerChain.Transmitter.FoldSwrProtect` | src/hl2_stream.cpp:4858-4898 | the model's fold step after clearing its own counter; at the floor it trips instead |
| `PowerChain.Transmitter.FoldWattsProtect` | src/hl2_stream.cpp:4900-4940 | the model's fold step for the watts cap, same floor and escalation |
| `PowerChain.Transmitter.TripSwrProtect` | src/hl2_stream.cpp:4942-4962 | stops the evaluator, lights the lamp, asks for key-up |
| `PowerChain.Transmitter.SetSwrProtectEnabled` | src/hl2_stream.cpp:4078-4096 | setting plus the live start or stop of the evaluator |
| `PowerChain.Transmitter.SetTuneEnabled` | src/hl2_stream.cpp:2929-2991 | the tune switch: a fold is handed back and the lamp put out when a tune begins on the air |
| `VfoPlan.Tuner.PushEffectiveRxFreq` | src/hl2_stream.cpp:1956-2033 | the one receive-centre writer |
| `VfoPlan.Tuner.PushEffectiveTxFreq` | src/hl2_stream.cpp:1918-1947 | the one transmit-frequency writer, with its 32-bit store |
| `VfoPlan.Tuner.SetRx1FreqHz` | src/hl2_stream.cpp:1857-1890 | the plan and the radio after the call are the model's tune of VFO A; TX follows only outside SPLIT |
| `VfoPlan.Tuner.SetVfoBHz` | src/hl2_stream.cpp:2172-2191 | the model's tune of VFO B: moves TX under SPLIT, RX2 and DDC1 under SUB and SPLIT |
| `VfoPlan.Tuner.SetRx2FreqHz` | src/hl2_stream.cpp:2219-2237 | the model's tune of RX2: drags VFO B and TX along under SUB and SPLIT |
| `VfoPlan.Tuner.SetSplitEnabled` | src/hl2_stream.cpp:2144-2170 | the model's SPLIT step: TX source, focus fallback, RX2 tied to VFO B under SUB |
| `VfoPlan.Tuner.SetSubEnabled` | src/hl2_stream.cpp:2193-2217 | the model's SUB step: DDC1 source, focus fallback, RX2 tied to VFO B under SPLIT |
| `VfoPlan.Tuner.SetFocusedRx` | src/hl2_stream.cpp:2239-2251 | focus, refused on B with neither SUB nor SPLIT |
| `VfoPlan.Tuner.SetCtuneCenterHz` | src/hl2_stream.cpp:2067-2077 | the model's centre step; releasing is the one place that switches the demodulator shift off |
| `VfoPlan.Tuner.SetCtuneEnabled` | src/hl2_stream.cpp:2059-2065 | a no-op when the stored centre already says so, else the centre step at the dial or at nought |
| `VfoPlan.Tuner.SetCtuneDisplaySpanHz` | src/hl2_stream.cpp:2079-2087 | the model's zoom step: a re-evaluation only while engaged |
| `VfoPlan.Tuner.SetCtuneFilterEdges` | src/hl2_stream.cpp:2089-2097 | the model's filter step: a re-evaluation only while engaged |
| `VfoPlan.Tuner.SetRitEnabled` | src/hl2_stream.cpp:2099-2105 | the model's RIT step: only the receive side moves |
| `VfoPlan.Tuner.SetRitOffsetHz` | src/hl2_stream.cpp:2107-2115 | the clamped offset; the receive side moves only while RIT is on |
| `VfoPlan.Tuner.SetXitEnabled` | src/hl2_stream.cpp:2117-2123 | the model's XIT step: only TX moves |
| `VfoPlan.Tuner.SetXitOffsetHz` | src/hl2_stream.cpp:2125-2133 | the clamped offset; TX moves only while XIT is on |
| `BandMemory.Station.ApplyBand` | src/bandmemory.cpp:203-285 | restores through the signalling setters with the guard up: live settings are the recalled ones and nothing is saved |
| `BandMemory.Station.OnFreqChanged` | src/bandmemory.cpp:127-140 | crossing an edge restores under the guard and the only write is the last frequency |
| `BandMemory.Station.SaveCurrent` | src/bandmemory.cpp:188-201 | saves mode, the receive panadapter pair and the waterfall pair in force, unless the guard is up |
| `BandMemory.Station.SetDb` | src/prefs.cpp:411-450 | writes the panadapter pair in force only, and saves unless the guard is up |
| `BandMemory.Station.SetTxDriveLevel` | src/bandmemory.cpp:46-52 | the drive signal saves the current band's drive unless the guard is up or the drive did not change |
| `BandMemory.Station.SetLnaGainDb` | src/hl2_stream.cpp:694-742 | the gain signal saves the current band's gain unless the guard is up |
| `BandMemory.Station.ApplyLnaGainAuto` | src/hl2_stream.cpp:727-742 | so does the automatic loop's own writer |
| `BandMemory.Station.SetMoxActive` | src/prefs.cpp:541-554 | keying swaps the pair in force and sets off a save of it |
| `BandMemory.Station.SetWaterfallDb` | src/prefs.cpp:871-891 | writes the pair in force only, and saves it unless the guard is up |
| `BandMemory.Station.OnRx2FreqChanged` | src/bandmemory.cpp:152-160 | writes only the second receiver's frequency of the band it lands on; nothing is restored |
| `BandMemory.Station.SetModeRx2` | src/bandmemory.cpp:162-167 | saves the second receiver's mode on its own band unless its guard is up |
| `BandMemory.Station.ApplyRx2Band` | src/bandmemory.cpp:169-186 | restores the second receiver's mode and writes nothing |
| `BandMemory.Station.constructor` | src/bandmemory.cpp:78-94 | the constructed station is the model's come-up, guards down |
| `MemoryCsv.SplitRow` | src/memorystore.cpp:206-213 | the character loop equals a left fold with a quote toggle |
| `MemoryCsv.Bank.ExportCsv` | src/memorystore.cpp:167-188 | the text is the header and one row per preset in order, as the row lemmas read it |
| `MemoryCsv.Bank.ReadFile` | src/memorystore.cpp:198-227 | the line loop: header skipped, blank lines passed over, bad rows counted |
| `MemoryCsv.Bank.ImportCsv` | src/memorystore.cpp:190-237 | the bank is the old one or none plus as many read presets as fit in twenty; both counts are exact |
| `MemoryCsv.Bank.Load` | src/memorystore.cpp:28-45 | positive frequencies only, at most twenty, texts cut |
| `MemoryCsv.Bank.AddCurrent` | src/memorystore.cpp:118-136 | appends the live settings under a cut name unless twenty are stored |
| `MemoryCsv.Bank.AddPreset` | src/memorystore.cpp:138-144 | appends exactly when there is room and a positive frequency |
| `MemoryCsv.Bank.SetPreset` | src/memorystore.cpp:146-151 | only the indexed preset changes; a bad index changes nothing |
| `MemoryCsv.Bank.Remove` | src/memorystore.cpp:153-158 | only the indexed preset goes; a bad index changes nothing |
| `MemoryCsv.Bank.ClearAll` | src/memorystore.cpp:160-165 | the bank is empty |
| `Backup.Settings.RestoreFromFile` | src/backup.cpp:176-199 | the key loop ends in exactly the restored store, its count is the number of keys written, its flag says a layout key was among them |
| `Backup.Snapshots.PruneAuto` | src/backup.cpp:244-251 | the loop leaves exactly the pruned list; a negative limit counts as none |
| `Backup.Snapshots.AutoSnapshotOnLaunch` | src/backup.cpp:268-279 | one launch is one step of the counter model, and prunes when it takes a snapshot |
| `AutoScale.AutoScaler.Feed` | src/autoscale.h:27-67 | one feed on the array is one step of the scale model; fewer than four points change nothing |
| `AutoScale.AutoScaler.Largest` | src/autoscale.h:43-46 | the peak is the maximum of the spectrum |

## Left out

- Sockets, worker threads, settings storage, signal delivery, the DSP library and the wire layer: fields, maps and pending sets stand for them.
- Opening and closing a session while keyed, and the raw setters of MOX, inject and TX frequency: the sequencer model is one open session entered in receive.
- A slot that requests MOX more than once inside one on-air edge: each edge carries at most one request.
- IEEE rounding, overflow of counters and of 64-bit intermediates, and infinities: readings are reals or absent.
- The values of cosine, sine and square root in window and twiddle tables, beyond the algebraic facts above.
- The CW keyer thread, the voice detector, the meter formulas, the filter-board table and the TX offset of CW carriers.
- Setters that only clamp, store and signal (delays other than their clamp, leveler, ALC, CW and FM settings), and the reflected-power limit, action and floor setters.
- Changing the maximum-drive limit while running: it is a constant of band memory and of the protection runs.
- The per-band watts capture latch and the calibration that reads it.
- Band indices out of range: the servo model is for a frequency inside some band.
- `selfTestMaxError` and `progress` of the transform and the capture.
- JSON storage, recall and the list view of the memory bank; other number spellings than optional sign, digits and fraction (exponents, a plus sign, surrounding text) in an imported file, and white space and case beyond ASCII.
- MemoryCsv.ExportReadsBack: for banks without line breaks in texts and without commas, quotes or line breaks in modes, which the export does not escape; `MemoryCsv.RoundTripIff` is for every bank.
- A file written and read in the text mode of the same platform: reading drops carriage returns and splits at line feeds.
- CapServo.OvershootBounded: needs a monotone plant and a first reading under the cap, as the code's own comment assumes of the seed.
- SwrProtect.DriveOnlyFolds: without a tune, in which the servo may hand a folded drive back; `FoldFate.MomentDrive` and `FoldFate.DriveAfterFold` say what becomes of the drive there.
- SwrProtect.SustainedReflectionCuts: asks for the key to drop, and so does SwrProtect.SustainedPowerCuts; what the sequencer makes of it is `KeyedProtection.ReflectionReleasesKey`, `PowerReleasesKey` and `CutEndsCarrierIff`.
- NoiseReducer.Reducer.Process: an installed modifier is a function of the spectrum; the mask the source carries from frame to frame inside it is the function `NoiseReducer.MaskAfter` of all frames so far.
- The clamps of the reducer's own setters.
- FoldFate.KeyDownAfterFold: for sessions without a further fold or a change of the slider after the one in question.
- AutoLna.FindsTheEdge: for polls at a pace of at least three to a hold interval; `AutoLna.SlowPollsOvershoot` shows that no slower pace will do.
- Ctune.SettlesIff: for the receiver's rates, up to 384 kHz; at a faster one the centre may hold and the view hunt (`Ctune.FasterRateHunts`), and `Ctune.SettlesIffThree` is exact for every rate.
- MoxSequencer.AttenuationRestored: for sessions that leave the attenuator's settings alone; `MoxSequencer.AttenuationAtRest` is for all.
- VoxGate.KeptIff: timers on time and nobody else keying; what others do to a gate's key is `VoxGate.OwnKeyOnly`.
- VfoPlan.RunHearsTheDial: up to the wrap of the 32-bit dial, and exactly below its sign bit.
- MoxTiming.SpacingKept: no retune while keyed and no attenuator edits inside a chain, which act on the front end at once.
- Snapshot files on disk, their names and time stamps; a failing export or restore file.
- Data tables and look-ups (bands, plans, countries, tones), discovery, macros, the cluster client and all of the user interface.
