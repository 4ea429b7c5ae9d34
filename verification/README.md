# A verified model of the audio engine and its plumbing

The repository is an Android audio effect with desktop plugins. This project models the parts of it
whose correctness rests on an argument that no single function body shows, and proves those arguments
with Dafny 4.11. `dafny verify dfyconfig.toml` checks everything.

* **Multiband distortion** (`MultibandSettings`, `DialLaws`, `Shapers`, `ShaperLaws`, `BandList`,
  `DelayLine`, `MultibandSpec`, `MultibandStages`, `ChorusLaws`, `ChorusVoices`, `MultibandChain`,
  `MultibandBounds`, `MultibandEngagement`, `MultibandRuns`, `Multiband`, `MultibandDist`).
  The block loop is written in place, over two channel states with their filter memories, oversampling
  tools and chorus rings, and proved to compute, sample by sample, a specification in which the ring is an
  unbounded delay line. About that specification: it is a chain of stages, each over a whole stream;
  bounded output at every rate and for both routings, independence of the channels, indifference to block
  sizes, and what each stage does to a stream. New bands are followed store by store: at no moment does
  the audio thread see a half-built set.
* **Filters** (`Biquads`, `Oversampler`, `Stability`, `Crossover`, `DynamicBass`). Two arrangements of a second-order
  section against one difference equation, in cascades of any length; eight sections with shared histories
  against eight independent ones; zero-stuffing and decimation over streams; a finite gain over all
  streams for sections with their poles inside the unit circle; reconstruction by the ten-band
  crossover and by the pole ladder.
* **Fourier transform** (`BitReversal`, `Fft`, with `Trigonometry`). The in-place radix-2 program against
  the plain discrete transform, and both programs that compute the bit reversal.
* **Futex event flag** (`EventFlag`). A state machine with one step per atomic operation and per system
  call, for any number of threads; no lost wake-up, and conservation of every bit.
* **Allocation table** (`AllocationTable`) and **effect service** (`EffectWorker`). Open addressing with
  tombstones against a map; the command state machine and the worker loop against the processed stream.

Samples are `real`. `tanh`, `exp`, `cos`, `sin`, `powf` are function values known only through laws
(range, sign, monotonicity; for the two circular functions the addition formulas, parity and the value
at pi), so every theorem that mentions them holds for any functions with these laws. A futex mask is the
set of its bit positions. The struct-of-arrays layout of the multiband state (`z1[2][24]`, `b0[24]`, ...) is
an object per channel and a record per section here; the order of independent stores in `Enable` differs.
A blend `x * (1 - m) + y * m` is the function `Mix`, a product of a sample and a gain the function `Gained`.

Five findings, each proved as an exact condition:

* The comment over the shapers says the stage cannot run away whatever the band filter hands it. That holds
  exactly when the shaper is fully faded in, from ten percent drive, with the twofold oversampling used below
  96 kHz as without it, from any filter state and for any filters that let something through
  (`MultibandEngagement.StageBoundedIffEngaged`, `MultibandEngagement.DampedStageBoundedIffEngaged`,
  `MultibandSettings.EngagedFromTenPercent`).
* A ladder of the dynamic bass stays within a multiple of its input exactly when neither corner is negative or
  reaches 2 fs / pi. At 8 kHz, the lowest rate the effect accepts, its own default upper corner of 6200 Hz is
  beyond that (`DynamicBass.CornersSteadyIff`, `DynamicBass.DefaultsUnsteadyAtLowestRate`). Over the reals this
  concerns the ladder's state only: what the poles at the first ladder's upper corner hold is added to one band
  and taken from the next, so that corner does not reach the output (`DynamicBass.WideStreamBounded`).
* A futex deadline is normalised whenever the call is made exactly for timeouts that are not negative or are
  whole seconds; one nanosecond below zero gives a negative nanosecond field
  (`EventFlag.DeadlineNormalisedIff`, `EventFlag.NegativeTimeoutNotNormalised`).
* A read of the input queue that ends inside a frame lets its last sample through unprocessed and shifts the
  channels of all that follows: the cuts are inaudible exactly when every read but the last ends on a frame
  (`EffectWorker.CutsInaudibleIffWholeFrames`).
* An opened effect has queues throughout a run of commands exactly when no START comes before its OPEN; after
  one that does, every OPEN is taken for a repeated one until a CLOSE
  (`EffectWorker.QueuesKeptIffStartsAfterOpen`, `EffectWorker.EarlyStartLastsUntilClose`).

## Model

| member | source | states |
|---|---|---|
| MultibandDist.Effect.Process | vst/src/engine/multibandDist.c:431-560 | the in-place block loop gives both buffers the specified outputs and leaves the specified state, the same rig and the same objects, touching nothing past the block; null buffers or a transparent setting leave everything alone |
| MultibandDist.Effect.ProcessInBlocks | vst/src/engine/multibandDist.c:431-560 | a buffer handed over in successive calls, cut anywhere, ends with the outputs and the state of one call on all of it |
| Multiband.ChannelState.Step | vst/src/engine/multibandDist.c:448-539 | one sample of one channel, over arrays, tools and ring, is one step of the specification with the unbounded delay line |
| MultibandSpec.ChannelsIndependent | vst/src/engine/multibandDist.c:443-560 | two runs of the specification that agree on one channel's input and state agree on that channel's output, whatever the other channel holds |
| MultibandDist.CallsIndependent | vst/src/engine/multibandDist.c:440-560 | the same for two calls of the program on whole buffers, output and state, though both channels share one scratch buffer |
| MultibandSpec.BlocksDoNotMatter | vst/src/engine/multibandDist.c:431-560 | of the specification, every list of blocks gives the output and the final state of one call on all of them |
| MultibandChain.LoopIsChain | vst/src/engine/multibandDist.c:443-560 | what the loop over samples and channels puts out is, on either side, what a chain of stages makes of that side's whole stream, every stage from its own memory and the stream before it |
| MultibandChain.ChannelIsChain | vst/src/engine/multibandDist.c:448-539 | after any number of samples each part of a channel's memory is what its own stage has made of its own stream |
| MultibandChain.DistortionIsTwoCascades | vst/src/engine/multibandDist.c:466-479 | oversampled, the distortion of a stream is two whole cascades at the higher rate with the shaper on every sample between them, of which the last sample of every block is kept; without, the shaper alone |
| MultibandBounds.StepBounded | vst/src/engine/multibandDist.c:448-539 | while the distortion stage, whatever the band filter hands it, stays half a bit step below a level, the joint bound on hold, DC blocker, tilt pole and feedback ring is kept, and the output exceeds the input by at most 160 levels, with split routing also by what the band filter took out |
| MultibandRuns.OutputStaysBounded | vst/src/engine/multibandDist.c:27-30 | over every run from a fresh start, with settings, routing, rate and bands changing at will, cleared section states included, inputs within X give outputs within X plus a constant while the shaper is engaged; split routing adds the band signal; where oversampling is used its filters have to be damped |
| MultibandRuns.DownRemembers | vst/src/engine/multibandDist.c:469-473 | however the run changes, the downsampling filter of a channel has been fed one uninterrupted stream of the blocks it was given |
| MultibandRuns.StereoOutputBounded | vst/src/engine/multibandDist.c:443-560 | the same for both channels of one uninterrupted stream |
| MultibandDist.ProcessedBounded | vst/src/engine/multibandDist.c:431-560 | the same bound for what a call writes into the buffers of a freshly enabled effect |
| Stability.DampedIsStable | vst/src/engine/digitalFilters.c:61-96 | eight sections with coefficients inside the stability triangle make no stream larger than a fixed multiple of its bound |
| Stability.TwoCoastsLose | vst/src/engine/digitalFilters.c:61-96 | over any two samples without input a damped section loses a fixed share of the energy of its last two outputs |
| MultibandEngagement.StageBoundedIffEngaged | vst/src/engine/multibandDist.c:466-479 | with twofold oversampling and without, from any filter state: the distortion stage has a bound for all inputs if and only if the blend is complete or the filters let nothing through |
| MultibandEngagement.DampedStageBoundedIffEngaged | vst/src/engine/multibandDist.c:466-479 | with stable filters of nonzero gain, if and only if the blend is complete |
| MultibandEngagement.StageIsStraight | vst/src/engine/multibandDist.c:466-479 | apart from a bounded rest the stage is a straight line in its input, of slope 1 minus the blend, oversampled times four gains squared times what one sample leaves in the filter for the next |
| MultibandBounds.BlockedBounded | vst/src/engine/multibandDist.c:497-500 | what the DC blocker subtracts is an average of its last input and what it subtracted before, so its output is at most twice the bound of its inputs, however slow its pole |
| MultibandStages.HoldCadence | vst/src/engine/multibandDist.c:485-491 | no time is lost between refreshes of the held sample: their number times the hold length plus the phase is the elapsed time, also after the hold has been shortened below the phase |
| MultibandStages.HoldsLastRefresh | vst/src/engine/multibandDist.c:483-492 | what leaves the hold is the quantised input of the last refresh, this sample's if it is one |
| MultibandStages.BandIsCascade | vst/src/engine/multibandDist.c:452-456 | the selected band of a stream is what the cascade of the sections in use makes of it, and without sections the whole signal |
| MultibandStages.DriveTurnsAboutBias | vst/src/engine/multibandDist.c:462-465 | the drive turns about the point where the band cancels the bias |
| MultibandStages.ShaperFadesIn | vst/src/engine/multibandDist.c:475-479 | what the shaper changes about a sample is faded in by the blend |
| MultibandStages.TiltOfConstant | vst/src/engine/multibandDist.c:502-506 | a constant comes out at one minus the tilt of its level, up to twice the tilt of what the pole has not caught up with, which shrinks by the same factor every sample |
| MultibandStages.BlockerRemovesConstants | vst/src/engine/multibandDist.c:497-500 | of a constant input the blocker leaves a rest that is the starting rest times a power of its pole and does not depend on the constant |
| MultibandStages.BlockerSettles | vst/src/engine/multibandDist.c:497-500 | for every tolerance there is a time after which less than that is left of any constant |
| MultibandStages.QuantisedIsNearest | vst/src/engine/multibandDist.c:489-490 | bit reduction gives the nearest multiple of the step and leaves multiples alone |
| MultibandStages.TapReads | vst/src/engine/multibandDist.c:520-526 | a whole delay reads exactly that push, any other lies between two neighbouring pushes |
| DelayLine.TapOfRamp | vst/src/engine/multibandDist.c:519-526 | where the pushes lie on a ramp, the tap lies on it too, at now minus delay |
| ChorusLaws.PhaseCounts | vst/src/engine/multibandDist.c:555-556 | the modulation phase is the number of samples times the increment, less whole turns |
| ChorusLaws.LfoLaw | vst/src/engine/multibandDist.c:516-518 | the sweep starts from nothing, is full half a turn later, and its halves mirror each other |
| ChorusLaws.VoicesSpread | vst/src/engine/multibandDist.c:512-519 | the voices are spread evenly over the turn, and whole turns do not matter |
| ChorusLaws.DelaySweep | vst/src/engine/multibandDist.c:516-519 | the delay runs from the base to base and depth together |
| ChorusVoices.VoicesBalance | vst/src/engine/multibandDist.c:512-528 | of a ramp two or more voices together read what lies at the base and half the depth, at every moment: their sweeps cancel; of the cosine this takes that a share of the turn is no whole turn to it |
| ChorusLaws.CombOfLine | vst/src/engine/multibandDist.c:509-532 | with the delay standing still every push is the input plus the fed back push of that many samples before, which is what the mix hears |
| ChorusLaws.EchoesOfClick | vst/src/engine/multibandDist.c:509-532 | a click comes back at every multiple of the delay, each time smaller by the feedback, and nowhere else |
| ChorusLaws.RightIsLeftAhead | vst/src/engine/multibandDist.c:446-511 | the right channel puts out what the left would from the same state and stream with its modulation ahead by the spread |
| MultibandStages.TransparentIff | vst/src/engine/multibandDist.c:416-426 | the stage is skipped exactly when, in terms of the dials, nothing could colour the band |
| MultibandSpec.SplitNull | vst/src/engine/multibandDist.c:13-17 | with split routing and any of the effect mixed in, the output is the input exactly when the stages after the filter give the band back unchanged, whatever the filter did |
| MultibandSpec.ParallelNull | vst/src/engine/multibandDist.c:538-539 | with parallel routing and any of the effect mixed in, the output is the input exactly when the stages add nothing |
| MultibandSpec.ChangeIsMixedIn | vst/src/engine/multibandDist.c:536-539 | the output differs from the input by the mixed-in share of what is put back, less what split routing took out |
| MultibandSpec.ParallelBandOff | vst/src/engine/multibandDist.c:533-558 | with parallel routing and the band turned down whole streams pass through untouched |
| MultibandSettings.ConfigureInRange | vst/src/engine/multibandDist.c:313-427 | for every dial position and reported rate all stored values are in range, and base delay plus modulation stays inside the ring |
| DialLaws.LevelDials | vst/src/engine/multibandDist.c:333-366 | drive, blend, bias, shape, tilt, band gain and mix each spread the range of their dial evenly over the range of their value, drive in powers of ten up to 1.5 |
| DialLaws.CrushDials | vst/src/engine/multibandDist.c:352-361 | the bit step is the reciprocal of two to the bits less one, and the hold runs from 1 to 32 samples |
| DialLaws.ChorusDials | vst/src/engine/multibandDist.c:390-408 | feedback, spread, mix and voices |
| DialLaws.RateDials | vst/src/engine/multibandDist.c:319-414 | what depends on the rate: the modulation in turns per second, the blocker, the tilt's corner at 900 Hz, and a base of twelve milliseconds whose sweep the ring cuts from the depth first |
| DialLaws.Choices | vst/src/engine/multibandDist.c:326-328 | only 1 asks for parallel routing, and the models come in the order of their list |
| MultibandSettings.EngagedFromTenPercent | vst/src/engine/multibandDist.c:333-342 | the shaper is fully engaged exactly from ten percent drive |
| MultibandSpec.DelayServable | vst/src/engine/multibandDist.c:516-519 | at every moment of the modulation the delay is one the ring can serve |
| DelayLine.RingTap | vst/src/engine/multibandDist.c:520-526 | a tap read from the ring is the tap of the unbounded delay line |
| DelayLine.SlotsOfDelay | vst/src/engine/multibandDist.c:379-388 | the two slots read hold neighbouring pushes that have happened and have not been overwritten |
| DelayLine.PushKeepsHolding | vst/src/engine/multibandDist.c:529-530 | a push keeps the ring holding the last 8192 pushes |
| DelayLine.ReadTap | vst/src/engine/multibandDist.c:520-526 | the loop adds the length once if the delay reaches behind slot zero and not at all otherwise, and the read gives the tap of the unbounded line |
| MultibandDist.Effect.SetBands | vst/src/engine/multibandDist.c:244-311 | the cascade is the first 24 sections of the expansions and slots in use keep their state; after every prefix of its stores the count is the old one or the set is complete and the slots new to it are silent |
| BandList.PublishedLast | vst/src/engine/multibandDist.c:305-310 | stores that leave the count and the states in use alone, followed by the count, never show a half-built set |
| BandList.BandSlots.LoadSections | vst/src/engine/multibandDist.c:256-304 | the loops load exactly the first 24 of the concatenated expansions, and every store they make is one of a coefficient |
| BandList.BandSlots.SilenceFrom | vst/src/engine/multibandDist.c:305-307 | exactly the slots from the old count to the new one are cleared in both channels, by stores to those slots only |
| BandList.StagesRound | vst/src/engine/multibandDist.c:273-278 | a cutoff is built from the number of sections nearest to a twelfth of its slope, clamped, slopes under 6 counting as 48 |
| BandList.CutoffSections | vst/src/engine/multibandDist.c:262-294 | every section of a cutoff has its band's kind and frequency and no gain, and at the neutral Q the Q of its place in the Butterworth cascade |
| BandList.CutoffResonance | vst/src/engine/multibandDist.c:286-290 | bands that differ in their Q only agree on all sections but the last, whose Q is in proportion |
| BandList.SingleSection | vst/src/engine/multibandDist.c:296-302 | any other band is one section with its own four numbers |
| BandList.KindOf | vst/src/engine/multibandDist.c:260-262 | the kind is the number without its fraction, and 3 and 4 are the cutoffs |
| BandList.LaterBandsOnlyAppend | vst/src/engine/multibandDist.c:257-304 | bands added at the end never change the sections of the earlier ones |
| MultibandDist.Effect.Enable | vst/src/engine/multibandDist.c:564-614 | a first enabling that gets its rings starts every stage from silence, the oversampling filters too where they are used, with the right oversampling; failing to get them leaves the effect off |
| MultibandDist.Effect.Disable | vst/src/engine/multibandDist.c:616-627 | the rings are gone and the effect is off, and it can be enabled again |
| Shapers.ShapeBounded | vst/src/engine/multibandDist.c:31-153 | all eight shapers are bounded for every input and every character setting |
| ShaperLaws.SoftLaw | vst/src/engine/multibandDist.c:35-50 | soft and crush: the tangent of the driven input over that of full scale, the gain running from 0.6 to 4.6 |
| ShaperLaws.HardLaw | vst/src/engine/multibandDist.c:52-70 | hard: the input itself exactly up to 0.98 less 0.4 of the dial, the rail exactly from 1.02 plus as much |
| ShaperLaws.TubeLaw | vst/src/engine/multibandDist.c:72-77 | tube: the reciprocals of output and input differ by a lean of 0.6 to 1.1 above zero and 0.4 to 0.8 below |
| ShaperLaws.OverdriveLaw | vst/src/engine/multibandDist.c:79-102 | overdrive: the gain runs from 0.6 to 2, doubled up to a third, railed from two thirds, short of the rail by a square between |
| ShaperLaws.FoldLaw | vst/src/engine/multibandDist.c:104-121 | fold: the iterated reflection of the input times one to four |
| ShaperLaws.FuzzLaw | vst/src/engine/multibandDist.c:123-134 | fuzz: the distance to the rail decays at a rate of 2 to 10, and the lower half is the mirror image at 0.7 to 0.9 |
| ShaperLaws.RectifyLaw | vst/src/engine/multibandDist.c:136-150 | rectify: the odd part of the curve is the tangent faded out, the even part its rectification faded in |
| Shapers.ReducedIsReflected | vst/src/engine/multibandDist.c:104-121 | the floor-based fold equals the iterated reflection for every input, which terminates |
| Shapers.FoldOdd | vst/src/engine/multibandDist.c:104-121 | the wavefolder is odd |
| Shapers.FoldLipschitz | vst/src/engine/multibandDist.c:115-120 | folding stretches no difference by more than the number of folds |
| Shapers.HardIsJoined | vst/src/engine/multibandDist.c:52-70 | the three branches of the hard clipper are one curve made of a line, a bend and a rail |
| Shapers.BendIsTangent | vst/src/engine/multibandDist.c:54-59 | the bend leaves the line and reaches the rail tangentially: value and slope agree at both joins |
| Shapers.HardRises | vst/src/engine/multibandDist.c:52-70 | the hard clipper is monotone and nowhere steeper than one, across all joins |
| Shapers.OverdriveIsJoined | vst/src/engine/multibandDist.c:79-102 | the overdrive's three regions are one such curve, so they meet without a step |
| Shapers.OverdriveRises | vst/src/engine/multibandDist.c:79-102 | the overdrive is monotone with slope at most twice its input gain |
| Shapers.TubeRises | vst/src/engine/multibandDist.c:72-77 | the tube curve is monotone and nowhere steeper than one, through zero |
| Shapers.TubeBounded | vst/src/engine/multibandDist.c:72-77 | the tube curve stays strictly between its two asymptotes |
| Shapers.SoftNormalised | vst/src/engine/multibandDist.c:39-49 | full scale in reaches full scale whatever the character setting |
| Biquads.AllFormsAgree | vst/src/engine/multibandDist.c:232-241 | from silence the transposed and the direct arrangement give, for every stream, the one solution of the difference equation |
| Biquads.CascadeSolvesChain | vst/src/engine/multibandDist.c:454-456 | a cascade of any length and any mix of arrangements is the chain of its difference equations and nothing else |
| Biquads.TapIsSectionOfTap | vst/src/engine/multibandDist.c:454-456 | running all sections sample by sample is running them one after the other, stream by stream |
| Biquads.TransposedSection.Run | tools/binaural_harness.c:190-196 | one sample of the transposed section in place |
| Biquads.RunDirect | vst/src/BassExciterDsp.h:86-92 | one sample of the direct section over its four-element history |
| Oversampler.IirSos.Process | vst/src/engine/digitalFilters.c:61-96 | the shared-history cascade acts as eight independent sections with their own histories |
| Oversampler.IirSos.ProcessInterpolation | vst/src/engine/digitalFilters.c:97-113 | the interpolation variant is the general one fed zero |
| Oversampler.UpStreamIsCascade | vst/src/engine/digitalFilters.c:205-211 | upsampling any stream from any state is one cascade over the scaled, zero-stuffed stream, times the gain, and that stream is given index by index |
| Oversampler.DownStreamDecimates | vst/src/engine/digitalFilters.c:213-227 | downsampling keeps every factor-th sample of one cascade over the whole stream, times the gain |
| Oversampler.SamplerateTool.StepUp | vst/src/engine/digitalFilters.c:205-211 | the in-place block for one input sample, and the state after it |
| Oversampler.SamplerateTool.StepDown | vst/src/engine/digitalFilters.c:213-227 | the one sample kept of a block, and the state after it |
| Crossover.SectionSplits | vst/src/engine/digitalFilters.c:27-34 | the two halves miss the input by the stored error, which every sample multiplies by -a |
| Crossover.BandsSumToInput | vst/src/engine/digitalFilters.c:48-60 | from any state the bands add up to the input plus each section's starting error times a power of -a, at every sample of every stream |
| Crossover.PerfectReconstruction | vst/src/engine/digitalFilters.c:48-60 | from rest the bands add up to the input for ever |
| Crossover.ErrorVanishes | vst/src/engine/digitalFilters.c:7-60 | with positive alph, from any state: for every tolerance there is a time after which the bands of every stream miss the input by less |
| Crossover.Butter | vst/src/engine/digitalFilters.c:7-14 | the coefficients are complementary, and a positive alph puts them strictly inside (-1, 1) |
| Crossover.CornerIsEven | vst/src/engine/digitalFilters.c:7-14 | at the corner, where alph is the tangent of half the angle, both halves are as loud |
| Crossover.ConstantGoesLow | vst/src/engine/digitalFilters.c:27-34 | of a constant the low half keeps all and the high half nothing, both approached by the factor -a every sample |
| Crossover.BandsOfClick | vst/src/engine/digitalFilters.c:48-60 | of a click each section keeps its low share of what those before it passed on |
| Crossover.TenBands.Process | vst/src/engine/digitalFilters.c:48-60 | the nine in-place sections give the ten bands |
| DynamicBass.WideReconstructs | vst/src/DynamicBassDsp.h:52-60 | with unit side gains the wide path is the input three samples ago, less its low band, plus the amplified low band of three samples ago |
| DynamicBass.SteadyIffDamped | vst/src/DynamicBassDsp.h:93-108 | a ladder stays within a multiple of the bound of its input, for all streams, if and only if both angles are in [0, 2) |
| DynamicBass.ModerateIsSteady | vst/src/DynamicBassDsp.h:93-108 | with both angles in [0, 1] every ladder state stays within the input's own bound |
| DynamicBass.CornersSteadyIff | vst/src/DynamicBassDsp.h:87-91 | the exact range of `SteadyIffDamped` in terms of the corners and the sample rate |
| DynamicBass.DefaultsUnsteadyAtLowestRate | vst/src/DynamicBassDsp.h:87-91 | at 8 kHz the default corners admit no bound |
| DynamicBass.WideStreamBounded | vst/src/DynamicBassDsp.h:50-60 | with damped poles the output of the wide path stays within a fixed multiple of the bound of its input; the upper corner of the first ladder does not matter |
| DynamicBass.LaddersRemember | vst/src/DynamicBassDsp.h:93-96 | after any number of samples both ladders remember exactly their last three inputs |
| DynamicBass.LadderIsPoles | vst/src/DynamicBassDsp.h:93-108 | a ladder is eight one-pole filters of the stream, four in a row at each angle |
| DynamicBass.WideSpelledOut | vst/src/DynamicBassDsp.h:50-60 | for any gains, the wide path in terms of four poles of the input and of the amplified low band |
| DynamicBass.MonoAddsLowPass | vst/src/DynamicBassDsp.h:41-49 | from silence the mono branch adds to both channels the solution of the low-pass equation for their sum, so their difference stays |
| DynamicBass.DynamicBass.ProcessBlock | vst/src/DynamicBassDsp.h:39-62 | each branch overwrites both channels with its output streams, leaves its filters after the whole block and the other branch's alone; the mono branch adds one low-passed sum to both |
| Fft.Transform | tools/reverb_harness.c:166-189 | for every power-of-two length and input, index k of the in-place result has the real part sum of re cos + im sin and the imaginary part sum of im cos - re sin at the angles 2 pi j k / n |
| Fft.DecimationInTime | tools/reverb_harness.c:176-188 | both halves of a transform from the transforms of the even and odd samples |
| Fft.PassAdvancesStage | tools/reverb_harness.c:176-188 | a pass turns all block transforms of half its span into block transforms of its span |
| Fft.BitReversalIsStageZero | tools/reverb_harness.c:169-175 | bit reversal sets up the block transforms of length one |
| Fft.TwiddlePeriod | tools/reverb_harness.c:178-182 | the twiddle factor has period len and changes sign after half of it |
| BitReversal.BitReverse | tools/reverb_harness.c:169-175 | the guarded swaps realise exactly the bit-reversal permutation |
| BitReversal.CarryAdvances | tools/reverb_harness.c:171-173 | the carry update takes the reversal of i - 1 to the reversal of i |
| BitReversal.RevIsInvolution | tools/reverb_harness.c:169-175 | the permutation is its own inverse |
| BitReversal.FillTable | tools/binaural_harness.c:220-224 | the shift-loop table is the same permutation |
| EventFlag.NoLostWakeupInEveryRun | magisk/aidl/fmq/EventFlag.cpp:73-155 | in every interleaving, a set bit some sleeper waits for belongs to a waker that has yet to make its system call |
| EventFlag.NobodySleepsOnASetBit | magisk/aidl/fmq/EventFlag.cpp:73-155 | once no waker is mid-call, nobody sleeps on a set bit |
| EventFlag.BitsAreConserved | magisk/aidl/fmq/EventFlag.cpp:82-195 | over every run and every exit, other errors of the waiting call included, each bit's initial value and raises equal its returns, holders and present value |
| EventFlag.BalanceInEveryRun | magisk/aidl/fmq/EventFlag.cpp:102-195 | over every run a wait reports success exactly when it hands over bits, only bits it asked for, and the balance of every bit is kept |
| EventFlag.StatusesInEveryRun | magisk/aidl/fmq/EventFlag.cpp:102-195 | over every run a call with retry never reports a changed word or a spurious wake, only a call with a timeout reports one, and a call is refused exactly for an empty mask or a null result |
| EventFlag.OneAttemptWithoutRetry | magisk/aidl/fmq/EventFlag.cpp:166-168 | over every run a call without retry makes no second attempt |
| EventFlag.FirstAnswerStands | magisk/aidl/fmq/EventFlag.cpp:166-195 | without retry, or with an answer that is final, the caller gets the status and the bits of the attempt |
| EventFlag.NoTroubleOutOfNothing | magisk/aidl/fmq/EventFlag.cpp:139-195 | over every run in which no timeout passes and no call fails, none is reported |
| EventFlag.UndisturbedWaitSleeps | magisk/aidl/fmq/EventFlag.cpp:111-138 | a waiter whose bits are clear and that nobody disturbs between its two operations goes to sleep |
| EventFlag.OneCallPerRaise | magisk/aidl/fmq/EventFlag.cpp:73-95 | over every run the system calls of wakers, made and to come, are as many as the wakes that set a bit that was not set |
| EventFlag.StatusTellsCause | magisk/aidl/fmq/EventFlag.cpp:106-155 | what the end of an attempt is called tells what ended it, in both directions |
| EventFlag.WakeSetsItsBits | magisk/aidl/fmq/EventFlag.cpp:82 | a wake sets all of its bits and no others |
| EventFlag.SleepsThroughOtherWakes | magisk/aidl/fmq/EventFlag.cpp:73-95 | a sleeper that nobody calls and nothing else reaches sleeps through any run of wakes for other bits |
| EventFlag.AddNanoseconds | magisk/aidl/fmq/EventFlag.cpp:224-235 | the deadline is the clock plus the timeout, and normalised for timeouts that are not negative |
| EventFlag.DeadlineNormalisedIff | magisk/aidl/fmq/EventFlag.cpp:224-235 | the deadline is normalised for every clock reading if and only if the timeout is not negative or is a whole number of seconds |
| EventFlag.NegativeTimeoutNotNormalised | magisk/aidl/fmq/EventFlag.cpp:224-235 | a timeout of -1 at five seconds gives a nanosecond field of -1 |
| EventFlag.Wait | magisk/aidl/fmq/EventFlag.cpp:162-195 | the retry loop ends at the first answer that is final or comes after the budget is spent; every attempt is given the budget less the time since the start, and a positive budget stays positive |
| AllocationTable.Table.Add | tools/hal_harness.cpp:38-44 | adding a fresh pointer extends the map, and the live total is the sum of its sizes |
| AllocationTable.Table.Delete | tools/hal_harness.cpp:45-54 | deleting removes the pointer if present and changes nothing otherwise |
| AllocationTable.ProbeComplete | tools/hal_harness.cpp:49-53 | stopping at an empty slot or after every slot means the pointer is not in the table |
| AllocationTable.FreeSlotIffNotFull | tools/hal_harness.cpp:42 | the search for a slot can stop exactly when fewer pointers are live than there are slots |
| AllocationTable.SlotsFollowCells | tools/hal_harness.cpp:37 | two pointers share a home slot only within a cell of sixteen bytes or 32 MB and more apart, and the next cell has the next slot |
| EffectWorker.StateIsWorkerInEveryRun | magisk/aidl/src/EffectImpl.h:128-189 | over every run of commands the state is PROCESSING exactly when one worker is alive |
| EffectWorker.ProcessingIffStarted | magisk/aidl/src/EffectImpl.h:112-189 | after every run of commands the effect is processing if and only if its last START has had no STOP, RESET or CLOSE after it |
| EffectWorker.OpenedIff | magisk/aidl/src/EffectImpl.h:79-189 | after every run of commands the effect has left its initial state if and only if an OPEN with valid queues or a START has had no CLOSE after it |
| EffectWorker.QueuesKeptIffStartsAfterOpen | magisk/aidl/src/EffectImpl.h:79-189 | over a run of commands, an opened effect has queues at every moment if and only if no START in it precedes its OPEN |
| EffectWorker.EarlyStartLastsUntilClose | magisk/aidl/src/EffectImpl.h:79-189 | after a START that came too early no sequence of commands but one with a CLOSE makes queues |
| EffectWorker.EmittedIsProcessedStream | magisk/aidl/src/EffectImpl.h:196-231 | when whole frames are read, the output is the processed input stream in order with only failed writes missing, and the engine ends where one run over the stream takes it |
| EffectWorker.OutsAreFrames | magisk/aidl/src/EffectImpl.h:205-223 | a chunk becomes what taking it apart frame by frame, left sample first, makes of it, each frame handing its engine state to the next and an odd last sample left alone |
| EffectWorker.CutsInaudibleIffWholeFrames | magisk/aidl/src/EffectImpl.h:199-223 | with nothing dropped, the output is the processed stream for every engine and input exactly when every read but the last ends on a frame |
| EffectWorker.ReportsMatch | magisk/aidl/src/EffectImpl.h:225-229 | when every report finds room, the reported totals are what was read and written, and each report tells of its own round whether its chunk was |
| EffectWorker.Worker.Run | magisk/aidl/src/EffectImpl.h:196-231 | the loop over rounds, with its in-place blocks of 4096 frames, emits and reports what the stream specification says and leaves the engine where it says |
| EffectWorker.Lifecycle.Perform | magisk/aidl/src/EffectImpl.h:79-144 | each command moves the members as the state machine does |

## Left out

- Float rounding, infinities and NaN: samples are reals, so the non-finite guard at the end of the multiband loop never fires and is not written.
- The numeric values of filter designs (`mbdBiquadCoeffs`, `ButterworthCalcCoefficients`, `setLowpass`): coefficients, and the Q of each section of a Butterworth cascade, are parameters.
- MultibandRuns.OutputStaysBounded: the constant is not computed, and the band signal that split routing takes out is part of the bound; both depend on filter designs whose numbers are not modelled, and that the designs are damped is assumed.
- MultibandDist.Effect.SetBands: says nothing about what a concurrent reader hears of slots already in use, whose coefficients the source overwrites in place; stores reach the reader in program order. The record of stores is ghost: it lists those made through the writers of `BandSlots`, and a store past them that is undone again would not show.
- MultibandDist.Effect.Process: requires settings in range; on zeroed memory, before the first `SetParam`, the source would divide by zero voices.
- The lock around enabling and disabling, and racing calls of the two.
- EventFlag.NoLostWakeupInEveryRun: the flag is a state machine over values, not an object with an in-place word; a failing FUTEX_WAKE_BITSET and more than 2^31 - 1 sleepers are not modelled.
- EventFlag.Wait: takes the environment's answers as a finite sequence, so a wait that never ends is one that is still waiting after all of them.
- EffectWorker.Worker.Run: the engine is a function of state and frame, so its own indifference to block sizes is assumed; the queues' rings and the sleep on an empty queue are not modelled.
- AllocationTable.Table.Add: pointers are fresh and never the value 1; the `realloc` wrapper, which forgets a block whose reallocation fails, is not modelled.
- `BassExciterDsp::processSample` and its setters, the rest of the three harnesses, `mbdBiquadCoeffs`' clamps: easy members beside what is modelled.
- Binder and host glue, parameter parsing, service registration.
