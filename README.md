# Noisebreak: the per-sample noise pipeline in Dafny

Noisebreak is an audio plugin that injects gated random noise into a
stream. For every frame of a buffer (one sample per channel) it:

1. advances the smoothed gain and interval parameters by one step;
2. resets the `u8` gate counter once it has reached the interval, emits
   `draw * gain` if the counter is then 0 (silence otherwise), and
   increments the counter;
3. sends that noise through one shared second-order low-pass filter once
   per channel, in channel order, and adds what comes back to each channel's
   sample. On the high-pass path the filter is fed `-noise` and the channel
   gets `noise + filter(-noise)`;
4. while the editor is open, feeds `|sum of contributions / channels|` into
   a peak meter with instant attack and exponential release.

The filter uses the LPF coefficients of Robert Bristow-Johnson's Audio EQ
Cookbook. It keeps a two-sample input history and a two-sample output
history, which every step shifts in place.

The project has two modules:

- `LowPass` (`lowpass.dfy`) models `src/lp.rs`. It has:
  - the coefficient design, as functions;
  - the biquad recurrence, as the functions `Output`, `Shift`, `After` and
    `Run` over a `History`;
  - the class `LowPassFilter`, whose two history arrays are `array<real>`
    fields that `Process` shifts in place. Each method is proved against
    the functions above.
- `Plugin` (`plugin.dfy`) models the `Noisebreak` state and the body of
  `process` in `src/lib.rs`.
  - One frame, as a function of the state, is `Frame`. A whole buffer is
    `RunFrames`.
  - The class `Noisebreak` performs one frame in place on an `array<real>`
    of channel samples (`ProcessFrame`). It performs a whole buffer, as a
    sequence of such arrays, in a loop (`ProcessFrames`, which the wrapper `Process` calls). Each method is proved
    to produce exactly the state and samples that the functions give.
  - The properties of the gate, the combiner and the meter are lemmas about
    those functions.

Samples are `real`, not `f32`. `sin` and `cos` are opaque functions,
carried in a `Trig` value. The random draw, the smoothed parameter values
and "is the editor open" are inputs.

### Two behaviours that differ from what one might expect

- **Gate period.** A reading of the counter as "N silent frames between
  impulses" would give noise every `N + 1` frames for a constant interval
  `N > 0`. In the code (src/lib.rs:188-196) the counter is reset when it is
  `>= N as u8`, then tested for 0, then incremented. So noise fires every
  `max(N as u8, 1)` frames, which is `max(N, 1)` for every N in 0..=255,
  and intervals 0 and 1 both fire on every frame. The
  model follows the code (`GateFiresEvery`, `BufferGatePeriod`).
- **High-pass against low-pass.** One might expect the high-pass toggle
  (src/lib.rs:201-205) to change the output whenever the noise is nonzero.
  For the same noise and the same filter state, the high-pass contribution
  exceeds the low-pass one by exactly `noise * (1 - 2*b0)`
  (`HighPassMinusLowPass`). So the two coincide whenever `b0 = 1/2`, which
  some cutoff, Q and sample rate reach.

## Model

| member | source | states |
|---|---|---|
| LowPass.Omega | src/lp.rs:44 | defines the normalised angular frequency w = 2*pi*cutoff / sample rate (no contract of its own; used by `CookbookIsNormalisedRaw`, `DesignHasUnitDcGain`) |
| LowPass.Alpha | src/lp.rs:45 | defines alpha = sin w / (2*Q) (no contract of its own; used by `CookbookIsNormalisedRaw`, `DesignHasUnitDcGain`) |
| LowPass.CookbookLowPass | src/lp.rs:50-52 | the designed coefficients satisfy b2 = b0 and b1 = 2*b0 |
| LowPass.CookbookIsNormalisedRaw | src/lp.rs:44-54 | the stored coefficients are the cookbook LPF's raw (b0, b1, b2, a0, a1, a2) = ((1-cos w)/2, 1-cos w, (1-cos w)/2, 1+alpha, -2 cos w, 1-alpha), each divided by a0 |
| LowPass.DesignHasUnitDcGain | src/lp.rs:44-54 | whenever a0 = 1+alpha is nonzero, b0+b1+b2 = 1+a1+a2, so the gain at DC is one when 1+a1+a2 is nonzero (at cos w = 1 both sides are 0) |
| LowPass.Output | src/lp.rs:60-64 | defines the recurrence's output b0*x + b1*in0 + b2*in1 - a1*out0 - a2*out1 (no contract of its own; `LowPassFilter.Process` is proved against it) |
| LowPass.Shift | src/lp.rs:67-70 | defines the history shift: the new input and output go first and the oldest of each is dropped (no contract of its own; `LowPassFilter.Process` is proved against it) |
| LowPass.After | src/lp.rs:58-73 | defines the history after a sequence of inputs, one `process` call each, in order (no contract of its own; properties in `RestStaysAtRest`, `DcSteadyState`) |
| LowPass.Run | src/lp.rs:58-73 | the outputs of a sequence of `process` calls: one output per input |
| LowPass.RunSnoc | src/lp.rs:58-73 | proof step, not a property of the program: the definitions of `Run` and `After` unfolded once for an input appended at the end |
| LowPass.RestStaysAtRest | src/lp.rs:58-73 | a filter whose histories are all zero, fed n zeros, outputs n zeros and keeps all-zero histories |
| LowPass.DcFixedPoint | src/lp.rs:58-73 | with unit DC gain and both histories [x, x], one step on input x returns x and leaves the histories unchanged |
| LowPass.DcSteadyState | src/lp.rs:58-73 | with unit DC gain, a filter in the DC state of x reproduces a constant input x for any number of steps |
| LowPass.LowPassFilter.constructor | src/lp.rs:21-34 | a new filter has both histories [0, 0], the given sample rate, and the coefficients that the cutoff design computes at that rate |
| LowPass.LowPassFilter.SetSampleRate | src/lp.rs:36-38 | only the sample rate changes; the coefficients and both histories are unchanged |
| LowPass.LowPassFilter.SetCutoffFrequency | src/lp.rs:42-55 | only the five coefficients change, to the cookbook design at the stored rate, which has unit DC gain; the histories and the rate are untouched |
| LowPass.LowPassFilter.Process | src/lp.rs:58-74 | returns b0*x + b1*in[0] + b2*in[1] - a1*out[0] - a2*out[1]; the input history becomes [x, old in[0]] and the output history [y, old out[0]] |
| LowPass.ReconfigureTwice | src/lp.rs:42-55 | setting the same cutoff twice gives the same coefficients as once, and neither call touches the history or the rate |
| Plugin.GateReset | src/lib.rs:188-190 | defines the reset check: the counter goes back to 0 once it has reached the interval cast to u8 (no contract of its own; properties in `NextCounterRange`, `GateFiresEvery`) |
| Plugin.Fires | src/lib.rs:191 | defines "noise fires": the counter is 0 after the reset check (no contract of its own; characterised in `NextCounterRange` and `GateFiresEvery`) |
| Plugin.NextCounter | src/lib.rs:188-196 | defines the counter stored at the end of a frame, the reset counter plus one (no contract of its own; bounded in `NextCounterRange`) |
| Plugin.Noise | src/lib.rs:191-195 | defines the noise: draw*gain when the reset counter is 0, exactly 0 otherwise (no contract of its own; bounded in `NoiseBounded`) |
| Plugin.CounterAfter | src/lib.rs:188-196 | defines the counter after k frames from 0 at a constant interval (no contract of its own; closed form in `CounterAfterClosedForm`) |
| Plugin.AsU8 | src/lib.rs:188 | the `as u8` cast keeps values that already fit in a byte |
| Plugin.NextCounterRange | src/lib.rs:188-196 | for any interval, the counter stored at the end of a frame is between 1 and max(interval as u8, 1), so the u8 increment never overflows; it is 1 exactly when noise fired |
| Plugin.CounterWithinInterval | src/lib.rs:188-196 | with the interval in its declared range 0..=50, the counter ends every frame in 1..=max(interval, 1) |
| Plugin.CounterAfterClosedForm | src/lib.rs:188-196 | from counter 0 with a constant interval, the counter after k >= 1 frames is ((k-1) mod max(interval as u8, 1)) + 1 |
| Plugin.GateFiresEvery | src/lib.rs:188-196 | from counter 0 with a constant interval, noise fires on frame k exactly when k mod max(interval as u8, 1) = 0 |
| Plugin.NoiseBounded | src/lib.rs:191-195 | for a draw in [-1, 1) and a gain >= 0, the noise lies in [-gain, gain], and gain 0 gives exactly 0 |
| Plugin.ChannelInput | src/lib.rs:201-205 | defines what a channel feeds the shared filter: -noise on the high-pass path, noise on the low-pass path (no contract of its own; properties in `HighPassMinusLowPass`, `Noisebreak.AddChannel`) |
| Plugin.Contribution | src/lib.rs:201-205 | defines what a channel adds to its sample given the filter output y: noise + y on the high-pass path, y on the low-pass path (no contract of its own; properties in `HighPassMinusLowPass`, `Noisebreak.AddChannel`) |
| Plugin.Contributions | src/lib.rs:200-206 | one contribution per filter output, so one per channel |
| Plugin.Mix | src/lib.rs:207 | adding each channel's contribution to its sample keeps the number of samples (`Noisebreak.AddFilteredNoise` is proved to give exactly these samples) |
| Plugin.Sum | src/lib.rs:183-208 | defines the frame's amplitude: it starts at 0 (line 183) and adds each contribution in channel order (line 208) (no contract of its own; `Noisebreak.AddFilteredNoise` is proved to return it, and `QuietFrameAtRest` shows it is 0 for a quiet frame) |
| Plugin.ChannelContributions | src/lib.rs:198-209 | what the first n channels of a frame add to their samples, from one shared filter run over n copies of the channel input: one contribution per channel |
| Plugin.HistoryAfterChannels | src/lib.rs:198-209 | defines the shared filter's history after the first n channels of a frame (no contract of its own; `Noisebreak.AddFilteredNoise` is proved against it) |
| Plugin.ChannelStep | src/lib.rs:198-209 | proof step, not a property of the program: the definitions of `HistoryAfterChannels` and `ChannelContributions` unfolded once for channel n |
| Plugin.HighPassMinusLowPass | src/lib.rs:201-205 | for the same noise and filter state, the high-pass contribution minus the low-pass one is noise*(1 - 2*b0) |
| Plugin.Abs | src/lib.rs:214 | the absolute value is non-negative and equals x or -x |
| Plugin.MeterLevel | src/lib.rs:214 | defines the meter input abs(amplitude / channels) (no contract of its own; properties in `MeterLevelScales`) |
| Plugin.NextPeak | src/lib.rs:216-221 | defines one follower step: a louder level becomes the peak, otherwise the weighted mean of peak and level (no contract of its own; properties in `FollowerStep`) |
| Plugin.Decay | src/lib.rs:216-221 | defines the peak after k silent frames (no contract of its own; closed form in `SilentDecay`) |
| Plugin.MeterLevelScales | src/lib.rs:214 | the meter input abs(amplitude / channels) is non-negative, and times the channel count it gives abs(amplitude) |
| Plugin.FollowerStep | src/lib.rs:216-221 | with a weight in [0, 1], a louder level becomes the peak; otherwise the new peak lies between the level and the current peak |
| Plugin.SilentDecay | src/lib.rs:216-221 | with a weight w in [0, 1], after k silent frames a non-negative peak p has become p*w^k, which stays within [0, p] |
| Plugin.Frame | src/lib.rs:183-227 | one frame of `process` as a function of the state: gate, noise, one shared-filter step per channel in order, meter update; the output frame has as many channels as the input (`Noisebreak.ProcessFrame` is proved against it; properties in `FrameMeter`, `QuietFrameAtRest`, `ChannelSeesEarlierChannels`) |
| Plugin.ChannelSeesEarlierChannels | src/lib.rs:198-209 | channel i of a frame gets the shared filter's response after the filter has already processed the i channels before it in the same frame |
| Plugin.SharedFilterSecondChannel | src/lib.rs:198-209 | from rest on the low-pass path, channel 0 gets b0*noise and channel 1 gets (b0 + b1 - a1*b0)*noise, because of the one shared filter |
| Plugin.QuietFrameAtRest | src/lib.rs:191-209 | a frame whose gate is closed, or whose gain is 0, leaves a filter at rest at rest and the samples unchanged, and has amplitude 0 |
| Plugin.FrameMeter | src/lib.rs:213-227 | with the editor closed the peak is unchanged; with it open, a frame louder than the peak sets the peak to its level, and a quieter one leaves a peak between the level and the old peak |
| Plugin.FrameGate | src/lib.rs:188-196 | proof step, not a property of the program: `Frame`'s noise and counter fields unfolded, showing they depend only on the counter, the interval, the draw and the gain |
| Plugin.RunFrames | src/lib.rs:182-228 | processing the first n frames of a buffer yields n output frames, each with as many channels as its input frame |
| Plugin.GateRun | src/lib.rs:182-196 | the gate alone over the first n frames of a buffer: one noise per frame (properties in `RunFramesGate`, `GateRunFromZero`) |
| Plugin.RunFramesGate | src/lib.rs:182-196 | the counter and the noises of a processed buffer are those of the gate run alone; the audio has no influence on the gate |
| Plugin.GateRunFromZero | src/lib.rs:188-196 | from counter 0 with a constant interval, the gate emits draw*gain on frame k when the counter it finds fires and exactly 0 otherwise, and ends at the counter after that many frames |
| Plugin.BufferGatePeriod | src/lib.rs:182-196 | from counter 0 with a constant interval, frame k of a buffer gets noise draw*gain when k mod max(interval as u8, 1) = 0 and exactly 0 otherwise |
| Plugin.Smoother.Next | src/lib.rs:185 | each read returns the ramp value for the current step and advances the ramp by exactly one step |
| Plugin.Noisebreak.Default | src/lib.rs:62-73 | counter 0, decay weight 1, the library's "minus infinity" peak, 44.1 kHz, and a filter at rest designed for 500 Hz and Q 0.71 at 44.1 kHz |
| Plugin.Noisebreak.Initialize | src/lib.rs:158-174 | stores the decay weight and the sample rate, passes the rate to the filter without redesigning it, changes no other state, and returns true |
| Plugin.Noisebreak.GateStep | src/lib.rs:188-196 | the stored counter becomes the next counter of the gate, and the noise is draw*gain exactly when the counter after the reset check is 0 |
| Plugin.Noisebreak.AddChannel | src/lib.rs:200-209 | one channel: the shared filter takes one more step, the channel's sample gets its contribution, and the running sum of contributions grows by it |
| Plugin.Noisebreak.AddFilteredNoise | src/lib.rs:200-209 | every channel's sample becomes old + contribution, the filter history is the one after one step per channel in order, and the returned amplitude is the sum of the contributions |
| Plugin.Noisebreak.UpdatePeakMeter | src/lib.rs:213-227 | the peak becomes the follower's next value for the meter level of the frame |
| Plugin.Noisebreak.ProcessFrame | src/lib.rs:183-227 | one frame consumes exactly one gain value and one interval value, and leaves the plugin state and the samples as `Frame` gives them |
| Plugin.Noisebreak.ProcessBufferFrame | src/lib.rs:182-228 | if the first k frames of a buffer are processed, processing frame k makes the first k+1 frames processed and leaves the later frames untouched |
| Plugin.Noisebreak.ProcessFrames | src/lib.rs:182-228 | processing every frame in order consumes one gain value and one interval value per frame and leaves every frame processed |
| Plugin.Noisebreak.Process | src/lib.rs:176-231 | after a whole buffer, the plugin state and every frame's samples are those that `RunFrames` gives for the old state, the next gain and interval values of the smoothers, the draws and the old samples |

## Left out

- Floating point: samples and coefficients are `real`. `f32` rounding, infinities and NaN are not modelled.
- Divisions by zero: the filter design requires a nonzero sample rate, a nonzero Q and a nonzero `a0 = 1 + alpha` (`WellConditioned`). In `f32` these cases give infinities or NaN rather than an error.
- `sin`, `cos` and `powf` are not computed. `sin` and `cos` are opaque functions in a `Trig` value. The decay weight that `initialize` derives from the sample rate is a parameter of `Initialize`, so the "12 dB in 150 ms" figure is not proved.
- `util::MINUS_INFINITY_DB` is an opaque value passed to `Noisebreak.Default`.
- Parameter smoothing (logarithmic and linear ramps) and the parameter declarations are not modelled. A smoother is a function from step number to value with a step counter. The gate lemmas hold for any interval value, not only for 0..=50; outside 0..=255 the period they give is that of `interval as u8` (interval 256 fires on every frame, for instance).
- `rand::thread_rng`: each frame's draw is an input. `NoiseBounded` assumes the draw is in [-1, 1).
- `Arc`, `Mutex` and the relaxed atomic load and store of the peak meter are plain fields. The editor's concurrent reads of the peak are not modelled.
- `Noisebreak.Process` (and `RunFrames`) hold the filter coefficients, the high-pass flag and "is the editor open" fixed for a whole buffer. The source takes the filter's lock anew in every frame (src/lib.rs:198) and reads `is_open()` in every frame (src/lib.rs:213), so between two frames of one buffer the editor thread can reconfigure the filter (`set_cutoff_frequency`) and the editor can open or close. Those writes between frames are not modelled.
- `Noisebreak.ProcessFrame` takes the high-pass flag once per frame, whereas the source reads it once per channel (src/lib.rs:201). That it cannot change within a frame is an assumption about the host, not something the source shows.
- The host buffer is a sequence of per-frame arrays. `Process` requires the arrays to be distinct from each other and from the filter's histories, which Rust's borrow rules guarantee.
- `ProcessFrame` requires at least one channel, and `MeterLevel` requires a nonzero channel count. The plugin only offers mono and stereo layouts, and with zero channels the source divides by zero.
- The `ProcessStatus::Normal` result of `process` is not modelled.
- `src/editor.rs` (the GUI, which forwards cutoff and Q to `set_cutoff_frequency`) and `src/theme.rs` are not part of this model. Neither are the plugin metadata, the IO layouts, CLAP/VST3 export and `editor()`.
