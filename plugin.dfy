/** The per-sample pipeline of the Noisebreak plugin: a gate counter that
    decides on which frames random noise fires, a combiner that pushes the
    noise through one shared low-pass filter (or its high-pass complement)
    into every channel, and a peak-meter follower with instant attack and
    exponential release. */
module Plugin {
  import opened LowPass

  // ---------------------------------------------------------------------
  // Gate counter
  // ---------------------------------------------------------------------

  /** An unsigned byte: the type of the gate counter `current_sample`. */
  type U8 = x: int | 0 <= x < 256

  /** Rust's `as u8` on an integer keeps the low eight bits. */
  function AsU8(v: int): (b: U8)
    ensures 0 <= v < 256 ==> b == v
  {
    v % 256
  }

  /** The larger of `n` and 1: the gate's period for interval `n`. */
  function Period(n: int): (p: int)
    ensures p >= 1 && p >= n
  {
    if n < 1 then 1 else n
  }

  /** The counter after the reset check of a frame: it goes back to 0 once
      it has reached the (cast) interval. */
  function GateReset(counter: U8, interval: int): U8
  {
    if counter >= AsU8(interval) then 0 else counter
  }

  /** Noise fires on a frame whose counter is 0 after the reset check. */
  predicate Fires(counter: U8, interval: int)
  {
    GateReset(counter, interval) == 0
  }

  /** The counter stored at the end of a frame. */
  function NextCounter(counter: U8, interval: int): U8
  {
    GateReset(counter, interval) + 1
  }

  /** The `u8` increment never overflows, whatever the interval: the stored
      counter is at most the period, and it is 1 exactly when noise fired. */
  lemma NextCounterRange(counter: U8, interval: int)
    ensures 1 <= NextCounter(counter, interval) <= Period(AsU8(interval))
    ensures NextCounter(counter, interval) == 1 <==> Fires(counter, interval)
  {
  }

  /** With an interval in the parameter's declared range 0..=50 the counter
      ends every frame in 1..=max(interval, 1). */
  lemma CounterWithinInterval(counter: U8, interval: int)
    requires 0 <= interval <= 50
    ensures 1 <= NextCounter(counter, interval) <= Period(interval)
  {
    NextCounterRange(counter, interval);
  }

  /** The counter after `k` frames from 0 with the interval held at `interval`. */
  function CounterAfter(k: nat, interval: int): U8
  {
    if k == 0 then 0 else NextCounter(CounterAfter(k - 1, interval), interval)
  }

  lemma ModUnique(x: int, q: int, p: int, m: int)
    requires p >= 1 && x == q * p + m && 0 <= m < p
    ensures x % p == m
  {
    var d, r := x / p, x % p;
    assert x == d * p + r;
    assert (d - q) * p == m - r;
    if d - q >= 1 {
      assert false;
    } else if d - q <= -1 {
      assert false;
    }
  }

  lemma ModSucc(a: nat, p: int)
    requires p >= 1
    ensures (a + 1) % p == if a % p == p - 1 then 0 else a % p + 1
  {
    var d := a / p;
    assert a == d * p + a % p;
    if a % p == p - 1 {
      ModUnique(a + 1, d + 1, p, 0);
    } else {
      ModUnique(a + 1, d, p, a % p + 1);
    }
  }

  /** The counter after `k >= 1` frames is ((k-1) mod period) + 1, where
      the period is max(interval as u8, 1). */
  lemma {:induction false} CounterAfterClosedForm(k: nat, interval: int)
    ensures CounterAfter(k, interval) == if k == 0 then 0 else (k - 1) % Period(AsU8(interval)) + 1
  {
    var p := Period(AsU8(interval));
    if k > 1 {
      CounterAfterClosedForm(k - 1, interval);
      ModSucc(k - 2, p);
    }
  }

  /** Starting from counter 0 with a constant interval, noise fires on frame
      `k` (counting from 0) exactly when `k` is a multiple of
      max(interval as u8, 1): intervals 0 and 1 both fire on every frame,
      and so does 256, which the cast turns into 0. */
  lemma GateFiresEvery(k: nat, interval: int)
    ensures Fires(CounterAfter(k, interval), interval) <==> k % Period(AsU8(interval)) == 0
  {
    var p := Period(AsU8(interval));
    var b := AsU8(interval);
    CounterAfterClosedForm(k, interval);
    if k > 0 {
      ModSucc(k - 1, p);
      var c := (k - 1) % p + 1;
      assert CounterAfter(k, interval) == c;
      assert Fires(c, interval) <==> c >= b;
      if b == 0 {
        assert p == 1 && k % p == 0;
      } else {
        assert p == b;
        assert c >= b <==> (k - 1) % p == p - 1;
      }
    }
  }

  // ---------------------------------------------------------------------
  // Noise and combiner
  // ---------------------------------------------------------------------

  /** The raw noise of a frame: the draw scaled by the gain when the counter
      is 0 after the reset check, exactly 0 otherwise. */
  function Noise(counter: U8, r: real, gain: real): real
  {
    if counter == 0 then r * gain else 0.0
  }

  /** A draw in [-1, 1) scaled by a non-negative gain stays within the gain;
      gain 0 gives silence. */
  lemma NoiseBounded(counter: U8, r: real, gain: real)
    requires -1.0 <= r < 1.0 && gain >= 0.0
    ensures -gain <= Noise(counter, r, gain) <= gain
    ensures gain == 0.0 ==> Noise(counter, r, gain) == 0.0
  {
    if counter == 0 {
      var lo, hi := r + 1.0, 1.0 - r;
      assert lo >= 0.0 && hi > 0.0;
      assert lo * gain >= 0.0;
      assert hi * gain >= 0.0;
      assert r * gain + gain == lo * gain;
      assert gain - r * gain == hi * gain;
    }
  }

  /** What a channel feeds into the shared filter. */
  function ChannelInput(noise: real, hp: bool): real
  {
    if hp then -noise else noise
  }

  /** What a channel adds to its sample, given the filter's output `y`. */
  function Contribution(noise: real, hp: bool, y: real): real
  {
    if hp then noise + y else y
  }

  function Contributions(noise: real, hp: bool, ys: seq<real>): (cs: seq<real>)
    ensures |cs| == |ys|
  {
    seq(|ys|, i requires 0 <= i < |ys| => Contribution(noise, hp, ys[i]))
  }

  /** Adds each contribution to its sample. */
  function Mix(samples: seq<real>, cs: seq<real>): (out: seq<real>)
    requires |cs| == |samples|
    ensures |out| == |samples|
  {
    seq(|samples|, i requires 0 <= i < |samples| => samples[i] + cs[i])
  }

  lemma ContributionsSnoc(noise: real, hp: bool, ys: seq<real>, y: real)
    ensures Contributions(noise, hp, ys + [y]) == Contributions(noise, hp, ys) + [Contribution(noise, hp, y)]
  {
  }

  /** The contributions of the first `n` channels of a frame, which feed
      the one shared filter one after the other. */
  function ChannelContributions(c: Coefficients, h: History, noise: real, hp: bool, n: nat): (cs: seq<real>)
    ensures |cs| == n
  {
    Contributions(noise, hp, Run(c, h, Repeat(ChannelInput(noise, hp), n)))
  }

  /** The shared filter's history after the first `n` channels. */
  function HistoryAfterChannels(c: Coefficients, h: History, noise: real, hp: bool, n: nat): History
  {
    After(c, h, Repeat(ChannelInput(noise, hp), n))
  }

  /** Channel `n` advances the shared filter once more and contributes
      what the filter returns for it. */
  lemma ChannelStep(c: Coefficients, h: History, noise: real, hp: bool, n: nat)
    ensures var g := HistoryAfterChannels(c, h, noise, hp, n);
            var u := ChannelInput(noise, hp);
            && HistoryAfterChannels(c, h, noise, hp, n + 1) == Shift(g, u, Output(c, g, u))
            && ChannelContributions(c, h, noise, hp, n + 1)
               == ChannelContributions(c, h, noise, hp, n) + [Contribution(noise, hp, Output(c, g, u))]
  {
    var u := ChannelInput(noise, hp);
    var xs := Repeat(u, n);
    RunSnoc(c, h, xs, u);
    assert Repeat(u, n + 1) == xs + [u];
    ContributionsSnoc(noise, hp, Run(c, h, xs), Output(c, After(c, h, xs), u));
  }

  lemma MixSnoc(samples: seq<real>, cs: seq<real>, x: real, c: real)
    requires |cs| == |samples|
    ensures Mix(samples + [x], cs + [c]) == Mix(samples, cs) + [x + c]
  {
  }

  function Sum(s: seq<real>): real
  {
    if s == [] then 0.0 else Sum(s[..|s| - 1]) + s[|s| - 1]
  }

  lemma SumSnoc(s: seq<real>, x: real)
    ensures Sum(s + [x]) == Sum(s) + x
  {
    assert (s + [x])[..|s|] == s;
  }

  lemma {:induction false} SumZeros(n: nat)
    ensures Sum(Repeat(0.0, n)) == 0.0
  {
    if n > 0 {
      SumZeros(n - 1);
      SumSnoc(Repeat(0.0, n - 1), 0.0);
    }
  }

  /** For the same noise and the same filter state, the high-pass path's
      contribution exceeds the low-pass path's by noise * (1 - 2*b0): the
      two differ for nonzero noise unless b0 = 1/2. */
  lemma HighPassMinusLowPass(c: Coefficients, h: History, noise: real)
    ensures Contribution(noise, true, Output(c, h, ChannelInput(noise, true)))
          - Contribution(noise, false, Output(c, h, ChannelInput(noise, false)))
         == noise * (1.0 - 2.0 * c.b0)
  {
  }

  // ---------------------------------------------------------------------
  // Peak meter
  // ---------------------------------------------------------------------

  function Abs(x: real): (a: real)
    ensures a >= 0.0 && (a == x || a == -x)
  {
    if x < 0.0 then -x else x
  }

  /** The meter input of a frame: |amplitude / channels|. */
  function MeterLevel(amplitude: real, channels: nat): real
    requires channels > 0
  {
    Abs(amplitude / channels as real)
  }

  /** The meter level is non-negative and is the magnitude of the amplitude
      shared out over the channels. */
  lemma MeterLevelScales(amplitude: real, channels: nat)
    requires channels > 0
    ensures MeterLevel(amplitude, channels) >= 0.0
    ensures MeterLevel(amplitude, channels) * (channels as real) == Abs(amplitude)
  {
  }

  lemma MulNonNegative(a: real, b: real)
    requires a >= 0.0 && b >= 0.0
    ensures a * b >= 0.0
  {
  }

  /** One step of the follower: instant attack, exponential release. */
  function NextPeak(current: real, level: real, weight: real): real
  {
    if level > current then level else current * weight + level * (1.0 - weight)
  }

  /** With a weight in [0, 1] the follower jumps up to a louder level and
      otherwise falls towards the level without passing it: the new peak
      lies between the level and the larger of the two. */
  lemma FollowerStep(current: real, level: real, weight: real)
    requires 0.0 <= weight <= 1.0
    ensures level > current ==> NextPeak(current, level, weight) == level
    ensures level <= current ==> level <= NextPeak(current, level, weight) <= current
    ensures level <= NextPeak(current, level, weight) <= if current > level then current else level
  {
    if level <= current {
      var p := NextPeak(current, level, weight);
      MulNonNegative(weight, current - level);
      MulNonNegative(1.0 - weight, current - level);
      assert p - level == weight * (current - level);
      assert current - p == (1.0 - weight) * (current - level);
    }
  }

  function Pow(w: real, k: nat): real
  {
    if k == 0 then 1.0 else Pow(w, k - 1) * w
  }

  /** The peak after `k` silent frames. */
  function Decay(peak: real, weight: real, k: nat): real
  {
    if k == 0 then peak else NextPeak(Decay(peak, weight, k - 1), 0.0, weight)
  }

  /** After `k` silent frames a non-negative peak `p` has become p * w^k. */
  lemma {:induction false} SilentDecay(peak: real, weight: real, k: nat)
    requires peak >= 0.0 && 0.0 <= weight <= 1.0
    ensures Decay(peak, weight, k) == peak * Pow(weight, k)
    ensures 0.0 <= Decay(peak, weight, k) <= peak
  {
    if k > 0 {
      SilentDecay(peak, weight, k - 1);
      var d := Decay(peak, weight, k - 1);
      assert d >= 0.0;
      assert NextPeak(d, 0.0, weight) == d * weight;
      FollowerStep(d, 0.0, weight);
    }
  }

  // ---------------------------------------------------------------------
  // One frame, as a function of the state
  // ---------------------------------------------------------------------

  /** The state of the plugin that the per-frame body reads and writes. */
  datatype PluginState = PluginState(
    counter: U8, peak: real, weight: real, coeffs: Coefficients, history: History)

  datatype FrameOut = FrameOut(state: PluginState, samples: seq<real>, noise: real, amplitude: real)

  /** One frame of `process`: gate, noise, one filter step per channel in
      channel order on the one shared filter, and the meter update. */
  function Frame(s: PluginState, gain: real, interval: int, hp: bool, editorOpen: bool,
                 r: real, samples: seq<real>): (o: FrameOut)
    requires |samples| > 0
    ensures |o.samples| == |samples|
  {
    var noise := Noise(GateReset(s.counter, interval), r, gain);
    var cs := ChannelContributions(s.coeffs, s.history, noise, hp, |samples|);
    var amplitude := Sum(cs);
    var peak := if editorOpen then NextPeak(s.peak, MeterLevel(amplitude, |samples|), s.weight)
                else s.peak;
    FrameOut(PluginState(NextCounter(s.counter, interval), peak, s.weight, s.coeffs,
                         HistoryAfterChannels(s.coeffs, s.history, noise, hp, |samples|)),
             Mix(samples, cs), noise, amplitude)
  }

  /** The parts of a frame's result, one by one. */
  lemma FrameParts(s: PluginState, gain: real, interval: int, hp: bool, editorOpen: bool,
                   r: real, samples: seq<real>)
    requires |samples| > 0
    ensures var o := Frame(s, gain, interval, hp, editorOpen, r, samples);
            var noise := Noise(GateReset(s.counter, interval), r, gain);
            var cs := ChannelContributions(s.coeffs, s.history, noise, hp, |samples|);
            && o.noise == noise
            && o.samples == Mix(samples, cs)
            && o.amplitude == Sum(cs)
            && o.state.counter == NextCounter(s.counter, interval)
            && o.state.peak == (if editorOpen then NextPeak(s.peak, MeterLevel(Sum(cs), |samples|), s.weight) else s.peak)
            && o.state.weight == s.weight && o.state.coeffs == s.coeffs
            && o.state.history == HistoryAfterChannels(s.coeffs, s.history, noise, hp, |samples|)
  {
  }

  /** Channel `i` sees the shared filter already advanced by the `i`
      channels before it in the same frame. */
  lemma ChannelSeesEarlierChannels(s: PluginState, gain: real, interval: int, hp: bool,
                                   editorOpen: bool, r: real, samples: seq<real>, i: nat)
    requires |samples| > 0 && i < |samples|
    ensures var o := Frame(s, gain, interval, hp, editorOpen, r, samples);
            var u := ChannelInput(o.noise, hp);
            o.samples[i] == samples[i] + Contribution(o.noise, hp, Output(s.coeffs, After(s.coeffs, s.history, Repeat(u, i)), u))
  {
    var o := Frame(s, gain, interval, hp, editorOpen, r, samples);
    var u := ChannelInput(o.noise, hp);
    RunPrefix(s.coeffs, s.history, Repeat(u, |samples|), i);
    assert Repeat(u, |samples|)[..i] == Repeat(u, i);
  }

  lemma {:induction false} RunPrefix(c: Coefficients, h: History, xs: seq<real>, i: nat)
    requires i < |xs|
    ensures Run(c, h, xs)[i] == Output(c, After(c, h, xs[..i]), xs[i])
  {
    var n := |xs| - 1;
    if i < n {
      RunPrefix(c, h, xs[..n], i);
      assert xs[..n][..i] == xs[..i];
    }
  }

  /** A frame from rest, low-pass path, two channels or more: the first
      channel gets b0*noise, the second (b0 + b1 - a1*b0)*noise, because the
      one filter has already processed the first channel. */
  lemma SharedFilterSecondChannel(s: PluginState, gain: real, interval: int,
                                  editorOpen: bool, r: real, samples: seq<real>)
    requires |samples| >= 2 && s.history == Rest
    ensures var o := Frame(s, gain, interval, false, editorOpen, r, samples);
            && o.samples[0] == samples[0] + s.coeffs.b0 * o.noise
            && o.samples[1] == samples[1] + (s.coeffs.b0 + s.coeffs.b1 - s.coeffs.a1 * s.coeffs.b0) * o.noise
  {
    var o := Frame(s, gain, interval, false, editorOpen, r, samples);
    var c, u := s.coeffs, o.noise;
    ChannelSeesEarlierChannels(s, gain, interval, false, editorOpen, r, samples, 0);
    ChannelSeesEarlierChannels(s, gain, interval, false, editorOpen, r, samples, 1);
    assert Repeat(u, 1) == [] + [u];
    RunSnoc(c, Rest, [], u);
    assert After(c, Rest, Repeat(u, 1)) == History(u, 0.0, c.b0 * u, 0.0);
  }

  /** A frame in which no noise reaches the filter (the gate is closed or
      the gain is 0), starting from rest, leaves the samples as they were
      and the filter at rest. */
  lemma QuietFrameAtRest(s: PluginState, gain: real, interval: int, hp: bool,
                         editorOpen: bool, r: real, samples: seq<real>)
    requires |samples| > 0 && s.history == Rest
    requires !Fires(s.counter, interval) || gain == 0.0
    ensures var o := Frame(s, gain, interval, hp, editorOpen, r, samples);
            o.noise == 0.0 && o.samples == samples && o.amplitude == 0.0 && o.state.history == Rest
  {
    var o := Frame(s, gain, interval, hp, editorOpen, r, samples);
    var n := |samples|;
    assert o.noise == 0.0;
    assert ChannelInput(o.noise, hp) == 0.0;
    RestStaysAtRest(s.coeffs, n);
    var cs := Contributions(0.0, hp, Repeat(0.0, n));
    assert cs == Repeat(0.0, n);
    SumZeros(n);
    assert Mix(samples, cs) == samples;
  }

  /** The meter: unchanged while the editor is closed; while it is open, a
      louder frame sets the peak to its level and a quieter one lets it
      fall towards that level without passing it. */
  lemma FrameMeter(s: PluginState, gain: real, interval: int, hp: bool,
                   editorOpen: bool, r: real, samples: seq<real>)
    requires |samples| > 0
    ensures var o := Frame(s, gain, interval, hp, editorOpen, r, samples);
            var level := Abs(o.amplitude / |samples| as real);
            && (!editorOpen ==> o.state.peak == s.peak)
            && (editorOpen && level > s.peak ==> o.state.peak == level)
            && (editorOpen && 0.0 <= s.weight <= 1.0 ==>
                  level <= o.state.peak && o.state.peak <= if s.peak > level then s.peak else level)
  {
    var o := Frame(s, gain, interval, hp, editorOpen, r, samples);
    if editorOpen && 0.0 <= s.weight <= 1.0 {
      FollowerStep(s.peak, Abs(o.amplitude / |samples| as real), s.weight);
    }
  }

  // ---------------------------------------------------------------------
  // A whole buffer, as a function of the state
  // ---------------------------------------------------------------------

  datatype BufferOut = BufferOut(state: PluginState, frames: seq<seq<real>>, noises: seq<real>)

  predicate BufferShape(gains: seq<real>, intervals: seq<int>, draws: seq<real>, frames: seq<seq<real>>)
  {
    && |gains| == |frames| && |intervals| == |frames| && |draws| == |frames|
    && forall k :: 0 <= k < |frames| ==> |frames[k]| > 0
  }

  /** The first `n` frames of a buffer processed in order; frame `k` uses
      the `k`-th smoothed gain, the `k`-th smoothed interval and the `k`-th
      draw. */
  function RunFrames(s: PluginState, gains: seq<real>, intervals: seq<int>, hp: bool,
                     editorOpen: bool, draws: seq<real>, frames: seq<seq<real>>, n: nat): (o: BufferOut)
    requires BufferShape(gains, intervals, draws, frames) && n <= |frames|
    ensures |o.frames| == n && |o.noises| == n
    ensures forall k :: 0 <= k < n ==> |o.frames[k]| == |frames[k]|
  {
    if n == 0 then BufferOut(s, [], [])
    else
      var prev := RunFrames(s, gains, intervals, hp, editorOpen, draws, frames, n - 1);
      var f := Frame(prev.state, gains[n - 1], intervals[n - 1], hp, editorOpen, draws[n - 1], frames[n - 1]);
      BufferOut(f.state, prev.frames + [f.samples], prev.noises + [f.noise])
  }

  /** The gate part of a frame: the noise it emits and the counter it stores. */
  lemma FrameGate(s: PluginState, gain: real, interval: int, hp: bool,
                  editorOpen: bool, r: real, samples: seq<real>)
    requires |samples| > 0
    ensures var o := Frame(s, gain, interval, hp, editorOpen, r, samples);
            && o.noise == Noise(GateReset(s.counter, interval), r, gain)
            && o.state.counter == NextCounter(s.counter, interval)
  {
  }

  datatype GateOut = GateOut(counter: U8, noises: seq<real>)

  /** The gate alone over the first `n` frames of a buffer: the counter at
      the end and the noise of every frame. */
  function GateRun(counter: U8, gains: seq<real>, intervals: seq<int>, draws: seq<real>, n: nat): (g: GateOut)
    requires |gains| == |draws| && |intervals| == |draws| && n <= |draws|
    ensures |g.noises| == n
  {
    if n == 0 then GateOut(counter, [])
    else
      var prev := GateRun(counter, gains, intervals, draws, n - 1);
      GateOut(NextCounter(prev.counter, intervals[n - 1]),
              prev.noises + [Noise(GateReset(prev.counter, intervals[n - 1]), draws[n - 1], gains[n - 1])])
  }

  /** The gate does not depend on the audio: the counter and the noises of
      a processed buffer are those of the gate run on its own. */
  lemma {:induction false} RunFramesGate(s: PluginState, gains: seq<real>, intervals: seq<int>,
                                         hp: bool, editorOpen: bool, draws: seq<real>,
                                         frames: seq<seq<real>>, n: nat)
    requires BufferShape(gains, intervals, draws, frames) && n <= |frames|
    ensures var o := RunFrames(s, gains, intervals, hp, editorOpen, draws, frames, n);
            var g := GateRun(s.counter, gains, intervals, draws, n);
            o.state.counter == g.counter && o.noises == g.noises
  {
    if n > 0 {
      RunFramesGate(s, gains, intervals, hp, editorOpen, draws, frames, n - 1);
      var prev := RunFrames(s, gains, intervals, hp, editorOpen, draws, frames, n - 1);
      FrameGate(prev.state, gains[n - 1], intervals[n - 1], hp, editorOpen, draws[n - 1], frames[n - 1]);
    }
  }

  /** With the interval held at `interval` and the counter starting at 0,
      frame `k` emits draw * gain when the gate counter it finds fires, and
      exactly 0 otherwise. */
  lemma {:induction false} GateRunFromZero(gains: seq<real>, intervals: seq<int>, draws: seq<real>,
                                           interval: int, n: nat)
    requires |gains| == |draws| && |intervals| == |draws| && n <= |draws|
    requires forall k :: 0 <= k < |intervals| ==> intervals[k] == interval
    ensures var g := GateRun(0, gains, intervals, draws, n);
            && g.counter == CounterAfter(n, interval)
            && forall k :: 0 <= k < n ==>
                 g.noises[k] == Noise(GateReset(CounterAfter(k, interval), interval), draws[k], gains[k])
  {
    if n > 0 {
      GateRunFromZero(gains, intervals, draws, interval, n - 1);
      var prev := GateRun(0, gains, intervals, draws, n - 1);
      var g := GateRun(0, gains, intervals, draws, n);
      assert forall k :: 0 <= k < n - 1 ==> g.noises[k] == prev.noises[k];
    }
  }

  /** With the interval held at `interval` and the counter starting at 0,
      frame `k` of a buffer emits draw * gain when `k` is a multiple of
      max(interval as u8, 1) and exactly 0 otherwise. */
  lemma BufferGatePeriod(s: PluginState, gains: seq<real>, intervals: seq<int>,
                         hp: bool, editorOpen: bool, draws: seq<real>,
                         frames: seq<seq<real>>, interval: int, k: nat)
    requires BufferShape(gains, intervals, draws, frames) && k < |frames|
    requires s.counter == 0
    requires forall j :: 0 <= j < |intervals| ==> intervals[j] == interval
    ensures RunFrames(s, gains, intervals, hp, editorOpen, draws, frames, |frames|).noises[k]
         == if k % Period(AsU8(interval)) == 0 then draws[k] * gains[k] else 0.0
  {
    RunFramesGate(s, gains, intervals, hp, editorOpen, draws, frames, |frames|);
    GateRunFromZero(gains, intervals, draws, interval, |frames|);
    GateFiresEvery(k, interval);
  }

  /** Window `[from, from + n)` of a smoother's ramp. */
  function Window<T>(ramp: nat -> T, from: nat, n: nat): (w: seq<T>)
    ensures |w| == n
    ensures forall k :: 0 <= k < n ==> w[k] == ramp(from + k)
  {
    seq(n, k requires 0 <= k < n => ramp(from + k))
  }

  /** The samples of every frame of a buffer, in frame order. */
  ghost function Contents(buffer: seq<array<real>>): (s: seq<seq<real>>)
    reads set k | 0 <= k < |buffer| :: buffer[k]
    ensures |s| == |buffer|
    ensures forall k :: 0 <= k < |buffer| ==> s[k] == buffer[k][..]
  {
    if buffer == [] then [] else Contents(buffer[..|buffer| - 1]) + [buffer[|buffer| - 1][..]]
  }

  // ---------------------------------------------------------------------
  // The plugin object
  // ---------------------------------------------------------------------

  /** A parameter smoother as the per-frame body sees it: every `Next`
      advances the ramp one step and returns the value for that step. */
  class Smoother<T> {
    const ramp: nat -> T
    var steps: nat

    constructor (ramp: nat -> T)
      ensures this.ramp == ramp && steps == 0
    {
      this.ramp := ramp;
      steps := 0;
    }

    method Next() returns (v: T)
      modifies this`steps
      ensures v == ramp(old(steps)) && steps == old(steps) + 1
    {
      v := ramp(steps);
      steps := steps + 1;
    }
  }

  class Noisebreak {
    var currentSample: U8
    /** Per-frame release factor of the peak meter. */
    var peakMeterDecayWeight: real
    /** The peak level shown by the editor, as voltage gain. */
    var peakMeter: real
    var sampleRate: real
    const lpFilter: LowPassFilter

    ghost predicate Valid()
      reads this, lpFilter
    {
      lpFilter.Valid()
    }

    ghost function Model(): PluginState
      reads this, lpFilter, lpFilter.pastInputs, lpFilter.pastOutputs
      requires Valid()
    {
      PluginState(currentSample, peakMeter, peakMeterDecayWeight, lpFilter.Coeffs(), lpFilter.State())
    }

    /** `Default::default`: counter 0, weight 1, the library's "minus
        infinity" peak, 44.1 kHz and a 500 Hz, Q 0.71 filter at rest. */
    constructor Default(trig: Trig, minusInfinityDb: real)
      requires WellConditioned(500.0, 0.71, 44100.0, trig)
      ensures Valid() && fresh(lpFilter) && fresh(lpFilter.pastInputs) && fresh(lpFilter.pastOutputs)
      ensures currentSample == 0 && peakMeterDecayWeight == 1.0 && peakMeter == minusInfinityDb
      ensures sampleRate == 44100.0 && lpFilter.sampleRate == 44100.0
      ensures lpFilter.State() == Rest
      ensures lpFilter.Coeffs() == CookbookLowPass(500.0, 0.71, 44100.0, trig)
    {
      currentSample := 0;
      peakMeterDecayWeight := 1.0;
      peakMeter := minusInfinityDb;
      sampleRate := 44100.0;
      lpFilter := new LowPassFilter(500.0, 44100.0, 0.71, trig);
    }

    /** `initialize`: stores the decay weight (computed by the caller from
        the sample rate) and the sample rate, and passes the rate on to the
        filter without redesigning its coefficients. */
    method Initialize(bufferSampleRate: real, decayWeight: real) returns (ok: bool)
      requires Valid()
      modifies this`peakMeterDecayWeight, this`sampleRate, lpFilter`sampleRate
      ensures Valid() && ok
      ensures peakMeterDecayWeight == decayWeight
      ensures sampleRate == bufferSampleRate && lpFilter.sampleRate == bufferSampleRate
      ensures Model() == old(Model()).(weight := decayWeight)
    {
      peakMeterDecayWeight := decayWeight;
      sampleRate := bufferSampleRate;
      lpFilter.SetSampleRate(sampleRate);
      ok := true;
    }

    /** The first `i` channels of the frame have gone through the shared
        filter, which started the frame with coefficients `c` and history
        `h`, and the remaining channels still hold their input. */
    ghost predicate ChannelsDone(channelSamples: array<real>, i: nat, c: Coefficients, h: History,
                                 noise: real, hp: bool, input: seq<real>)
      reads lpFilter, lpFilter.pastInputs, lpFilter.pastOutputs, channelSamples
    {
      && lpFilter.Valid()
      && i <= channelSamples.Length == |input|
      && lpFilter.Coeffs() == c
      && lpFilter.State() == HistoryAfterChannels(c, h, noise, hp, i)
      && channelSamples[..i] == Mix(input[..i], ChannelContributions(c, h, noise, hp, i))
      && channelSamples[i..] == input[i..]
    }

    /** Channel `i` of the frame: one step of the shared filter, whose
        result is added to the channel's sample and returned. */
    method AddChannel(noise: real, hp: bool, channelSamples: array<real>, i: nat,
                      ghost c: Coefficients, ghost h: History, ghost input: seq<real>)
      returns (filteredNoise: real)
      requires ChannelsDone(channelSamples, i, c, h, noise, hp, input) && i < channelSamples.Length
      requires channelSamples != lpFilter.pastInputs && channelSamples != lpFilter.pastOutputs
      modifies lpFilter.pastInputs, lpFilter.pastOutputs, channelSamples
      ensures ChannelsDone(channelSamples, i + 1, c, h, noise, hp, input)
      ensures Sum(ChannelContributions(c, h, noise, hp, i + 1))
           == Sum(ChannelContributions(c, h, noise, hp, i)) + filteredNoise
    {
      ChannelStep(c, h, noise, hp, i);
      ghost var cs := ChannelContributions(c, h, noise, hp, i);
      ghost var prefix := channelSamples[..i];
      if hp {
        var y := lpFilter.Process(-noise);
        filteredNoise := noise + y;
      } else {
        filteredNoise := lpFilter.Process(noise);
      }
      channelSamples[i] := channelSamples[i] + filteredNoise;
      SumSnoc(cs, filteredNoise);
      MixSnoc(input[..i], cs, input[i], filteredNoise);
      assert input[..i + 1] == input[..i] + [input[i]];
      assert channelSamples[..i + 1] == prefix + [input[i] + filteredNoise];
    }

    /** Once every channel is done, the samples are the input mixed with
        the contributions of all channels. */
    lemma AllChannelsDone(channelSamples: array<real>, c: Coefficients, h: History,
                          noise: real, hp: bool, input: seq<real>)
      requires ChannelsDone(channelSamples, channelSamples.Length, c, h, noise, hp, input)
      ensures channelSamples[..] == Mix(input, ChannelContributions(c, h, noise, hp, |input|))
    {
      assert channelSamples[..] == channelSamples[..|input|];
      assert input == input[..|input|];
    }

    /** The inner loop of `process`: every channel of the frame, in order,
        sends the noise (negated on the high-pass path) through the one
        shared filter and adds its contribution to its sample. Returns the
        sum of the contributions. */
    method AddFilteredNoise(noise: real, hp: bool, channelSamples: array<real>) returns (amplitude: real)
      requires Valid()
      requires channelSamples != lpFilter.pastInputs && channelSamples != lpFilter.pastOutputs
      modifies lpFilter.pastInputs, lpFilter.pastOutputs, channelSamples
      ensures Valid()
      ensures var n := channelSamples.Length;
              var cs := ChannelContributions(lpFilter.Coeffs(), old(lpFilter.State()), noise, hp, n);
              && lpFilter.State() == HistoryAfterChannels(lpFilter.Coeffs(), old(lpFilter.State()), noise, hp, n)
              && channelSamples[..] == Mix(old(channelSamples[..]), cs)
              && amplitude == Sum(cs)
    {
      ghost var c, h := lpFilter.Coeffs(), lpFilter.State();
      ghost var input := channelSamples[..];
      amplitude := 0.0;
      var i := 0;
      while i < channelSamples.Length
        invariant ChannelsDone(channelSamples, i, c, h, noise, hp, input)
        invariant amplitude == Sum(ChannelContributions(c, h, noise, hp, i))
      {
        var filteredNoise := AddChannel(noise, hp, channelSamples, i, c, h, input);
        amplitude := amplitude + filteredNoise;
        i := i + 1;
      }
      AllChannelsDone(channelSamples, c, h, noise, hp, input);
    }

    /** The gate part of a frame: the counter is reset once it has reached
        the (cast) interval, noise is the draw times the gain when the
        counter is then 0, and the counter is incremented. */
    method GateStep(interval: int, r: real, gain: real) returns (noise: real)
      modifies this`currentSample
      ensures currentSample == NextCounter(old(currentSample), interval)
      ensures noise == Noise(GateReset(old(currentSample), interval), r, gain)
    {
      if currentSample >= AsU8(interval) {
        currentSample := 0;
      }
      noise := if currentSample == 0 then r * gain else 0.0;
      currentSample := currentSample + 1;
    }

    /** The meter part of a frame, run while the editor is open. */
    method UpdatePeakMeter(amplitude: real, numSamples: nat)
      requires numSamples > 0
      modifies this`peakMeter
      ensures peakMeter == NextPeak(old(peakMeter), MeterLevel(amplitude, numSamples), peakMeterDecayWeight)
    {
      var level := Abs(amplitude / numSamples as real);
      var currentPeakMeter := peakMeter;
      var newPeakMeter := if level > currentPeakMeter then level
                          else currentPeakMeter * peakMeterDecayWeight + level * (1.0 - peakMeterDecayWeight);
      peakMeter := newPeakMeter;
    }

    /** The body of `process` for one frame of channel samples. */
    method ProcessFrame(gain: Smoother<real>, interval: Smoother<int>, hp: bool, editorOpen: bool,
                        r: real, channelSamples: array<real>)
      requires Valid()
      requires channelSamples.Length > 0
      requires channelSamples != lpFilter.pastInputs && channelSamples != lpFilter.pastOutputs
      modifies this`currentSample, this`peakMeter, lpFilter.pastInputs, lpFilter.pastOutputs
      modifies channelSamples, gain`steps, interval`steps
      ensures Valid()
      ensures gain.steps == old(gain.steps) + 1 && interval.steps == old(interval.steps) + 1
      ensures var o := Frame(old(Model()), gain.ramp(old(gain.steps)), interval.ramp(old(interval.steps)),
                             hp, editorOpen, r, old(channelSamples[..]));
              Model() == o.state && channelSamples[..] == o.samples
    {
      ghost var s := Model();
      ghost var input := channelSamples[..];
      var g := gain.Next();
      var iv := interval.Next();
      var noise := GateStep(iv, r, g);
      var numSamples := channelSamples.Length;
      var amplitude := AddFilteredNoise(noise, hp, channelSamples);
      if editorOpen {
        UpdatePeakMeter(amplitude, numSamples);
      }
      FrameParts(s, g, iv, hp, editorOpen, r, input);
    }

    /** The first `k` frames of `buffer` hold the processed samples of the
        first `k` frames of `input` and the rest still hold their input;
        the plugin state is the one reached after those `k` frames. */
    ghost predicate Processed(buffer: seq<array<real>>, k: nat, s: PluginState, gains: seq<real>,
                              intervals: seq<int>, hp: bool, editorOpen: bool, draws: seq<real>,
                              input: seq<seq<real>>)
      reads this, lpFilter, lpFilter.pastInputs, lpFilter.pastOutputs
      reads set j | 0 <= j < |buffer| :: buffer[j]
    {
      && Valid()
      && BufferShape(gains, intervals, draws, input) && k <= |input| == |buffer|
      && var o := RunFrames(s, gains, intervals, hp, editorOpen, draws, input, k);
      && Model() == o.state
      && (forall j :: 0 <= j < k ==> buffer[j][..] == o.frames[j])
      && (forall j :: k <= j < |buffer| ==> buffer[j][..] == input[j])
    }

    /** Processes frame `k` of a buffer whose first `k` frames are done. */
    method ProcessBufferFrame(buffer: seq<array<real>>, k: nat, gain: Smoother<real>, interval: Smoother<int>,
                              hp: bool, editorOpen: bool, draws: seq<real>, ghost s: PluginState,
                              ghost gains: seq<real>, ghost intervals: seq<int>, ghost input: seq<seq<real>>)
      requires Processed(buffer, k, s, gains, intervals, hp, editorOpen, draws, input) && k < |buffer|
      requires forall j :: 0 <= j < |buffer| ==> buffer[j] != lpFilter.pastInputs && buffer[j] != lpFilter.pastOutputs
      requires forall j, j' :: 0 <= j < j' < |buffer| ==> buffer[j] != buffer[j']
      requires gain.ramp(gain.steps) == gains[k] && interval.ramp(interval.steps) == intervals[k]
      modifies this`currentSample, this`peakMeter, lpFilter.pastInputs, lpFilter.pastOutputs
      modifies buffer[k], gain`steps, interval`steps
      ensures Processed(buffer, k + 1, s, gains, intervals, hp, editorOpen, draws, input)
      ensures gain.steps == old(gain.steps) + 1 && interval.steps == old(interval.steps) + 1
    {
      ProcessFrame(gain, interval, hp, editorOpen, draws[k], buffer[k]);
    }

    /** Processes every frame of a buffer none of whose frames is done. */
    method ProcessFrames(buffer: seq<array<real>>, gain: Smoother<real>, interval: Smoother<int>,
                         hp: bool, editorOpen: bool, draws: seq<real>, ghost s: PluginState,
                         ghost gains: seq<real>, ghost intervals: seq<int>, ghost input: seq<seq<real>>)
      requires Processed(buffer, 0, s, gains, intervals, hp, editorOpen, draws, input)
      requires forall j :: 0 <= j < |buffer| ==> buffer[j] != lpFilter.pastInputs && buffer[j] != lpFilter.pastOutputs
      requires forall j, j' :: 0 <= j < j' < |buffer| ==> buffer[j] != buffer[j']
      requires gains == Window(gain.ramp, gain.steps, |buffer|)
      requires intervals == Window(interval.ramp, interval.steps, |buffer|)
      modifies this`currentSample, this`peakMeter, lpFilter.pastInputs, lpFilter.pastOutputs
      modifies set j | 0 <= j < |buffer| :: buffer[j], gain`steps, interval`steps
      ensures Processed(buffer, |buffer|, s, gains, intervals, hp, editorOpen, draws, input)
      ensures gain.steps == old(gain.steps) + |buffer| && interval.steps == old(interval.steps) + |buffer|
    {
      ghost var g0, i0 := gain.steps, interval.steps;
      var k := 0;
      while k < |buffer|
        invariant k <= |buffer|
        invariant gain.steps == g0 + k && interval.steps == i0 + k
        invariant Processed(buffer, k, s, gains, intervals, hp, editorOpen, draws, input)
      {
        ProcessBufferFrame(buffer, k, gain, interval, hp, editorOpen, draws, s, gains, intervals, input);
        k := k + 1;
      }
    }

    /** `process` over a whole buffer, one frame after the other. */
    method Process(buffer: seq<array<real>>, gain: Smoother<real>, interval: Smoother<int>,
                   hp: bool, editorOpen: bool, draws: seq<real>)
      requires Valid()
      requires |draws| == |buffer|
      requires forall k :: 0 <= k < |buffer| ==> buffer[k].Length > 0
      requires forall k :: 0 <= k < |buffer| ==> buffer[k] != lpFilter.pastInputs && buffer[k] != lpFilter.pastOutputs
      requires forall j, k :: 0 <= j < k < |buffer| ==> buffer[j] != buffer[k]
      modifies this`currentSample, this`peakMeter, lpFilter.pastInputs, lpFilter.pastOutputs
      modifies set k | 0 <= k < |buffer| :: buffer[k], gain`steps, interval`steps
      ensures Valid()
      ensures gain.steps == old(gain.steps) + |buffer| && interval.steps == old(interval.steps) + |buffer|
      ensures var o := RunFrames(old(Model()), Window(gain.ramp, old(gain.steps), |buffer|),
                                 Window(interval.ramp, old(interval.steps), |buffer|),
                                 hp, editorOpen, draws, old(Contents(buffer)), |buffer|);
              Model() == o.state && Contents(buffer) == o.frames
    {
      ghost var s := Model();
      ghost var input := Contents(buffer);
      ghost var gains := Window(gain.ramp, gain.steps, |buffer|);
      ghost var intervals := Window(interval.ramp, interval.steps, |buffer|);
      assert Processed(buffer, 0, s, gains, intervals, hp, editorOpen, draws, input);
      ProcessFrames(buffer, gain, interval, hp, editorOpen, draws, s, gains, intervals, input);
    }
  }
}
