/**
 * The structural part of the voice synthesizer: which oscillators a patch
 * selects, the segment and output lengths of the ADSR envelope, the one-pole
 * low-pass recurrence, and which error (if any) rendering a voice raises.
 * Sample values of the oscillators and the envelope ramps are not modelled.
 */
module Synth {
  import opened Wrappers

  // ---------------------------------------------------------------------------
  // Patches

  /** The `adsr` sub-dictionary of a patch; a missing key is None. */
  datatype AdsrParams = AdsrParams(attack: Option<real>, decay: Option<real>, sustain: Option<real>, release: Option<real>)

  /** The patch keys `generate_synth_sample` reads; a missing key is None. */
  datatype Patch = Patch(
    osc1Type: Option<string>, osc1Level: Option<real>,
    osc2Type: Option<string>, osc2Level: Option<real>,
    adsr: Option<AdsrParams>, filterCutoff: Option<real>, volume: Option<real>)

  /** A patch with every key resolved to the value the renderer uses. */
  datatype Voice = Voice(
    osc1: string, level1: real, osc2: string, level2: real,
    attack: real, decay: real, sustain: real, release: real,
    cutoff: real, volume: real)

  /** The `adsr` dictionary used when the patch has none. */
  const DefaultAdsr := AdsrParams(Some(0.01), Some(0.2), Some(0.8), Some(0.3))

  /** Each missing key takes its default; a present key is used as given. */
  function Resolve(p: Patch): (v: Voice)
    ensures p.osc1Type.None? ==> v.osc1 == "sine"
    ensures p.osc1Type.Some? ==> v.osc1 == p.osc1Type.value
    ensures p.osc1Level.None? ==> v.level1 == 0.7
    ensures p.osc1Level.Some? ==> v.level1 == p.osc1Level.value
    ensures p.osc2Type.None? ==> v.osc2 == "sine"
    ensures p.osc2Type.Some? ==> v.osc2 == p.osc2Type.value
    ensures p.osc2Level.None? ==> v.level2 == 0.3
    ensures p.osc2Level.Some? ==> v.level2 == p.osc2Level.value
    ensures p.adsr.None? ==> v.attack == 0.01 && v.decay == 0.2 && v.sustain == 0.8 && v.release == 0.3
    ensures p.adsr.Some? ==>
      var e := p.adsr.value;
      && (if e.attack.Some? then v.attack == e.attack.value else v.attack == 0.01)
      && (if e.decay.Some? then v.decay == e.decay.value else v.decay == 0.2)
      && (if e.sustain.Some? then v.sustain == e.sustain.value else v.sustain == 0.8)
      && (if e.release.Some? then v.release == e.release.value else v.release == 0.3)
    ensures p.filterCutoff.None? ==> v.cutoff == 1000.0
    ensures p.filterCutoff.Some? ==> v.cutoff == p.filterCutoff.value
    ensures p.volume.None? ==> v.volume == 0.8
    ensures p.volume.Some? ==> v.volume == p.volume.value
  {
    var adsr := p.adsr.GetOr(DefaultAdsr);
    Voice(p.osc1Type.GetOr("sine"), p.osc1Level.GetOr(0.7),
          p.osc2Type.GetOr("sine"), p.osc2Level.GetOr(0.3),
          adsr.attack.GetOr(0.01), adsr.decay.GetOr(0.2), adsr.sustain.GetOr(0.8), adsr.release.GetOr(0.3),
          p.filterCutoff.GetOr(1000.0), p.volume.GetOr(0.8))
  }

  /** The defaults: sine/sine at 0.7/0.3, ADSR 0.01/0.2/0.8/0.3, cutoff 1000, volume 0.8, also for an `adsr` dictionary with no keys. */
  lemma ResolveDefaults()
    ensures Resolve(Patch(None, None, None, None, None, None, None))
      == Voice("sine", 0.7, "sine", 0.3, 0.01, 0.2, 0.8, 0.3, 1000.0, 0.8)
    ensures Resolve(Patch(None, None, None, None, Some(AdsrParams(None, None, None, None)), None, None))
      == Resolve(Patch(None, None, None, None, None, None, None))
  {
  }

  /**
   * The sequencer's patch "Reasonified Lead", restricted to the keys the
   * renderer reads: every one of them is present, so no default applies.
   */
  function SequencerPatch(): (p: Patch)
    ensures Resolve(p) == Voice("sawtooth", 0.6, "square", 0.4, 0.01, 0.2, 0.8, 0.3, 1200.0, 0.9)
  {
    Patch(
      Some("sawtooth"), Some(0.6), Some("square"), Some(0.4),
      Some(AdsrParams(Some(0.01), Some(0.2), Some(0.8), Some(0.3))), Some(1200.0), Some(0.9))
  }

  // ---------------------------------------------------------------------------
  // Oscillators

  datatype Wave = Sine | Sawtooth

  /** The `wave_map` lookup: only "sine" and "sawtooth" are known; any other kind raises `KeyError` (None). */
  function WaveMap(kind: string): (w: Option<Wave>)
    ensures w == Some(Sine) <==> kind == "sine"
    ensures w == Some(Sawtooth) <==> kind == "sawtooth"
    ensures w.None? <==> kind != "sine" && kind != "sawtooth"
  {
    if kind == "sine" then Some(Sine)
    else if kind == "sawtooth" then Some(Sawtooth)
    else None
  }

  // ---------------------------------------------------------------------------
  // ADSR envelope lengths

  /** The lengths `apply_adsr` works with: sustain segment, whole envelope and result. */
  datatype Shape = Shape(sustainLen: nat, envelopeLen: nat, outputLen: nat)

  datatype AdsrError =
    | NegativeSegment                                  // `linspace` with a negative count
    | Mismatch(sliceLen: nat, envelopeLen: nat)        // shapes that do not broadcast

  /**
   * `apply_adsr` for a signal of `n` samples and segment lengths `a`, `d`, `r`
   * (already converted to samples). The envelope is the four segments end to
   * end; the result is `signal[:len(envelope)] * envelope`, an element-wise
   * product under numpy broadcasting: equal lengths, or one side of length 1.
   */
  function ApplyAdsr(n: nat, a: int, d: int, r: int): (res: Result<Shape, AdsrError>)
    ensures res == Err(NegativeSegment) <==> a < 0 || d < 0 || r < 0
    ensures res.Ok? ==> res.value.outputLen <= res.value.envelopeLen
    ensures res.Ok? && n >= 2 ==> res.value.outputLen == res.value.envelopeLen == n
  {
    if a < 0 || d < 0 then Err(NegativeSegment)
    else
      var sustain := if n - a - d - r > 0 then n - a - d - r else 0;
      if r < 0 then Err(NegativeSegment)
      else
        var env := a + d + sustain + r;
        var slice := if n < env then n else env;
        if slice == env || slice == 1 then Ok(Shape(sustain, env, env))
        else if env == 1 then Ok(Shape(sustain, env, slice))
        else Err(Mismatch(slice, env))
  }

  /** The sustain segment fills what attack, decay and release leave, never negatively; the envelope is the sum of the four. */
  lemma AdsrSegments(n: nat, a: nat, d: nat, r: nat)
    ensures ApplyAdsr(n, a, d, r).Ok? ==>
      var s := ApplyAdsr(n, a, d, r).value;
      s.sustainLen == (if a + d + r <= n then n - a - d - r else 0)
      && s.envelopeLen == a + d + s.sustainLen + r
  {
  }

  /** When attack, decay and release fit in the signal, the envelope is exactly as long as the signal, and so is the result. */
  lemma AdsrFits(n: nat, a: nat, d: nat, r: nat)
    requires a + d + r <= n
    ensures ApplyAdsr(n, a, d, r) == Ok(Shape(n - a - d - r, n, n))
  {
  }

  /** When they do not fit, the envelope is longer than the signal and the product raises, unless the signal has at most one sample. */
  lemma AdsrOverlong(n: nat, a: nat, d: nat, r: nat)
    requires a + d + r > n
    ensures n >= 2 ==> ApplyAdsr(n, a, d, r) == Err(Mismatch(n, a + d + r))
    ensures n == 1 ==> ApplyAdsr(n, a, d, r) == Ok(Shape(0, a + d + r, a + d + r))
    ensures n == 0 ==> ApplyAdsr(n, a, d, r) == (if a + d + r == 1 then Ok(Shape(0, 1, 0)) else Err(Mismatch(0, a + d + r)))
  {
  }

  /** A negative segment length makes `linspace` raise before any product is formed. */
  lemma AdsrNegative(n: nat, a: int, d: int, r: int)
    requires a < 0 || d < 0 || r < 0
    ensures ApplyAdsr(n, a, d, r) == Err(NegativeSegment)
  {
  }

  // ---------------------------------------------------------------------------
  // Low-pass filter

  /** One step of the one-pole recurrence: move from `prev` towards `input` by the fraction `alpha`. */
  function Smooth(prev: real, input: real, alpha: real): real
  {
    prev + alpha * (input - prev)
  }

  /** The filter's output: 0 first, then `out[i] = out[i-1] + alpha * (in[i] - out[i-1])`. */
  function Lowpass(x: seq<real>, alpha: real): (y: seq<real>)
    ensures |y| == |x|
  {
    if |x| == 0 then []
    else if |x| == 1 then [0.0]
    else
      var prev := Lowpass(x[..|x| - 1], alpha);
      prev + [Smooth(prev[|x| - 2], x[|x| - 1], alpha)]
  }

  /** Filtering a prefix gives the prefix of the filtered signal. */
  lemma {:induction false} LowpassPrefix(x: seq<real>, alpha: real, k: nat)
    requires k <= |x|
    ensures Lowpass(x[..k], alpha) == Lowpass(x, alpha)[..k]
    decreases |x|
  {
    if k < |x| {
      assert x[..|x| - 1][..k] == x[..k];
      LowpassPrefix(x[..|x| - 1], alpha, k);
    } else {
      assert x[..k] == x;
    }
  }

  /** The output starts at 0 and then follows the one-pole recurrence at every later index. */
  lemma LowpassRecurrence(x: seq<real>, alpha: real, i: nat)
    requires i < |x|
    ensures i == 0 ==> Lowpass(x, alpha)[0] == 0.0
    ensures i > 0 ==> Lowpass(x, alpha)[i] == Smooth(Lowpass(x, alpha)[i - 1], x[i], alpha)
  {
    LowpassPrefix(x, alpha, i + 1);
    if i == 0 {
      assert Lowpass(x[..1], alpha) == [0.0];
    } else {
      assert x[..i + 1][..i] == x[..i];
      LowpassPrefix(x, alpha, i);
      assert Lowpass(x[..i + 1], alpha)[i - 1] == Lowpass(x, alpha)[i - 1];
    }
  }

  /** The first input sample is never read: signals that differ only there filter alike. */
  lemma {:induction false} LowpassIgnoresFirst(x: seq<real>, x': seq<real>, alpha: real)
    requires |x| == |x'|
    requires forall i :: 1 <= i < |x| ==> x[i] == x'[i]
    ensures Lowpass(x, alpha) == Lowpass(x', alpha)
    decreases |x|
  {
    if |x| > 1 {
      var p, p' := x[..|x| - 1], x'[..|x| - 1];
      assert forall i :: 1 <= i < |p| ==> p[i] == p'[i];
      LowpassIgnoresFirst(p, p', alpha);
      assert x[|x| - 1] == x'[|x| - 1];
    }
  }

  /** `lowpass_filter`: a zeroed buffer filled in place by the recurrence (`alpha` is taken as given). */
  method LowpassFilter(signal: seq<real>, alpha: real) returns (filtered: seq<real>)
    ensures filtered == Lowpass(signal, alpha)
  {
    var n := |signal|;
    var out := new real[n](_ => 0.0);
    var i := 1;
    while i < n
      invariant n == 0 || 1 <= i <= n
      invariant n > 0 ==> out[..i] == Lowpass(signal[..i], alpha)
    {
      ghost var next := signal[..i + 1];
      assert next[..i] == signal[..i] && next[i] == signal[i];
      ghost var done := out[..i];
      assert out[i - 1] == done[i - 1];
      out[i] := Smooth(out[i - 1], signal[i], alpha);
      assert out[..i] == done;
      assert out[..i + 1] == done + [out[i]];
      i := i + 1;
    }
    assert n > 0 ==> signal[..n] == signal;
    filtered := out[..];
  }

  // ---------------------------------------------------------------------------
  // Rendering a voice

  datatype RenderError =
    | UnknownWave(kind: string)   // `wave_map[...]` raises KeyError
    | NegativeLength(n: int)      // `linspace` with a negative sample count
    | EmptySignal                 // `np.max` of an empty array
    | Envelope(e: AdsrError)      // `apply_adsr` raises
    | ZeroCutoff                  // `1.0 / (2 * pi * cutoff)` in `lowpass_filter` raises ZeroDivisionError

  /** What a successful render produces: its length in samples, the filter cutoff and the gain `volume * velocity`. */
  datatype Rendered = Rendered(length: nat, cutoff: real, gain: real)

  /**
   * `generate_synth_sample` at its structural level. `samples(t)` is the
   * sample count of `t` seconds, `int(sr * t)`, taken as given.
   * Errors are reported in the order the source would raise them.
   */
  function Render(p: Patch, freq: real, duration: real, velocity: real, samples: real -> int): (res: Result<Rendered, RenderError>)
    ensures WaveMap(Resolve(p).osc1).None? ==> res == Err(UnknownWave(Resolve(p).osc1))
    ensures res == Err(ZeroCutoff) ==> Resolve(p).cutoff == 0.0
    ensures res.Ok? ==> res.value.cutoff == Resolve(p).cutoff && res.value.cutoff != 0.0
    ensures res.Ok? ==> res.value.gain == Resolve(p).volume * velocity
  {
    var v := Resolve(p);
    var n := samples(duration);
    if WaveMap(v.osc1).None? then Err(UnknownWave(v.osc1))
    else if n < 0 then Err(NegativeLength(n))
    else if WaveMap(v.osc2).None? then Err(UnknownWave(v.osc2))
    else if n == 0 then Err(EmptySignal)
    else
      match ApplyAdsr(n, samples(v.attack), samples(v.decay), samples(v.release))
      case Err(e) => Err(Envelope(e))
      case Ok(shape) =>
        if v.cutoff == 0.0 then Err(ZeroCutoff)
        else Ok(Rendered(shape.outputLen, v.cutoff, v.volume * velocity))
  }

  /** A render succeeds only for two known oscillator kinds, a non-empty signal and a non-zero cutoff, and its result is never empty. */
  lemma RenderSucceeds(p: Patch, freq: real, duration: real, velocity: real, samples: real -> int)
    ensures Render(p, freq, duration, velocity, samples).Ok? ==>
      WaveMap(Resolve(p).osc1).Some? && WaveMap(Resolve(p).osc2).Some? && samples(duration) >= 1
      && Resolve(p).cutoff != 0.0
      && Render(p, freq, duration, velocity, samples).value.length >= 1
      && Render(p, freq, duration, velocity, samples).value.gain == Resolve(p).volume * velocity
  {
    var v := Resolve(p);
    var n := samples(duration);
    if n >= 1 {
      var a, d, r := samples(v.attack), samples(v.decay), samples(v.release);
      if a >= 0 && d >= 0 && r >= 0 {
        if a + d + r <= n { AdsrFits(n, a, d, r); } else { AdsrOverlong(n, a, d, r); }
      }
    }
  }

  /** With enough samples for its envelope and a non-zero cutoff, a patch of known kinds renders exactly `n` samples. */
  lemma RenderLength(p: Patch, freq: real, duration: real, velocity: real, samples: real -> int)
    requires WaveMap(Resolve(p).osc1).Some? && WaveMap(Resolve(p).osc2).Some? && Resolve(p).cutoff != 0.0
    requires var v := Resolve(p);
      samples(v.attack) >= 0 && samples(v.decay) >= 0 && samples(v.release) >= 0
      && 1 <= samples(duration)
      && samples(v.attack) + samples(v.decay) + samples(v.release) <= samples(duration)
    ensures Render(p, freq, duration, velocity, samples).Ok?
    ensures Render(p, freq, duration, velocity, samples).value.length == samples(duration)
  {
    var v := Resolve(p);
    AdsrFits(samples(duration), samples(v.attack), samples(v.decay), samples(v.release));
  }

  /** The sequencer's own patch never renders: its second oscillator, "square", is not in `wave_map`. */
  lemma SequencerPatchFails(freq: real, duration: real, velocity: real, samples: real -> int)
    ensures Render(SequencerPatch(), freq, duration, velocity, samples).Err?
    ensures samples(duration) >= 0 ==> Render(SequencerPatch(), freq, duration, velocity, samples) == Err(UnknownWave("square"))
  {
    assert Resolve(SequencerPatch()).osc2 == "square";
  }
}
