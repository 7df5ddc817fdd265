/**
 * The pattern store of the step sequencer: an 8-track grid of step cells that
 * the editor changes in place, the tempo and resolution that give the step
 * duration, the decision of which voice a fired cell goes to, and
 * saving/loading the pattern as a document.
 */
module Sequencer {
  import opened Wrappers
  import PyText
  import DrumKit
  import Synth

  // ---------------------------------------------------------------------------
  // Cells and grids

  /**
   * One grid cell. `on` is an integer that `toggle_step` flips with `^ 1`;
   * the other three keys may be missing in a loaded pattern (None).
   */
  datatype Step = Step(on: int, note: Option<int>, velocity: Option<real>, variation: Option<int>)

  /** A fresh cell: off, note 60, velocity 1.0, variation 0. */
  const DefaultStep := Step(0, Some(60), Some(1.0), Some(0))

  const NumTracks := 8

  const DefaultTrackNames: seq<string> := ["Kick", "Snare", "Hat", "Perc", "Synth 1", "Synth 2", "Synth 3", "Synth 4"]

  /** The grid the constructor builds: 8 tracks of `steps` default cells (none for a negative `steps`, like `range`). */
  function FreshPattern(steps: int): (g: seq<seq<Step>>)
    ensures |g| == NumTracks
    ensures forall t :: 0 <= t < |g| ==> |g[t]| == (if steps < 0 then 0 else steps)
    ensures forall t, s :: 0 <= t < |g| && 0 <= s < |g[t]| ==> g[t][s] == DefaultStep
  {
    var track := seq(if steps < 0 then 0 else steps, _ => DefaultStep);
    seq(NumTracks, _ => track)
  }

  /** Every track holds exactly `steps` cells. */
  ghost predicate Rectangular(g: seq<seq<Step>>, steps: int) {
    forall t :: 0 <= t < |g| ==> |g[t]| == steps
  }

  /** Python's `x ^ 1` on an integer: flips its lowest bit (also for negative integers, in two's complement). */
  function XorOne(x: int): (r: int)
    ensures r % 2 != x % 2 && r / 2 == x / 2
  {
    if x % 2 == 0 then x + 1 else x - 1
  }

  /** Flipping twice restores the value, a 0/1 value stays 0/1, and exactly one of the two is odd. */
  lemma XorOneInvolution(x: int)
    ensures XorOne(XorOne(x)) == x
    ensures x == 0 <==> XorOne(x) == 1
    ensures x == 1 <==> XorOne(x) == 0
    ensures XorOne(x) != x && XorOne(x) / 2 == x / 2
  {
  }

  /** The grid with cell `(t, s)` replaced by `c`. */
  function WithCell(g: seq<seq<Step>>, t: nat, s: nat, c: Step): (r: seq<seq<Step>>)
    requires t < |g| && s < |g[t]|
    ensures |r| == |g| && forall i :: 0 <= i < |g| ==> |r[i]| == |g[i]|
    ensures r[t][s] == c
    ensures forall i, j :: 0 <= i < |g| && 0 <= j < |g[i]| && (i, j) != (t, s) ==> r[i][j] == g[i][j]
  {
    g[t := g[t][s := c]]
  }

  /** The grid after `toggle_step(t, s)`. */
  function Toggled(g: seq<seq<Step>>, t: nat, s: nat): (r: seq<seq<Step>>)
    requires t < |g| && s < |g[t]|
    ensures |r| == |g| && forall i :: 0 <= i < |g| ==> |r[i]| == |g[i]|
    ensures r[t][s] == g[t][s].(on := XorOne(g[t][s].on))
    ensures forall i, j :: 0 <= i < |g| && 0 <= j < |g[i]| && (i, j) != (t, s) ==> r[i][j] == g[i][j]
  {
    WithCell(g, t, s, g[t][s].(on := XorOne(g[t][s].on)))
  }

  /** The grid after `set_note(t, s, note)`. */
  function WithNote(g: seq<seq<Step>>, t: nat, s: nat, note: int): (r: seq<seq<Step>>)
    requires t < |g| && s < |g[t]|
    ensures |r| == |g| && forall i :: 0 <= i < |g| ==> |r[i]| == |g[i]|
    ensures r[t][s] == g[t][s].(note := Some(note))
    ensures forall i, j :: 0 <= i < |g| && 0 <= j < |g[i]| && (i, j) != (t, s) ==> r[i][j] == g[i][j]
  {
    WithCell(g, t, s, g[t][s].(note := Some(note)))
  }

  /** Toggling changes only the `on` field of the addressed cell, keeps the grid's shape, and two toggles restore the grid. */
  lemma ToggledOnlyCell(g: seq<seq<Step>>, t: nat, s: nat)
    requires t < |g| && s < |g[t]|
    ensures var r := Toggled(g, t, s);
      && |r| == |g| && (forall i :: 0 <= i < |g| ==> |r[i]| == |g[i]|)
      && r[t][s].on != g[t][s].on
      && r[t][s].(on := g[t][s].on) == g[t][s]
      && (forall i, j :: 0 <= i < |g| && 0 <= j < |g[i]| && (i, j) != (t, s) ==> r[i][j] == g[i][j])
      && Toggled(r, t, s) == g
  {
    XorOneInvolution(g[t][s].on);
    var r := Toggled(g, t, s);
    assert Toggled(r, t, s)[t] == g[t];
  }

  // ---------------------------------------------------------------------------
  // Step duration

  datatype DurationError =
    | ZeroTempo            // `60.0 / tempo` raises ZeroDivisionError
    | NoDenominator        // `split("/")[1]` raises IndexError
    | BadDenominator       // `int(...)` raises ValueError
    | ZeroDenominator      // `4 / subdivision` raises ZeroDivisionError

  /** `(60 / tempo) * (4 / d)`: one beat of `tempo` beats per minute, divided into `d / 4` steps. */
  function Seconds(tempo: real, d: int): real
    requires tempo != 0.0 && d != 0
  {
    (60.0 / tempo) * (4.0 / d as real)
  }

  /** `int(resolution.split("/")[1])`: the integer after the first `/`, up to a second `/` if any. */
  function Subdivision(resolution: string): (r: Result<int, DurationError>)
    ensures r.Err? ==> r.error == NoDenominator || r.error == BadDenominator
  {
    var parts := PyText.Split(resolution, '/');
    if |parts| < 2 then Err(NoDenominator)
    else match PyText.ParseInt(parts[1])
      case None => Err(BadDenominator)
      case Some(d) => Ok(d)
  }

  /**
   * `get_step_duration`: `(60 / tempo) * (4 / d)` seconds for the subdivision
   * `d` of the resolution. The tempo is divided by first, so a zero tempo is
   * the first error.
   */
  function StepDuration(tempo: real, resolution: string): (r: Result<real, DurationError>)
    ensures r == Err(ZeroTempo) <==> tempo == 0.0
    ensures r.Ok? <==> tempo != 0.0 && Subdivision(resolution).Ok? && Subdivision(resolution).value != 0
    ensures r.Ok? ==> r.value == Seconds(tempo, Subdivision(resolution).value)
  {
    if tempo == 0.0 then Err(ZeroTempo)
    else match Subdivision(resolution)
      case Err(e) => Err(e)
      case Ok(d) => if d == 0 then Err(ZeroDenominator) else Ok(Seconds(tempo, d))
  }

  /** A resolution `num/d` has subdivision `d` whatever `num` is, as long as it holds no `/`. */
  lemma SubdivisionOf(num: string, d: int)
    requires '/' !in num
    ensures Subdivision(num + "/" + PyText.IntToString(d)) == Ok(d)
  {
    var rest := PyText.IntToString(d);
    var res := num + "/" + rest;
    assert res[..|num|] == num && res[|num|] == '/' && res[|num| + 1..] == rest;
    PyText.SplitFirstPieces(res, '/', |num|);
    assert '/' !in rest by {
      assert forall i :: 0 <= i < |rest| ==> rest[i] == '-' || PyText.IsDigit(rest[i]);
    }
    PyText.SplitHasSecond(rest, '/');
    PyText.SplitJoin(rest, '/');
    assert PyText.Split(rest, '/')[0] == rest;
    PyText.ParseIntRoundTrip(d);
  }

  /** A resolution `num/d` with `num` free of `/` gives `(60 / tempo) * (4 / d)` seconds. */
  lemma StepDurationOf(tempo: real, num: string, d: int)
    requires tempo != 0.0 && d != 0 && '/' !in num
    ensures StepDuration(tempo, num + "/" + PyText.IntToString(d)) == Ok(Seconds(tempo, d))
  {
    SubdivisionOf(num, d);
  }

  /** A resolution without `/` fails with IndexError (for a non-zero tempo). */
  lemma StepDurationNeedsSlash(tempo: real, resolution: string)
    requires tempo != 0.0 && '/' !in resolution
    ensures StepDuration(tempo, resolution) == Err(NoDenominator)
  {
    PyText.SplitHasSecond(resolution, '/');
  }

  /** Only the text after the first `/` matters, not the numerator. */
  lemma SubdivisionIgnoresNumerator(num1: string, num2: string, rest: string)
    requires '/' !in num1 && '/' !in num2
    ensures Subdivision(num1 + "/" + rest) == Subdivision(num2 + "/" + rest)
  {
    var r1, r2 := num1 + "/" + rest, num2 + "/" + rest;
    assert r1[..|num1|] == num1 && r1[|num1|] == '/' && r1[|num1| + 1..] == rest;
    assert r2[..|num2|] == num2 && r2[|num2|] == '/' && r2[|num2| + 1..] == rest;
    PyText.SplitFirstPieces(r1, '/', |num1|);
    PyText.SplitFirstPieces(r2, '/', |num2|);
  }

  /** Tempo 120 at "1/16" gives 1/8 s per step. */
  lemma StepDurationSixteenths()
    ensures StepDuration(120.0, "1/16") == Ok(0.125)
  {
    assert PyText.IntToString(16) == "16" by {
      assert PyText.NatToString(16) == PyText.NatToString(1) + [PyText.CharOf(6)];
    }
    assert "1" + "/" + PyText.IntToString(16) == "1/16";
    StepDurationOf(120.0, "1", 16);
    assert Seconds(120.0, 16) == 0.125;
  }

  /** Tempo 90 at "1/8" gives 1/3 s per step. */
  lemma StepDurationEighths()
    ensures StepDuration(90.0, "1/8") == Ok(1.0 / 3.0)
  {
    assert "1" + "/" + PyText.IntToString(8) == "1/8";
    StepDurationOf(90.0, "1", 8);
    assert Seconds(90.0, 8) == 1.0 / 3.0;
  }

  // ---------------------------------------------------------------------------
  // Dispatching a fired cell

  /** What `play_step_callback` does with one fired cell. */
  datatype Event =
    | Drum(outcome: Option<DrumKit.Outcome>)  // `play_track_step`; None: the track has no instrument
    | Synth(freq: real, duration: real, velocity: real, render: Result<Synth.Rendered, Synth.RenderError>)
    | DurationFailed(error: DurationError)     // `get_step_duration` raised
  {
    /** The callback raised an exception instead of returning. */
    predicate Raises() {
      DurationFailed? || (Synth? && render.Err?)
    }
  }

  /** The parts of the sequencer that the callback reads. */
  datatype Voices = Voices(kit: DrumKit.Kit, patch: Synth.Patch, tempo: real, resolution: string)

  /** The voices a freshly constructed sequencer hands to its callback: the empty kit and the lead patch. */
  function DefaultVoices(tempo: real, resolution: string): Voices {
    Voices(DrumKit.InitialKit(), Synth.SequencerPatch(), tempo, resolution)
  }

  /**
   * `play_step_callback`: tracks below 4 go to the drum kit; the others are
   * rendered with the note (default 60) as the frequency, the velocity
   * (default 1.0) and the current step duration. `samples` converts seconds
   * to a sample count.
   */
  function Dispatch(v: Voices, track: int, cell: Step, samples: real -> int): (e: Event)
    ensures track < 4 ==> e == Drum(DrumKit.PlayTrackStep(v.kit, track, DrumKit.StepFields(cell.variation, cell.velocity)))
    ensures track >= 4 && StepDuration(v.tempo, v.resolution).Err? ==> e == DurationFailed(StepDuration(v.tempo, v.resolution).error)
    ensures track >= 4 && StepDuration(v.tempo, v.resolution).Ok? ==>
      && e.Synth?
      && e.freq == cell.note.GetOr(60) as real
      && e.velocity == cell.velocity.GetOr(1.0)
      && e.duration == StepDuration(v.tempo, v.resolution).value
      && e.render == Synth.Render(v.patch, e.freq, e.duration, e.velocity, samples)
  {
    if track < 4 then
      Drum(DrumKit.PlayTrackStep(v.kit, track, DrumKit.StepFields(cell.variation, cell.velocity)))
    else
      var note := cell.note.GetOr(60);
      var velocity := cell.velocity.GetOr(1.0);
      match StepDuration(v.tempo, v.resolution)
      case Err(e) => DurationFailed(e)
      case Ok(duration) =>
        Synth(note as real, duration, velocity, Synth.Render(v.patch, note as real, duration, velocity, samples))
  }

  /** With the sequencer's own kit and patch, drum tracks never raise and every synth track raises. */
  lemma DispatchDefaultVoices(tempo: real, resolution: string, track: int, cell: Step, samples: real -> int)
    ensures var e := Dispatch(DefaultVoices(tempo, resolution), track, cell, samples);
      (track < 4 ==> !e.Raises() && (e.outcome.None? || e.outcome.value.NoSamples?))
      && (track >= 4 ==> e.Raises())
  {
    DrumKit.InitialKitIsSilent(track, DrumKit.StepFields(cell.variation, cell.velocity));
    match StepDuration(tempo, resolution)
    case Ok(d) =>
      var note := cell.note.GetOr(60) as real;
      Synth.SequencerPatchFails(note, d, cell.velocity.GetOr(1.0), samples);
    case Err(_) =>
  }

  // ---------------------------------------------------------------------------
  // Persistence

  /** The document `save_to_file` writes and `load_from_file` reads (the JSON text itself is not modelled). */
  datatype Document = Document(steps: int, tempo: real, resolution: string, pattern: seq<seq<Step>>, trackNames: seq<string>)

  // ---------------------------------------------------------------------------
  // The sequencer object

  class StepSequencer {
    var steps: int
    var tempo: real
    var resolution: string
    var pattern: seq<seq<Step>>
    var trackNames: seq<string>
    var drumkit: DrumKit.Kit
    var synthPatch: Synth.Patch

    /** The shape the constructor gives: 8 tracks of `steps` cells each. */
    ghost predicate Valid()
      reads this
    {
      steps >= 0 && |pattern| == NumTracks && Rectangular(pattern, steps)
    }

    /** `StepSequencer(steps=16, tempo=120, resolution="1/16")`: a grid of default cells, the default names, an empty kit and the lead patch. */
    constructor (steps: int := 16, tempo: real := 120.0, resolution: string := "1/16")
      ensures this.steps == steps && this.tempo == tempo && this.resolution == resolution
      ensures pattern == FreshPattern(steps) && trackNames == DefaultTrackNames
      ensures drumkit == DrumKit.InitialKit() && synthPatch == Synth.SequencerPatch()
      ensures CurrentVoices() == DefaultVoices(tempo, resolution)
      ensures steps >= 0 ==> Valid()
    {
      this.steps := steps;
      this.tempo := tempo;
      this.resolution := resolution;
      pattern := FreshPattern(steps);
      trackNames := DefaultTrackNames;
      drumkit := DrumKit.InitialKit();
      synthPatch := Synth.SequencerPatch();
    }

    /** `toggle_step`: flips `on` of one cell; nothing else changes. */
    method ToggleStep(track: nat, step: nat)
      requires track < |pattern| && step < |pattern[track]|
      modifies this`pattern
      ensures pattern == Toggled(old(pattern), track, step)
      ensures old(Valid()) ==> Valid()
    {
      pattern := Toggled(pattern, track, step);
    }

    /** `set_note`: stores `note` in one cell; nothing else changes. */
    method SetNote(track: nat, step: nat, note: int)
      requires track < |pattern| && step < |pattern[track]|
      modifies this`pattern
      ensures pattern == WithNote(old(pattern), track, step, note)
      ensures old(Valid()) ==> Valid()
    {
      pattern := WithNote(pattern, track, step, note);
    }

    /** `get_step_duration` on the current tempo and resolution. */
    function GetStepDuration(): (r: Result<real, DurationError>)
      reads this
      ensures r == Err(ZeroTempo) <==> tempo == 0.0
      ensures r.Ok? ==>
        && tempo != 0.0 && Subdivision(resolution).Ok? && Subdivision(resolution).value != 0
        && r.value == Seconds(tempo, Subdivision(resolution).value)
    {
      StepDuration(tempo, resolution)
    }

    /** What `play_step_callback` reads. */
    function CurrentVoices(): Voices
      reads this
    {
      Voices(drumkit, synthPatch, tempo, resolution)
    }

    /** `save_to_file`: the document of the five persisted fields. */
    function SaveToFile(): (d: Document)
      reads this
      ensures d.steps == steps && d.tempo == tempo && d.resolution == resolution
      ensures d.pattern == pattern && d.trackNames == trackNames
    {
      Document(steps, tempo, resolution, pattern, trackNames)
    }

    /**
     * `load_from_file`: a new sequencer built from the document's steps, tempo
     * and resolution whose pattern and names are then replaced by the
     * document's. Saving it again gives back the same document.
     */
    static method LoadFromFile(doc: Document) returns (s: StepSequencer)
      ensures fresh(s)
      ensures s.SaveToFile() == doc
      ensures s.drumkit == DrumKit.InitialKit() && s.synthPatch == Synth.SequencerPatch()
      ensures s.CurrentVoices() == DefaultVoices(doc.tempo, doc.resolution)
    {
      s := new StepSequencer(doc.steps, doc.tempo, doc.resolution);
      s.pattern := doc.pattern;
      s.trackNames := doc.trackNames;
    }
  }

  /** Saving and loading reproduces steps, tempo, resolution, pattern and names exactly. */
  method SaveThenLoad(original: StepSequencer) returns (loaded: StepSequencer)
    ensures fresh(loaded)
    ensures loaded.steps == original.steps && loaded.tempo == original.tempo
    ensures loaded.resolution == original.resolution
    ensures loaded.pattern == original.pattern && loaded.trackNames == original.trackNames
    ensures original.Valid() ==> loaded.Valid()
  {
    loaded := StepSequencer.LoadFromFile(original.SaveToFile());
  }
}
