/**
 * The drum voice player: maps a percussive track to its instrument, picks a
 * pre-loaded sample by variation and reports what would be played.
 */
module DrumKit {
  import opened Wrappers

  /** One pre-loaded sample: its amplitudes and its sample rate. */
  datatype Sample = Sample(audio: seq<int>, rate: int)

  /** Per-instrument sample lists and the number of variations per instrument. */
  datatype Kit = Kit(samples: map<string, seq<Sample>>, variations: int)

  /** What one call of `play` does; only `Play` submits audio to the output device. */
  datatype Outcome =
    | NoSamples(inst: string)                  // "No samples for ..."
    | NotLoaded(inst: string, variation: int)  // "Variation ... not loaded for ..."
    | Play(inst: string, index: nat, velocity: real, rate: int)

  /** The cell fields `play_track_step` reads; a missing key is None. */
  datatype StepFields = StepFields(variation: Option<int>, velocity: Option<real>)

  const Instruments: seq<string> := ["kick", "snare", "hat", "perc"]

  /** The kit as constructed: four instruments, none of them loaded, five variations. */
  function InitialKit(): (k: Kit)
    ensures forall inst :: inst in k.samples <==> inst in Instruments
    ensures forall inst :: inst in k.samples ==> k.samples[inst] == []
    ensures k.variations == 5
  {
    Kit(map["kick" := [], "snare" := [], "hat" := [], "perc" := []], 5)
  }

  function Max(a: int, b: int): int { if a >= b then a else b }
  function Min(a: int, b: int): int { if a <= b then a else b }

  /**
   * `max(0, min(variations - 1, variation))`: a variation in `[0, variations - 1]`
   * (always 0 when there are no variations), and an in-range one is kept.
   */
  function ClampVariation(variations: int, variation: int): (v: int)
    ensures 0 <= v
    ensures variations >= 1 ==> v <= variations - 1
    ensures variations < 1 ==> v == 0
    ensures 0 <= variation <= variations - 1 ==> v == variation
    ensures variation < 0 ==> v == 0
    ensures variations >= 1 && variation > variations - 1 ==> v == variations - 1
  {
    Max(0, Min(variations - 1, variation))
  }

  /** Clamping twice is clamping once. */
  lemma ClampVariationIdempotent(variations: int, variation: int)
    ensures ClampVariation(variations, ClampVariation(variations, variation)) == ClampVariation(variations, variation)
  {
  }

  /** The instrument bound to a track: tracks 0 to 3 only. */
  function InstrumentOf(track: int): (r: Option<string>)
    ensures r.Some? <==> 0 <= track < 4
    ensures r.Some? ==> r.value == Instruments[track]
  {
    if track == 0 then Some("kick")
    else if track == 1 then Some("snare")
    else if track == 2 then Some("hat")
    else if track == 3 then Some("perc")
    else None
  }

  /** `DrumKit.play`: pick the clamped variation of `inst` if it is loaded. */
  function PlayOutcome(kit: Kit, inst: string, variation: int, velocity: real): (o: Outcome)
    ensures o.NoSamples? <==> inst !in kit.samples || kit.samples[inst] == []
    ensures o.NotLoaded? ==>
      (o.variation == ClampVariation(kit.variations, variation)
       && inst in kit.samples && o.variation >= |kit.samples[inst]|)
    ensures o.Play? ==>
      (inst in kit.samples && o.index < |kit.samples[inst]|
       && o.index == ClampVariation(kit.variations, variation)
       && o.velocity == velocity && o.rate == kit.samples[inst][o.index].rate)
    ensures o.Play? <==> inst in kit.samples && ClampVariation(kit.variations, variation) < |kit.samples[inst]|
    ensures o.inst == inst
  {
    if inst !in kit.samples || kit.samples[inst] == [] then NoSamples(inst)
    else
      var v := ClampVariation(kit.variations, variation);
      if v >= |kit.samples[inst]| then NotLoaded(inst, v)
      else Play(inst, v, velocity, kit.samples[inst][v].rate)
  }

  /** `DrumKit.play_track_step`: None when the track has no instrument, otherwise the outcome of `play`. */
  function PlayTrackStep(kit: Kit, track: int, step: StepFields): (r: Option<Outcome>)
    ensures r.None? <==> !(0 <= track < 4)
    ensures r.Some? ==> r.value == PlayOutcome(kit, Instruments[track], step.variation.GetOr(0), step.velocity.GetOr(1.0))
  {
    match InstrumentOf(track)
    case None => None
    case Some(inst) => Some(PlayOutcome(kit, inst, step.variation.GetOr(0), step.velocity.GetOr(1.0)))
  }

  /** Whenever a sample is chosen its index is in `[0, 4]` for the constructed kit's five variations. */
  lemma PlayIndexBounded(kit: Kit, inst: string, variation: int, velocity: real)
    requires kit.variations == 5
    ensures var o := PlayOutcome(kit, inst, variation, velocity);
      o.Play? ==> o.index <= 4 && o.index < |kit.samples[inst]|
  {
  }

  /** The kit as constructed never plays: every track yields no action or "no samples". */
  lemma InitialKitIsSilent(track: int, step: StepFields)
    ensures var r := PlayTrackStep(InitialKit(), track, step);
      r.None? || r.value.NoSamples?
  {
  }
}
