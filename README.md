# PsyferBeat core in Dafny

PsyferBeat is a terminal step sequencer. This project models the parts of it that carry discrete logic, and proves properties of those models:

- The pattern store (`sequencer.dfy`): an 8-track grid of step cells that the editor changes in place. It also holds the step duration derived from tempo and resolution, which voice a fired cell goes to, and the save/load field round-trip.
- The drum voice player (`drumkit.dfy`): the instrument bound to a track, the variation clamp, and the check that a sample is loaded. Each call's outcome is returned as a value.
- The terminal editor (`tui.dfy`):
  - the cursor, with wrap-around;
  - the edit mode that collects typed characters into a buffer;
  - `commit_edit`, which parses, clamps and writes;
  - the playback loop, which fires the sequencer's callback for every active cell, step by step.
- The structural part of the voice synthesizer (`synth.dfy`):
  - the oscillator lookup;
  - patch defaults;
  - ADSR segment and output lengths, with numpy's broadcasting rule for the final product;
  - the one-pole low-pass recurrence;
  - which error, if any, rendering a voice raises.
- Python text built-ins the core relies on (`pytext.dfy`): `str.strip`, `str.split`, `int(...)`, `float(...)` and `str(int)`.
- `wrappers.dfy`: an `Option`/`Result` pair.

The sequencer and the editor are classes whose methods update their fields in place: `StepSequencer.ToggleStep`, `StepSequencer.SetNote`, `TUISequencer.HandleKey`, `TUISequencer.CommitEdit` and `TUISequencer.RunPlayback`. Each method is proved against a pure specification function (`Toggled`, `WithNote`, `React`, `Committed`, `Delivered`), and the lemmas state what the source promises about those functions. `Synth.LowpassFilter` is the index loop of `lowpass_filter`, proved equal to the recurrence `Lowpass`.

### Modelling choices

- A cell is `Step(on, note, velocity, variation)`. `on` is an integer, because `toggle_step` flips it with `^ 1`. The other three keys are `Option` values, so that a loaded pattern with a key missing takes the `.get` default.
- Tempo and durations are `real`: exact rational arithmetic, not IEEE floats.
- Python's `%` with a positive modulus agrees with Dafny's `%`, so the cursor arithmetic is written with `%` directly.
- Every exception the source can raise on the modelled paths is an error value:
  - `get_step_duration`: a zero tempo, no `/`, a denominator that is not an integer, or a zero denominator;
  - `wave_map`: a `KeyError`;
  - `linspace` in `sine_wave` and `saw_wave`: a negative sample count (`NegativeLength`);
  - `apply_adsr`: a negative segment or a length mismatch;
  - the peak of an empty signal;
  - `lowpass_filter`: a zero cutoff, which divides by zero in `1.0 / (2 * pi * cutoff)`.
- The source's error branches are modelled as error values, not as preconditions:
  - `commit_edit`'s `except: pass` leaves the pattern untouched when the text does not parse;
  - a callback that raises ends the playback thread at that trigger. `Cut` models this.
- A negative step duration makes `time.sleep` raise after the first column of the first pass. `Delivered` and `TUISequencer.PlayLoop` model this.
- The stop request from the key-handling thread is given as two parameters. `passes` is the number of whole passes played. `stopAt` is the column before which `playing` was seen to be false.
- `RunPlayback` takes the callback's outcome as a parameter `raises`:
  - `Tui.Callback` is the predicate the sequencer's real callback gives;
  - `Tui.DefaultCallbackRaises` shows that, with the constructed kit and patch, it raises exactly on the synth tracks;
  - `Tui.DefaultDelivery` shows that such a playback delivers drum triggers only, up to and including the first synth trigger.

### Behaviour of the code worth knowing

- `apply_adsr` slices the signal to the envelope's length and multiplies element-wise. This raises unless the lengths agree or one side has length 1 (`Synth.AdsrOverlong`).
- The `l` key is caught by the cursor-right branch first, so the load branch of the key loop never runs (`Tui.LoadUnreachable`).
- `generate_synth_sample` divides by the signal's peak without a guard. An empty signal raises in `np.max` (`Synth.RenderSucceeds`).
- `playback_loop` computes the step duration once, before the loop, and then sleeps that fixed time after every step. No lock guards the shared pattern (`Tui.TUISequencer.RunPlayback`).
- The sequencer's patch names `"square"` as its second oscillator, which `wave_map` does not know. So every active synth cell makes the callback raise, and that ends the playback thread (`Synth.SequencerPatchFails`, `Sequencer.DispatchDefaultVoices`, `Tui.DefaultDelivery`).

## Model

| member | source | states |
|---|---|---|
| Sequencer.FreshPattern | sequencer.py:11 | the fresh grid has 8 tracks of exactly `steps` cells, each `{on 0, note 60, velocity 1.0, variation 0}` |
| Sequencer.StepSequencer.constructor | sequencer.py:7-28 | steps, tempo and resolution are as given, defaulting to 16, 120 and `"1/16"`; the grid is the fresh grid; there are the 8 default track names, an empty kit and the lead patch; its callback reads the voices `DefaultVoices(tempo, resolution)`; the object is well formed for `steps >= 0` |
| Sequencer.XorOneInvolution | sequencer.py:31 | `x ^ 1` twice is `x`; it maps 0 to 1 and 1 to 0 and nothing else to either; it always changes the value and keeps the bits above the lowest |
| Sequencer.XorOne | sequencer.py:31 | `x ^ 1` changes the parity of `x` and keeps `x / 2`: only the lowest bit flips |
| Sequencer.Toggled | sequencer.py:30-31 | the grid after `toggle_step`: same shape, the addressed cell with `on ^ 1`, every other cell unchanged |
| Sequencer.WithNote | sequencer.py:33-34 | the grid after `set_note`: same shape, the addressed cell with the new note and its other fields kept, every other cell unchanged |
| Sequencer.WithCell | sequencer.py:31-34 | writing one cell gives a grid of the same shape in which only that cell differs |
| Sequencer.ToggledOnlyCell | sequencer.py:30-31 | toggling changes only `on` of the addressed cell, keeps the shape, and toggling twice restores the grid |
| Sequencer.StepSequencer.ToggleStep | sequencer.py:30-31 | the new grid is `Toggled(old grid, track, step)`; steps, tempo, resolution and names do not change |
| Sequencer.StepSequencer.SetNote | sequencer.py:33-34 | the new grid is the old one with only that cell's note replaced; nothing else changes |
| Sequencer.Subdivision | sequencer.py:38 | `int(resolution.split("/")[1])` fails only as IndexError or ValueError |
| Sequencer.StepDuration | sequencer.py:36-39 | fails with ZeroDivisionError exactly for tempo 0; succeeds exactly when the tempo is non-zero and the denominator parses to a non-zero integer, and the value is then `(60 / tempo) * (4 / d)` for that integer `d` |
| Sequencer.SubdivisionOf | sequencer.py:38 | `num/d` with no `/` in `num` has subdivision `d` |
| Sequencer.StepDurationOf | sequencer.py:36-39 | `num/d` gives `(60 / tempo) * (4 / d)` seconds |
| Sequencer.StepDurationNeedsSlash | sequencer.py:38 | a resolution without `/` fails with IndexError |
| Sequencer.SubdivisionIgnoresNumerator | sequencer.py:38 | only the text after the first `/` matters |
| Sequencer.StepDurationSixteenths | sequencer.py:36-39 | tempo 120 at "1/16" gives 1/8 s |
| Sequencer.StepDurationEighths | sequencer.py:36-39 | tempo 90 at "1/8" gives 1/3 s |
| Sequencer.StepSequencer.GetStepDuration | sequencer.py:36-39 | on the sequencer's own tempo and resolution: ZeroDivisionError exactly for tempo 0, otherwise `(60 / tempo) * (4 / d)` whenever it succeeds |
| Sequencer.Dispatch | sequencer.py:41-49 | tracks below 4 go to `play_track_step` with the cell's variation and velocity; the others either raise the duration error or are rendered at the note (default 60) as frequency, with velocity (default 1.0) and the current step duration |
| Sequencer.DispatchDefaultVoices | sequencer.py:41-49 | with the constructed kit and patch, drum tracks never raise and never play, and every synth track raises |
| Sequencer.StepSequencer.SaveToFile | sequencer.py:51-59 | the saved document carries steps, tempo, resolution, pattern and track names as they are; the kit and the patch are not saved |
| Sequencer.StepSequencer.LoadFromFile | sequencer.py:61-68 | a fresh sequencer whose saved document is the loaded one, with the constructed kit and patch, so its callback reads `DefaultVoices` of the loaded tempo and resolution |
| Sequencer.DefaultVoices | sequencer.py:13-28 | the kit and patch a constructed sequencer hands to `play_step_callback`; what they do is stated by DispatchDefaultVoices |
| Sequencer.SaveThenLoad | sequencer.py:51-68 | save then load reproduces steps, tempo, resolution, pattern and track names exactly, and keeps the grid well formed |
| DrumKit.InitialKit | drumkit.py:5-10 | the kit has exactly the four instruments, each with an empty sample list, and five variations |
| DrumKit.ClampVariation | drumkit.py:25 | the variation lies in `[0, variations - 1]` (0 when there are none); an in-range value is kept, a negative one becomes 0 and one above the range becomes `variations - 1` |
| DrumKit.ClampVariationIdempotent | drumkit.py:25 | clamping twice is clamping once |
| DrumKit.InstrumentOf | drumkit.py:13-16 | exactly tracks 0 to 3 have an instrument: kick, snare, hat, perc |
| DrumKit.PlayOutcome | drumkit.py:21-31 | "no samples" exactly for an unknown or empty instrument; a sample is played exactly when the clamped variation is loaded, and then at that index, with the given velocity and the sample's rate; otherwise the outcome is "not loaded" with the clamped variation |
| DrumKit.PlayTrackStep | drumkit.py:12-19 | no action exactly outside tracks 0 to 3; otherwise `play` with variation defaulting to 0 and velocity to 1.0 |
| DrumKit.PlayIndexBounded | drumkit.py:25-29 | with five variations a played index is at most 4 and inside the sample list |
| DrumKit.InitialKitIsSilent | drumkit.py:7-24 | the constructed kit never plays anything |
| Synth.Resolve | synth.py:37-62 | key by key, for any patch: a present key is used as given and a missing one takes its default (oscillators sine/sine, levels 0.7/0.3, ADSR 0.01/0.2/0.8/0.3 both for a missing `adsr` and for each missing key inside it, cutoff 1000, volume 0.8) |
| Synth.ResolveDefaults | synth.py:37-62 | missing keys take sine/sine, 0.7/0.3, ADSR 0.01/0.2/0.8/0.3, cutoff 1000 and volume 0.8 |
| Synth.WaveMap | synth.py:42-47 | only "sine" and "sawtooth" are found; every other kind fails |
| Synth.ApplyAdsr | synth.py:12-25 | a negative segment raises exactly when one of attack, decay or release is negative; a result is never longer than its envelope, and for a signal of 2 or more samples it is exactly as long as the signal and the envelope |
| Synth.AdsrSegments | synth.py:13-24 | the sustain length is `max(0, n - a - d - r)`, never negative, and the envelope length is `a + d + sustain + r` |
| Synth.AdsrFits | synth.py:17-25 | when `a + d + r <= n`, the envelope and the result are exactly `n` samples long |
| Synth.AdsrOverlong | synth.py:17-25 | when `a + d + r > n`, the product raises for `n >= 2`; for one sample it broadcasts to the envelope's length |
| Synth.AdsrNegative | synth.py:14-24 | a negative segment length makes `linspace` raise |
| Synth.Lowpass | synth.py:27-34 | the filtered signal is as long as the input |
| Synth.LowpassPrefix | synth.py:31-33 | filtering a prefix gives the same prefix of the filtered signal |
| Synth.LowpassRecurrence | synth.py:31-33 | the output starts at 0 and follows `out[i] = out[i-1] + alpha * (in[i] - out[i-1])` |
| Synth.LowpassIgnoresFirst | synth.py:31-33 | the first input sample is never read |
| Synth.LowpassFilter | synth.py:27-34 | the zeroed buffer filled by the index loop equals the recurrence |
| Synth.Render | synth.py:36-66 | an unknown first oscillator is the first error; ZeroCutoff only for a zero cutoff; a successful render has the patch's non-zero cutoff and gain `volume * velocity` |
| Synth.RenderSucceeds | synth.py:36-66 | a render succeeds only with two known kinds, a non-empty signal and a non-zero cutoff, and the result is never empty |
| Synth.RenderLength | synth.py:36-66 | with known kinds, a non-zero cutoff and enough samples for the envelope, the render is exactly `int(sr * duration)` long |
| Synth.SequencerPatch | sequencer.py:14-27 | the lead patch sets every key the renderer reads: sawtooth 0.6 and square 0.4, ADSR 0.01/0.2/0.8/0.3, cutoff 1200 and volume 0.9, so no default applies |
| Synth.SequencerPatchFails | synth.py:42-47 | the sequencer's own patch always fails to render, with KeyError "square" for a non-negative length |
| PyText.DigitOf | tui.py:133 | a digit character denotes a value below 10 |
| PyText.CharOf | tui.py:133 | the character for a value below 10 is a digit denoting it |
| PyText.StripLeft | tui.py:131 | only leading whitespace is removed, and the result is a suffix that does not start with whitespace |
| PyText.StripRight | tui.py:131 | only trailing whitespace is removed, and the result is a prefix that does not end with whitespace |
| PyText.StripSlice | tui.py:131 | `strip` returns a slice of its argument bordered only by whitespace and not itself bordered by whitespace |
| PyText.StripTrimmed | tui.py:131 | text without surrounding whitespace is kept |
| PyText.StripIdempotent | tui.py:131 | stripping twice is stripping once |
| PyText.Strip | tui.py:131 | `str.strip`; its properties are stated by StripSlice, StripTrimmed and StripIdempotent |
| PyText.Split | sequencer.py:38 | `split` gives at least one piece, and no piece holds the separator |
| PyText.SplitJoin | sequencer.py:38 | the pieces joined with the separator give back the text |
| PyText.SplitHasSecond | sequencer.py:38 | there is a piece `[1]` exactly when the separator occurs |
| PyText.SplitFirstPieces | sequencer.py:38 | piece 0 is the text before the first separator, and piece 1 starts right after it |
| PyText.NatToString | tui.py:133 | `str(n)` is a non-empty run of digits without a leading zero |
| PyText.NatToStringValue | tui.py:133 | the digits of `str(n)` read back as `n` |
| PyText.ParseInt | tui.py:133 | `int(text)`; its properties are stated by ParseIntRoundTrip and ParseIntNeedsDigit |
| PyText.ParseIntRoundTrip | tui.py:133 | `int(str(n)) == n` for every integer |
| PyText.ParseIntNeedsDigit | tui.py:133 | text without a digit raises ValueError |
| PyText.Pow10 | tui.py:136 | a power of ten is at least 1 |
| PyText.FirstIn | tui.py:136 | the first position holding one of the characters, or none |
| PyText.Mantissa | tui.py:136 | a decimal mantissa is non-negative |
| PyText.UnsignedDecimal | tui.py:136 | an unsigned decimal with an exponent is non-negative; its value is stated by UnsignedDigits, MantissaPoint, SignedExponent and BareExponent |
| PyText.Scaled | tui.py:136 | scaling a non-negative mantissa by a power of ten keeps it non-negative |
| PyText.FirstInAfter | tui.py:136 | after a part free of the characters, the first of them is found at the part's end |
| PyText.MantissaChars | tui.py:136 | a mantissa holds only digits and points |
| PyText.SignedExponent | tui.py:136 | a mantissa followed by `e-d` is divided by `10^d`, and one followed by `e+d` is multiplied by it |
| PyText.BareExponent | tui.py:136 | a mantissa followed by `ed` is multiplied by `10^d` |
| PyText.ParseFloatNegativeExponent | tui.py:136 | `float("5e-1") == 0.5` |
| PyText.FirstInDigits | tui.py:136 | a run of digits holds none of the non-digit characters |
| PyText.UnsignedDigits | tui.py:136 | a run of digits reads as that integer |
| PyText.ParseFloatOfInt | tui.py:136 | `float(str(n)) == n` for every integer |
| PyText.FirstInAfterDigits | tui.py:136 | after a run of digits, the first non-digit is found at the run's end |
| PyText.MantissaPoint | tui.py:136 | `w.f` has value `w + f / 10^len(f)` |
| PyText.ParseFloatDecimal | tui.py:136 | `float("w.f")` is `w + f / 10^len(f)` |
| PyText.PointHalf | tui.py:136 | the digits 0 and 5 around a point have value 0.5 |
| PyText.ParseFloat | tui.py:136 | `float(text)`; its properties are stated by ParseFloatOfInt, ParseFloatDecimal, ParseFloatHalf and ParseFloatNegativeExponent |
| PyText.ParseFloatHalf | tui.py:136 | `float("0.5") == 0.5` |
| Wrappers.Option.GetOr | drumkit.py:17-18 | `.get(key, default)`: the value when present, the default otherwise |
| Tui.ClampVelocity | tui.py:137 | a velocity in `[0, 1]`: kept when inside, 0 below, 1 above |
| Tui.ClampEditVariation | tui.py:141 | a variation in `[0, 4]`: kept when inside, 0 below, 4 above |
| Tui.ParsedEdit | tui.py:131-141 | strip, parse for the mode's field and clamp; its properties are stated by CommittedValues |
| Tui.Applied | tui.py:134-142 | writing a parsed edit sets exactly the one field of the cursor's cell (note, velocity or variation) to the edit's value and keeps the shape and every other cell |
| Tui.Committed | tui.py:129-144 | the grid after `commit_edit`; its properties are stated by CommittedOnlyField, CommittedValues and CommittedShape |
| Tui.CommittedOnlyField | tui.py:129-144 | a commit changes at most the one field that the mode names, of the cursor's cell, and never the grid's shape |
| Tui.CommittedValues | tui.py:131-144 | a parsed note is stored unclamped, a parsed velocity clamped to [0,1], and a parsed variation clamped to [0,4]; text that fails to parse leaves the grid unchanged |
| Tui.CommittedShape | tui.py:129-144 | a commit keeps every track `steps` long |
| Tui.ReadEdit | tui.py:131-141 | the statements of the `try` block that `TUISequencer.CommitEdit` runs compute exactly `ParsedEdit`, so the method writes what `Committed` specifies |
| Tui.TUISequencer.constructor | tui.py:6-13 | the cursor is at (0, 0), not playing, not editing, with an empty buffer |
| Tui.TUISequencer.ApplyEdit | tui.py:134-142 | the grid is the old one with the edit written into the cursor's cell; the shape is kept |
| Tui.TUISequencer.CommitEdit | tui.py:129-146 | the grid is `Committed(old grid, mode, buffer, cursor)`; afterwards the mode is None and the buffer empty, whether or not the text parsed; the cursor and `playing` are unchanged |
| Tui.EditKey | tui.py:73-80 | in edit mode the cursor stays on a cell and the grid keeps its shape |
| Tui.CommandKey | tui.py:81-126 | outside edit mode the cursor stays on a cell and the grid keeps its shape |
| Tui.React | tui.py:71-127 | one key of the main loop keeps the cursor on the grid and the grid's shape |
| Tui.TUISequencer.HandleKey | tui.py:71-127 | the new editor state, grid and outcome are those of `React` for the key |
| Tui.TUISequencer.HandleEditKey | tui.py:73-80 | the new state, grid and outcome are those of `EditKey` |
| Tui.TUISequencer.HandleCommandKey | tui.py:81-126 | the new state, grid and outcome are those of `CommandKey` |
| Tui.WrapStep | tui.py:101-107 | Python's `%` steps one place forward or back with wrap-around |
| Tui.CursorWraps | tui.py:100-107 | right, left, down and up move the cursor by one with wrap-around (left from column 0 goes to `steps - 1`), and nothing else changes |
| Tui.LoadUnreachable | tui.py:100-126 | outside edit mode `l` acts as cursor-right, so no key ever loads |
| Tui.EditModeKeys | tui.py:73-80 | Enter commits, and Esc clears the mode and the buffer; codes 32 to 126 are appended; any other code changes nothing |
| Tui.CommandKeyGrid | tui.py:82-126 | outside edit mode only space changes the grid, toggling exactly the cursor's cell, and then nothing else changes |
| Tui.CommandKeyModes | tui.py:82-120 | no key means idle; `q` clears `playing` and quits; `p` flips `playing` and starts or stops playback; `n`, `v` and `b` enter the note, velocity or variation edit with an empty buffer; `s` saves; none of them moves the cursor or changes the grid |
| Tui.Callback | tui.py:56-57 | the thread's view of `play_step_callback`: whether the call for a trigger's track and cell raises; what it does with the constructed voices is stated by DefaultCallbackRaises |
| Tui.DefaultCallbackRaises | tui.py:56-57 | with the constructed kit and patch, the callback raises exactly on tracks 4 and up: drums never raise, synth tracks always do |
| Tui.DefaultDelivery | tui.py:53-57 | with the constructed kit and patch, playback delivers a prefix of the schedule: drum triggers, then the first synth trigger (if any), where the thread ends; a schedule with no synth trigger is delivered whole |
| Tui.ColumnFrom | tui.py:53-57 | the triggers of one column in track order; its properties are stated by ColumnFromActive, ColumnFromOrdered and ColumnFromComplete |
| Tui.PassFrom | tui.py:48-57 | the triggers of a run of columns; its properties are stated by PassFromFacts and OnePass |
| Tui.Schedule | tui.py:47-57 | the triggers of whole passes and then a pass stopped before column `stopAt`; its properties are stated by SessionPass and TUISequencer.PlaySession |
| Tui.Cut | tui.py:56-57 | the schedule up to the first raising callback; its properties are stated by CutFacts, CutCons and CutAppend |
| Tui.Delivered | tui.py:45-59 | what playback delivers for a given step duration; it is the contract of TUISequencer.PlayLoop and TUISequencer.RunPlayback |
| Tui.ColumnFromActive | tui.py:53-57 | a column fires only active cells of that column, with their cells |
| Tui.ColumnFromOrdered | tui.py:53 | a column fires in increasing track order |
| Tui.ColumnFromComplete | tui.py:53-57 | every active cell of the column is fired |
| Tui.InOrderAppend | tui.py:48-57 | ordered runs joined in order stay ordered |
| Tui.PassFromFacts | tui.py:48-57 | a run of columns fires exactly the active cells in those columns, ordered by step and then track |
| Tui.OnePass | tui.py:48-57 | one whole pass fires exactly the grid's active cells, ordered by step and then by track |
| Tui.CutCons | tui.py:57 | a trigger that does not raise is followed by the rest; one that raises ends delivery |
| Tui.CutFacts | tui.py:57 | with no raise everything is delivered; otherwise delivery is a prefix ending at the first raising trigger |
| Tui.NoneRaiseTail | tui.py:57 | "no trigger raises" splits at the first trigger |
| Tui.CutAppendQuiet | tui.py:57 | a part with no raise is delivered whole and delivery continues |
| Tui.CutAppendLoud | tui.py:57 | after a raising part nothing more is delivered |
| Tui.CutAppend | tui.py:57 | delivery of a joined schedule, by cases |
| Tui.NoneRaiseAppend | tui.py:57 | "no trigger raises" holds for a join exactly when it holds for both parts |
| Tui.PassColumn | tui.py:48-57 | taking one more column extends the pass fired so far |
| Tui.SessionPass | tui.py:47-57 | a session delivers its first pass and, if nothing in it raised, the rest |
| Tui.FireColumn | tui.py:53-57 | the loop over tracks fires the column's triggers until the first raise, and reports whether one raised |
| Tui.TUISequencer.FirePass | tui.py:48-58 | the step loop of one pass fires that pass until the first raise; `play_cursor` is at the raising step |
| Tui.TUISequencer.PlaySession | tui.py:47-58 | the triggers fired are the schedule up to the first raise; `play_cursor` is the raising step, or None after a normal stop |
| Tui.TUISequencer.PlayLoop | tui.py:46-59 | with the step duration fixed, the triggers fired are `Delivered`: the first column only, then a raise, for a negative duration; the session otherwise |
| Tui.TUISequencer.RunPlayback | tui.py:44-59 | the duration is computed once. If that raises, no trigger fires and `play_cursor` is untouched. Otherwise the triggers fired are `Delivered` for that duration, and `play_cursor` ends as follows: 0 after a negative sleep, the raising step after a callback raised, None after a normal stop |

## Left out

- Curses drawing, terminal setup and the title and status lines (tui.py:15-42, 62-69, 127). They only paint the screen; the `draw` calls inside `playback_loop` are not modelled either.
- Threads, `join` and `time.sleep` pacing (tui.py:58, 83, 87-99). The stop request that `p` or `q` sends to the playback thread is modelled only as the two parameters `passes` and `stopAt` of `RunPlayback`. Edits made during playback are not modelled: the pattern is read as one snapshot.
- `sounddevice` output and the `print` diagnostics (synth.py:68-69, drumkit.py:23, 27, 31). They are foreign I/O, represented only by the returned outcomes.
- Floating-point signal processing: oscillator sample values, `linspace` ramp values, `pi` in `alpha`, peak normalisation, and int16 quantisation and `astype` (synth.py:4-10, 28-30, 50, 63-65, drumkit.py:30). The filter takes `alpha` as given, and rendering yields lengths and gain only.
- Synth.Render: `int(sr * seconds)` is a parameter `samples`, not computed, because it truncates a float product.
- Synth.Render: a negative cutoff for which `rc + dt` is exactly zero would also raise ZeroDivisionError in `lowpass_filter`. This depends on the floating-point value of pi and is not modelled.
- Sequencer.StepSequencer.LoadFromFile and SaveToFile: the JSON text and the file handles are not modelled; both work on a `Document` value. Nor are I/O failures, or a document with missing keys or wrong types.
- The `Synth` class that sequencer.py imports and constructs (sequencer.py:4, 28) does not exist in synth.py. The model reads `self.synth.patch` as the sequencer's `synth_patch`.
- Unused patch keys (filter type, resonance, LFO, name) have no behaviour and are omitted from `Synth.Patch`.
- Tui.TUISequencer.constructor requires a well-formed sequencer with `steps > 0`. With zero steps the source's cursor keys divide by zero, and that path is not modelled.
- Tui.TUISequencer.RunPlayback takes the callback's outcome as a parameter `raises`, not the sequencer's voices. What the constructed voices make of it is stated apart, by `Tui.DefaultCallbackRaises` and `Tui.DefaultDelivery`.
- Tui.CommandKey: the `s` key yields the outcome `Save` and leaves the grid alone. The document written is `StepSequencer.SaveToFile`.
- PyText.ParseInt: no limit on the number of digits; Python 3.11 and later raise ValueError for more than 4300 digits.
- PyText.ParseFloat: no `inf`, `nan`, digit underscores or rounding to the nearest double; the value is the exact decimal.
- PyText.Strip: only ASCII whitespace counts; the Unicode spaces that Python also strips are not recognised.
- PyText.ParseInt and PyText.ParseFloat accept only ASCII digits, whereas Python's `int()` and `float()` also accept other Unicode decimal digits. The edit buffer holds only codes 32 to 126, so this never matters for `commit_edit`.
- Negative list indices and IndexError for out-of-range tracks or steps in `toggle_step` and `set_note` are not modelled. Their callers keep the indices on the grid.
