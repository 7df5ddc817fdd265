/**
 * The terminal editor: a cursor over the grid, an edit mode that collects a
 * typed value into a buffer and commits it to the cursor's cell, and the
 * playback loop that walks the pattern step by step and fires the sequencer's
 * callback for every active cell.
 */
module Tui {
  import opened Wrappers
  import PyText
  import opened Sequencer

  // ---------------------------------------------------------------------------
  // Key codes (curses)

  const KeyErr := -1      // `getch` in no-delay mode with no key pressed
  const KeyDown := 258
  const KeyUp := 259
  const KeyLeft := 260
  const KeyRight := 261

  function Ord(c: char): int { c as int }

  // ---------------------------------------------------------------------------
  // Editor state

  /** Which field a typed value is for; `NoEdit` is Python's `None`. */
  datatype EditMode = NoEdit | EditNote | EditVelocity | EditVariation

  /** The editor's own fields. */
  datatype EditorState = EditorState(cursorTrack: int, cursorStep: int, playing: bool, editMode: EditMode, inputBuffer: string)

  /** What the main loop does after a key besides updating the state. */
  datatype KeyOutcome =
    | Continue      // redraw and read the next key
    | Idle          // no key: sleep briefly, skip the redraw
    | Quit          // leave the main loop
    | StartPlayback // start the playback thread
    | StopPlayback  // wait for the playback thread to end
    | Save          // write the sequencer's document to "pattern.json"
    | Load          // read "pattern.json" back

  datatype Reaction = Reaction(editor: EditorState, pattern: seq<seq<Step>>, outcome: KeyOutcome)

  function MaxReal(a: real, b: real): real { if a >= b then a else b }
  function MinReal(a: real, b: real): real { if a <= b then a else b }

  /** `max(0.0, min(1.0, v))`: a velocity in `[0, 1]`, the value itself when already there. */
  function ClampVelocity(v: real): (r: real)
    ensures 0.0 <= r <= 1.0
    ensures 0.0 <= v <= 1.0 ==> r == v
    ensures v < 0.0 ==> r == 0.0
    ensures v > 1.0 ==> r == 1.0
  {
    MaxReal(0.0, MinReal(1.0, v))
  }

  /** `max(0, min(4, v))`: a variation in `[0, 4]`, the value itself when already there. */
  function ClampEditVariation(v: int): (r: int)
    ensures 0 <= r <= 4
    ensures 0 <= v <= 4 ==> r == v
    ensures v < 0 ==> r == 0
    ensures v > 4 ==> r == 4
  {
    if v > 4 then 4 else if v < 0 then 0 else v
  }

  /** A value ready to be written into a cell, already clamped where `commit_edit` clamps it. */
  datatype Edit = SetNoteTo(note: int) | SetVelocityTo(velocity: real) | SetVariationTo(variation: int)

  /**
   * What `commit_edit` makes of the typed text in each mode: the stripped
   * buffer parsed as an integer (note, variation) or a float (velocity),
   * clamped for velocity and variation; None when it does not parse (the
   * exception is swallowed) or when no field is being edited.
   */
  function ParsedEdit(mode: EditMode, buffer: string): Option<Edit>
  {
    var val := PyText.Strip(buffer);
    match mode
    case EditNote =>
      (match PyText.ParseInt(val)
       case Some(n) => Some(SetNoteTo(n))
       case None => None)
    case EditVelocity =>
      (match PyText.ParseFloat(val)
       case Some(v) => Some(SetVelocityTo(ClampVelocity(v)))
       case None => None)
    case EditVariation =>
      (match PyText.ParseInt(val)
       case Some(v) => Some(SetVariationTo(ClampEditVariation(v)))
       case None => None)
    case NoEdit => None
  }

  /** The grid with the edit written into cell `(t, s)`: that cell's one field is set and every other cell is kept. */
  function Applied(g: seq<seq<Step>>, e: Edit, t: nat, s: nat): (r: seq<seq<Step>>)
    requires t < |g| && s < |g[t]|
    ensures |r| == |g| && forall i :: 0 <= i < |g| ==> |r[i]| == |g[i]|
    ensures forall i, j :: 0 <= i < |g| && 0 <= j < |g[i]| && (i, j) != (t, s) ==> r[i][j] == g[i][j]
    ensures e.SetNoteTo? ==> r[t][s] == g[t][s].(note := Some(e.note))
    ensures e.SetVelocityTo? ==> r[t][s] == g[t][s].(velocity := Some(e.velocity))
    ensures e.SetVariationTo? ==> r[t][s] == g[t][s].(variation := Some(e.variation))
  {
    match e
    case SetNoteTo(n) => WithNote(g, t, s, n)
    case SetVelocityTo(v) => WithCell(g, t, s, g[t][s].(velocity := Some(v)))
    case SetVariationTo(v) => WithCell(g, t, s, g[t][s].(variation := Some(v)))
  }

  /** The grid after `commit_edit` at cell `(t, s)`; text that does not parse leaves it as it was. */
  function Committed(g: seq<seq<Step>>, mode: EditMode, buffer: string, t: nat, s: nat): seq<seq<Step>>
    requires t < |g| && s < |g[t]|
  {
    match ParsedEdit(mode, buffer)
    case Some(e) => Applied(g, e, t, s)
    case None => g
  }

  /** Committing changes at most the one field of the one cell its mode names, and never the grid's shape. */
  lemma CommittedOnlyField(g: seq<seq<Step>>, mode: EditMode, buffer: string, t: nat, s: nat)
    requires t < |g| && s < |g[t]|
    ensures var r := Committed(g, mode, buffer, t, s);
      && |r| == |g| && (forall i :: 0 <= i < |g| ==> |r[i]| == |g[i]|)
      && (forall i, j :: 0 <= i < |g| && 0 <= j < |g[i]| && (i, j) != (t, s) ==> r[i][j] == g[i][j])
      && r[t][s].on == g[t][s].on
      && (mode != EditNote ==> r[t][s].note == g[t][s].note)
      && (mode != EditVelocity ==> r[t][s].velocity == g[t][s].velocity)
      && (mode != EditVariation ==> r[t][s].variation == g[t][s].variation)
  {
  }

  /** A parsed note is stored as is; a parsed velocity or variation is stored clamped; text that does not parse changes nothing. */
  lemma CommittedValues(g: seq<seq<Step>>, mode: EditMode, buffer: string, t: nat, s: nat)
    requires t < |g| && s < |g[t]|
    ensures var r, val := Committed(g, mode, buffer, t, s), PyText.Strip(buffer);
      && (mode == EditNote && PyText.ParseInt(val).Some? ==> r[t][s].note == Some(PyText.ParseInt(val).value))
      && (mode == EditVelocity && PyText.ParseFloat(val).Some? ==>
            r[t][s].velocity == Some(ClampVelocity(PyText.ParseFloat(val).value))
            && 0.0 <= ClampVelocity(PyText.ParseFloat(val).value) <= 1.0)
      && (mode == EditVariation && PyText.ParseInt(val).Some? ==>
            r[t][s].variation == Some(ClampEditVariation(PyText.ParseInt(val).value))
            && 0 <= ClampEditVariation(PyText.ParseInt(val).value) <= 4)
      && ((mode == NoEdit
           || ((mode == EditNote || mode == EditVariation) && PyText.ParseInt(val).None?)
           || (mode == EditVelocity && PyText.ParseFloat(val).None?)) ==> r == g)
  {
  }

  /** Committing keeps the grid rectangular. */
  lemma CommittedShape(g: seq<seq<Step>>, mode: EditMode, buffer: string, t: nat, s: nat, steps: int)
    requires t < |g| && s < |g[t]| && Rectangular(g, steps)
    ensures |Committed(g, mode, buffer, t, s)| == |g| && Rectangular(Committed(g, mode, buffer, t, s), steps)
  {
    CommittedOnlyField(g, mode, buffer, t, s);
  }

  /** The editor state is well formed for a grid of `steps > 0` columns: the cursor is on a cell. */
  ghost predicate OnGrid(ui: EditorState, g: seq<seq<Step>>, steps: int) {
    steps > 0 && |g| > 0 && Rectangular(g, steps)
    && 0 <= ui.cursorTrack < |g| && 0 <= ui.cursorStep < steps
  }

  /** A key while a value is being typed: Enter commits, Esc abandons, printable characters are typed, anything else is ignored. */
  function EditKey(ui: EditorState, g: seq<seq<Step>>, steps: int, c: int): (r: Reaction)
    requires OnGrid(ui, g, steps) && ui.editMode != NoEdit
    ensures OnGrid(r.editor, r.pattern, steps) && |r.pattern| == |g|
  {
    var t, s := ui.cursorTrack, ui.cursorStep;
    if c == 10 || c == 13 then
      CommittedOnlyField(g, ui.editMode, ui.inputBuffer, t, s);
      Reaction(ui.(editMode := NoEdit, inputBuffer := ""), Committed(g, ui.editMode, ui.inputBuffer, t, s), Continue)
    else if c == 27 then Reaction(ui.(editMode := NoEdit, inputBuffer := ""), g, Continue)
    else if 32 <= c < 127 then Reaction(ui.(inputBuffer := ui.inputBuffer + [c as char]), g, Continue)
    else Reaction(ui, g, Continue)
  }

  /**
   * A key outside edit mode: keys move the cursor (wrapping around), toggle
   * the cell, start an edit, start or stop playback, save or quit. The `l`
   * key is also "right", which is tested first, so the load branch is never
   * taken.
   */
  function CommandKey(ui: EditorState, g: seq<seq<Step>>, steps: int, c: int): (r: Reaction)
    requires OnGrid(ui, g, steps)
    ensures OnGrid(r.editor, r.pattern, steps) && |r.pattern| == |g|
  {
    var t, s := ui.cursorTrack, ui.cursorStep;
    if c == KeyErr then Reaction(ui, g, Idle)
    else if c == Ord('q') then Reaction(ui.(playing := false), g, Quit)
    else if c == Ord('p') then
      if ui.playing then Reaction(ui.(playing := false), g, StopPlayback)
      else Reaction(ui.(playing := true), g, StartPlayback)
    else if c == KeyRight || c == Ord('l') then Reaction(ui.(cursorStep := (s + 1) % steps), g, Continue)
    else if c == KeyLeft || c == Ord('h') then Reaction(ui.(cursorStep := (s - 1) % steps), g, Continue)
    else if c == KeyDown || c == Ord('j') then Reaction(ui.(cursorTrack := (t + 1) % |g|), g, Continue)
    else if c == KeyUp || c == Ord('k') then Reaction(ui.(cursorTrack := (t - 1) % |g|), g, Continue)
    else if c == Ord(' ') then
      ToggledOnlyCell(g, t, s);
      Reaction(ui, Toggled(g, t, s), Continue)
    else if c == Ord('n') then Reaction(ui.(editMode := EditNote, inputBuffer := ""), g, Continue)
    else if c == Ord('v') then Reaction(ui.(editMode := EditVelocity, inputBuffer := ""), g, Continue)
    else if c == Ord('b') then Reaction(ui.(editMode := EditVariation, inputBuffer := ""), g, Continue)
    else if c == Ord('s') then Reaction(ui, g, Save)
    else if c == Ord('l') then Reaction(ui, g, Load)
    else Reaction(ui, g, Continue)
  }

  /** One pass of the main loop of `run` for key code `c`: the grid keeps its shape and the cursor stays on a cell. */
  function React(ui: EditorState, g: seq<seq<Step>>, steps: int, c: int): (r: Reaction)
    requires OnGrid(ui, g, steps)
    ensures OnGrid(r.editor, r.pattern, steps) && |r.pattern| == |g|
  {
    if ui.editMode != NoEdit then EditKey(ui, g, steps, c) else CommandKey(ui, g, steps, c)
  }

  /** Python's `%` by a positive modulus moves one place forward or back with wrap-around. */
  lemma WrapStep(x: int, n: int)
    requires 0 <= x < n
    ensures (x + 1) % n == if x == n - 1 then 0 else x + 1
    ensures (x - 1) % n == if x == 0 then n - 1 else x - 1
  {
  }

  /** Right and left wrap around the columns, down and up around the tracks, and nothing else moves. */
  lemma CursorWraps(ui: EditorState, g: seq<seq<Step>>, steps: int)
    requires OnGrid(ui, g, steps) && ui.editMode == NoEdit
    ensures React(ui, g, steps, KeyRight) == Reaction(ui.(cursorStep := if ui.cursorStep == steps - 1 then 0 else ui.cursorStep + 1), g, Continue)
    ensures React(ui, g, steps, KeyLeft) == Reaction(ui.(cursorStep := if ui.cursorStep == 0 then steps - 1 else ui.cursorStep - 1), g, Continue)
    ensures React(ui, g, steps, KeyDown) == Reaction(ui.(cursorTrack := if ui.cursorTrack == |g| - 1 then 0 else ui.cursorTrack + 1), g, Continue)
    ensures React(ui, g, steps, KeyUp) == Reaction(ui.(cursorTrack := if ui.cursorTrack == 0 then |g| - 1 else ui.cursorTrack - 1), g, Continue)
  {
    WrapStep(ui.cursorStep, steps);
    WrapStep(ui.cursorTrack, |g|);
  }

  /** Outside edit mode the key `l` moves the cursor right, so no key ever loads a pattern. */
  lemma LoadUnreachable(ui: EditorState, g: seq<seq<Step>>, steps: int, c: int)
    requires OnGrid(ui, g, steps)
    ensures ui.editMode == NoEdit ==> React(ui, g, steps, Ord('l')) == React(ui, g, steps, KeyRight)
    ensures React(ui, g, steps, c).outcome != Load
  {
  }

  /** In edit mode: Enter commits and Esc abandons, both leaving edit mode with an empty buffer; printable keys are typed; other keys do nothing. */
  lemma EditModeKeys(ui: EditorState, g: seq<seq<Step>>, steps: int, c: int)
    requires OnGrid(ui, g, steps) && ui.editMode != NoEdit
    ensures var r := React(ui, g, steps, c);
      && r.outcome == Continue
      && (c == 10 || c == 13 ==>
            r.editor == ui.(editMode := NoEdit, inputBuffer := "")
            && r.pattern == Committed(g, ui.editMode, ui.inputBuffer, ui.cursorTrack, ui.cursorStep))
      && (c == 27 ==> r.editor == ui.(editMode := NoEdit, inputBuffer := "") && r.pattern == g)
      && (32 <= c <= 126 ==> r.editor.inputBuffer == ui.inputBuffer + [c as char] && r.editor.editMode == ui.editMode && r.pattern == g)
      && (c != 10 && c != 13 && c != 27 && !(32 <= c <= 126) ==> r == Reaction(ui, g, Continue))
  {
  }

  /**
   * Outside edit mode `q` stops playback and quits, `p` flips playback and
   * asks for the thread to be started or stopped, `n`, `v` and `b` start
   * editing the note, velocity or variation with an empty buffer, and `s`
   * asks for a save; none of them moves the cursor or changes the grid.
   */
  lemma CommandKeyModes(ui: EditorState, g: seq<seq<Step>>, steps: int)
    requires OnGrid(ui, g, steps) && ui.editMode == NoEdit
    ensures React(ui, g, steps, Ord('q')) == Reaction(ui.(playing := false), g, Quit)
    ensures React(ui, g, steps, Ord('p'))
      == if ui.playing then Reaction(ui.(playing := false), g, StopPlayback) else Reaction(ui.(playing := true), g, StartPlayback)
    ensures React(ui, g, steps, Ord('n')) == Reaction(ui.(editMode := EditNote, inputBuffer := ""), g, Continue)
    ensures React(ui, g, steps, Ord('v')) == Reaction(ui.(editMode := EditVelocity, inputBuffer := ""), g, Continue)
    ensures React(ui, g, steps, Ord('b')) == Reaction(ui.(editMode := EditVariation, inputBuffer := ""), g, Continue)
    ensures React(ui, g, steps, Ord('s')) == Reaction(ui, g, Save)
    ensures React(ui, g, steps, KeyErr) == Reaction(ui, g, Idle)
  {
  }

  /** Outside edit mode only the space bar changes the grid, and it toggles exactly the cursor's cell. */
  lemma CommandKeyGrid(ui: EditorState, g: seq<seq<Step>>, steps: int, c: int)
    requires OnGrid(ui, g, steps) && ui.editMode == NoEdit
    ensures var r := React(ui, g, steps, c);
      && (c != Ord(' ') ==> r.pattern == g)
      && (c == Ord(' ') ==> r.pattern == Toggled(g, ui.cursorTrack, ui.cursorStep) && r.editor == ui)
  {
  }

  // ---------------------------------------------------------------------------
  // Playback schedule

  /** One call of the callback: the track index, the step index and the cell it is given. */
  datatype Trigger = Trigger(track: nat, step: nat, cell: Step)

  /** Every track has a cell at column `s`. */
  ghost predicate HasColumn(g: seq<seq<Step>>, s: nat) {
    forall i :: 0 <= i < |g| ==> s < |g[i]|
  }

  /** The triggers of column `s` from track `t` on: the active cells, in track order. */
  function ColumnFrom(g: seq<seq<Step>>, s: nat, t: nat): seq<Trigger>
    requires HasColumn(g, s)
    decreases |g| - t
  {
    if t >= |g| then []
    else (if g[t][s].on != 0 then [Trigger(t, s, g[t][s])] else []) + ColumnFrom(g, s, t + 1)
  }

  /** The triggers of columns `s` to `last - 1`, column after column. */
  function PassFrom(g: seq<seq<Step>>, s: nat, last: nat): seq<Trigger>
    requires forall i :: 0 <= i < |g| ==> last <= |g[i]|
    decreases last - s
  {
    if s >= last then [] else ColumnFrom(g, s, 0) + PassFrom(g, s + 1, last)
  }

  /** The triggers of passes `p` to `passes`: all full passes but the last, which stops before column `stopAt`. */
  function SessionFrom(g: seq<seq<Step>>, steps: nat, passes: nat, stopAt: nat, p: nat): seq<Trigger>
    requires Rectangular(g, steps) && stopAt <= steps
    decreases passes + 1 - p
  {
    if p > passes then []
    else PassFrom(g, 0, if p < passes then steps else stopAt) + SessionFrom(g, steps, passes, stopAt, p + 1)
  }

  /** The callback order of a playback stopped during its pass `passes`, just before column `stopAt`. */
  function Schedule(g: seq<seq<Step>>, steps: nat, passes: nat, stopAt: nat): seq<Trigger>
    requires Rectangular(g, steps) && stopAt <= steps
  {
    SessionFrom(g, steps, passes, stopAt, 0)
  }

  /** The sequencer's callback raises for this trigger. */
  predicate RaisesOn(v: Voices, x: Trigger, samples: real -> int) {
    Dispatch(v, x.track, x.cell, samples).Raises()
  }

  /** `play_step_callback` seen by the playback thread: whether it raises on a trigger. */
  function Callback(v: Voices, samples: real -> int): Trigger -> bool
  {
    x => RaisesOn(v, x, samples)
  }

  /** With the constructed kit and patch, the callback raises exactly on the synth tracks (4 and up). */
  lemma DefaultCallbackRaises(tempo: real, resolution: string, samples: real -> int, x: Trigger)
    ensures Callback(DefaultVoices(tempo, resolution), samples)(x) <==> x.track >= 4
  {
    DispatchDefaultVoices(tempo, resolution, x.track, x.cell, samples);
  }

  /**
   * The triggers actually delivered to a callback that raises on `raises`:
   * the schedule up to and including the first one that raises, since the
   * exception ends the thread.
   */
  function Cut(ts: seq<Trigger>, raises: Trigger -> bool): seq<Trigger>
  {
    if ts == [] then []
    else if raises(ts[0]) then [ts[0]]
    else [ts[0]] + Cut(ts[1..], raises)
  }

  /**
   * What the playback thread delivers to a callback that raises on
   * `raises`, given the step duration: the schedule cut at the first raise;
   * with a negative duration the first `time.sleep` raises, so at most
   * column 0 of the first pass is played.
   */
  function Delivered(g: seq<seq<Step>>, steps: nat, passes: nat, stopAt: nat, duration: real, raises: Trigger -> bool): seq<Trigger>
    requires Rectangular(g, steps) && stopAt <= steps && steps > 0
  {
    if duration < 0.0 then Cut(if passes > 0 || stopAt > 0 then ColumnFrom(g, 0, 0) else [], raises)
    else Cut(Schedule(g, steps, passes, stopAt), raises)
  }

  predicate NoneRaise(ts: seq<Trigger>, raises: Trigger -> bool) {
    forall i :: 0 <= i < |ts| ==> !raises(ts[i])
  }

  /** `a` comes before `b` in a pass: an earlier step, or the same step and a lower track. */
  predicate Before(a: Trigger, b: Trigger) {
    a.step < b.step || (a.step == b.step && a.track < b.track)
  }

  /** Every trigger of `ts` is an active cell of `g` in columns `lo` to `hi - 1`, given with its cell. */
  ghost predicate ActiveCells(ts: seq<Trigger>, g: seq<seq<Step>>, lo: nat, hi: nat) {
    forall i :: 0 <= i < |ts| ==>
      lo <= ts[i].step < hi && ts[i].track < |g| && ts[i].step < |g[ts[i].track]|
      && ts[i].cell == g[ts[i].track][ts[i].step] && ts[i].cell.on != 0
  }

  ghost predicate InOrder(ts: seq<Trigger>) {
    forall i, j :: 0 <= i < j < |ts| ==> Before(ts[i], ts[j])
  }

  /** A column's triggers from track `t` on are active cells of that column, at track `t` or later. */
  lemma {:induction false} ColumnFromActive(g: seq<seq<Step>>, s: nat, t: nat)
    requires HasColumn(g, s)
    ensures var c := ColumnFrom(g, s, t);
      ActiveCells(c, g, s, s + 1) && forall i :: 0 <= i < |c| ==> t <= c[i].track
    decreases |g| - t
  {
    if t < |g| {
      ColumnFromActive(g, s, t + 1);
      var rest := ColumnFrom(g, s, t + 1);
      if g[t][s].on != 0 {
        var c := [Trigger(t, s, g[t][s])] + rest;
        assert ColumnFrom(g, s, t) == c;
        forall i | 0 <= i < |c| ensures c[i].track >= t && c[i].step == s && c[i].track < |g|
          && c[i].cell == g[c[i].track][s] && c[i].cell.on != 0 {
          if i > 0 { assert c[i] == rest[i - 1]; }
        }
      }
    }
  }

  /** A column's triggers come in increasing track order. */
  lemma {:induction false} ColumnFromOrdered(g: seq<seq<Step>>, s: nat, t: nat)
    requires HasColumn(g, s)
    ensures InOrder(ColumnFrom(g, s, t))
    decreases |g| - t
  {
    if t < |g| {
      ColumnFromOrdered(g, s, t + 1);
      ColumnFromActive(g, s, t + 1);
      var rest := ColumnFrom(g, s, t + 1);
      if g[t][s].on != 0 {
        var c := [Trigger(t, s, g[t][s])] + rest;
        assert ColumnFrom(g, s, t) == c;
        forall i, j | 0 <= i < j < |c| ensures Before(c[i], c[j]) {
          assert c[j] == rest[j - 1];
          if i > 0 { assert c[i] == rest[i - 1]; }
        }
      }
    }
  }

  /** Every active cell of the column from track `t` on has its trigger. */
  lemma {:induction false} ColumnFromComplete(g: seq<seq<Step>>, s: nat, t: nat)
    requires HasColumn(g, s)
    ensures forall k :: t <= k < |g| && g[k][s].on != 0 ==> Trigger(k, s, g[k][s]) in ColumnFrom(g, s, t)
    decreases |g| - t
  {
    if t < |g| {
      ColumnFromComplete(g, s, t + 1);
      var rest := ColumnFrom(g, s, t + 1);
      var head := if g[t][s].on != 0 then [Trigger(t, s, g[t][s])] else [];
      assert ColumnFrom(g, s, t) == head + rest;
      forall k | t <= k < |g| && g[k][s].on != 0 ensures Trigger(k, s, g[k][s]) in head + rest {
        if k == t { assert (head + rest)[0] == Trigger(k, s, g[k][s]); }
        else { assert Trigger(k, s, g[k][s]) in rest; }
      }
    }
  }

  /** Joining two ordered runs where every trigger of the first is before every trigger of the second gives an ordered run. */
  lemma InOrderAppend(a: seq<Trigger>, b: seq<Trigger>)
    requires InOrder(a) && InOrder(b)
    requires forall i, j :: 0 <= i < |a| && 0 <= j < |b| ==> Before(a[i], b[j])
    ensures InOrder(a + b)
  {
    forall i, j | 0 <= i < j < |a + b| ensures Before((a + b)[i], (a + b)[j]) {
      if j < |a| {
      } else if i < |a| {
        assert (a + b)[j] == b[j - |a|];
      } else {
        assert (a + b)[i] == b[i - |a|] && (a + b)[j] == b[j - |a|];
      }
    }
  }

  /**
   * One pass over columns `s` to `last - 1` fires the callback exactly for
   * the active cells there, ordered by step first and track second.
   */
  lemma {:induction false} PassFromFacts(g: seq<seq<Step>>, s: nat, last: nat)
    requires forall i :: 0 <= i < |g| ==> last <= |g[i]|
    ensures var p := PassFrom(g, s, last);
      && ActiveCells(p, g, s, last)
      && InOrder(p)
      && (forall k, j :: 0 <= k < |g| && s <= j < last && g[k][j].on != 0 ==> Trigger(k, j, g[k][j]) in p)
    decreases last - s
  {
    if s < last {
      PassFromFacts(g, s + 1, last);
      ColumnFromActive(g, s, 0);
      ColumnFromOrdered(g, s, 0);
      ColumnFromComplete(g, s, 0);
      var col, rest := ColumnFrom(g, s, 0), PassFrom(g, s + 1, last);
      assert PassFrom(g, s, last) == col + rest;
      InOrderAppend(col, rest);
      forall k, j | 0 <= k < |g| && s <= j < last && g[k][j].on != 0 ensures Trigger(k, j, g[k][j]) in col + rest {
        if j == s { assert Trigger(k, j, g[k][j]) in col; } else { assert Trigger(k, j, g[k][j]) in rest; }
      }
    }
  }

  /** One whole pass fires exactly the active cells of the grid, by step and then by track. */
  lemma OnePass(g: seq<seq<Step>>, steps: nat)
    requires Rectangular(g, steps)
    ensures var p := PassFrom(g, 0, steps);
      && ActiveCells(p, g, 0, steps)
      && InOrder(p)
      && (forall k, j :: 0 <= k < |g| && 0 <= j < steps && g[k][j].on != 0 ==> Trigger(k, j, g[k][j]) in p)
  {
    PassFromFacts(g, 0, steps);
  }

  /** Delivery starts with a trigger that does not raise, then continues with the rest. */
  lemma CutCons(x: Trigger, rest: seq<Trigger>, raises: Trigger -> bool)
    ensures Cut([x] + rest, raises) == if raises(x) then [x] else [x] + Cut(rest, raises)
  {
    assert ([x] + rest)[0] == x && ([x] + rest)[1..] == rest;
  }

  /** Delivery is the whole schedule when no callback raises, and ends at the first one that does. */
  lemma {:induction false} CutFacts(ts: seq<Trigger>, raises: Trigger -> bool)
    ensures NoneRaise(ts, raises) ==> Cut(ts, raises) == ts
    ensures var c := Cut(ts, raises);
      && |c| <= |ts| && c == ts[..|c|]
      && NoneRaise(c[..if c == [] then 0 else |c| - 1], raises)
      && (|c| < |ts| ==> raises(c[|c| - 1]))
  {
    if ts != [] && !raises(ts[0]) {
      CutFacts(ts[1..], raises);
      var c' := Cut(ts[1..], raises);
      var c := Cut(ts, raises);
      assert c == [ts[0]] + c';
      assert ts == [ts[0]] + ts[1..];
      if c' != [] {
        assert c[..|c| - 1] == [ts[0]] + c'[..|c'| - 1];
      }
    }
  }

  /**
   * With the constructed kit and patch, what is delivered of a schedule is a
   * prefix of it: drum triggers only, followed by the first synth trigger if
   * there is one, which ends the thread.
   */
  lemma DefaultDelivery(ts: seq<Trigger>, tempo: real, resolution: string, samples: real -> int)
    ensures var c := Cut(ts, Callback(DefaultVoices(tempo, resolution), samples));
      && |c| <= |ts| && c == ts[..|c|]
      && (forall i :: 0 <= i < |c| - 1 ==> c[i].track < 4)
      && (|c| < |ts| ==> c[|c| - 1].track >= 4)
      && ((forall i :: 0 <= i < |ts| ==> ts[i].track < 4) ==> c == ts)
  {
    var cb := Callback(DefaultVoices(tempo, resolution), samples);
    CutFacts(ts, cb);
    forall x: Trigger ensures cb(x) <==> x.track >= 4 {
      DefaultCallbackRaises(tempo, resolution, samples, x);
    }
    var c := Cut(ts, cb);
    assert forall i :: 0 <= i < |c| - 1 ==> c[..|c| - 1][i] == c[i];
  }

  /** Dropping the first trigger keeps "none raises". */
  lemma NoneRaiseTail(a: seq<Trigger>, raises: Trigger -> bool)
    requires a != []
    ensures NoneRaise(a, raises) <==> !raises(a[0]) && NoneRaise(a[1..], raises)
  {
    if !raises(a[0]) && NoneRaise(a[1..], raises) {
      forall i | 1 <= i < |a| ensures !raises(a[i]) {
        assert a[i] == a[1..][i - 1];
      }
    }
  }

  /** A schedule part in which nothing raises is delivered whole, and delivery goes on with what follows. */
  lemma {:induction false} CutAppendQuiet(a: seq<Trigger>, b: seq<Trigger>, raises: Trigger -> bool)
    requires NoneRaise(a, raises)
    ensures Cut(a + b, raises) == a + Cut(b, raises)
  {
    if a == [] {
      assert a + b == b;
    } else {
      var x, a' := a[0], a[1..];
      NoneRaiseTail(a, raises);
      CutAppendQuiet(a', b, raises);
      assert a + b == [x] + (a' + b);
      CutCons(x, a' + b, raises);
      assert [x] + (a' + Cut(b, raises)) == a + Cut(b, raises);
    }
  }

  /** A schedule part in which something raises is where delivery ends: what follows is never reached. */
  lemma {:induction false} CutAppendLoud(a: seq<Trigger>, b: seq<Trigger>, raises: Trigger -> bool)
    requires !NoneRaise(a, raises)
    ensures Cut(a + b, raises) == Cut(a, raises)
  {
    var x, a' := a[0], a[1..];
    NoneRaiseTail(a, raises);
    assert a + b == [x] + (a' + b);
    assert a == [x] + a';
    CutCons(x, a' + b, raises);
    CutCons(x, a', raises);
    if !raises(x) {
      CutAppendLoud(a', b, raises);
    }
  }

  /** Delivering a joined schedule: all of the first part and then the second when nothing in the first raises, else only the first part's delivery. */
  lemma CutAppend(a: seq<Trigger>, b: seq<Trigger>, raises: Trigger -> bool)
    ensures Cut(a + b, raises) == if NoneRaise(a, raises) then a + Cut(b, raises) else Cut(a, raises)
  {
    if NoneRaise(a, raises) {
      CutAppendQuiet(a, b, raises);
    } else {
      CutAppendLoud(a, b, raises);
    }
  }

  lemma AppendAssoc(a: seq<Trigger>, b: seq<Trigger>, c: seq<Trigger>)
    ensures a + (b + c) == (a + b) + c
  {
  }

  lemma NoneRaiseAppend(a: seq<Trigger>, b: seq<Trigger>, raises: Trigger -> bool)
    ensures NoneRaise(a + b, raises) <==> NoneRaise(a, raises) && NoneRaise(b, raises)
  {
    if NoneRaise(a, raises) && NoneRaise(b, raises) {
      forall i | 0 <= i < |a + b| ensures !raises((a + b)[i]) {
        if i >= |a| { assert (a + b)[i] == b[i - |a|]; }
      }
    }
    if NoneRaise(a + b, raises) {
      forall i | 0 <= i < |b| ensures !raises(b[i]) {
        assert (a + b)[|a| + i] == b[i];
      }
      forall i | 0 <= i < |a| ensures !raises(a[i]) {
        assert (a + b)[i] == a[i];
      }
    }
  }

  /**
   * One column of a pass: its triggers come next after those delivered so
   * far; if one of them raises, the pass's delivery ends inside it.
   */
  lemma PassColumn(g: seq<seq<Step>>, last: nat, s: nat, out: seq<Trigger>, raises: Trigger -> bool)
    requires forall i :: 0 <= i < |g| ==> last <= |g[i]|
    requires s < last && NoneRaise(out, raises) && PassFrom(g, 0, last) == out + PassFrom(g, s, last)
    ensures var column := ColumnFrom(g, s, 0);
      && (!NoneRaise(column, raises) ==>
            Cut(PassFrom(g, 0, last), raises) == out + Cut(column, raises) && !NoneRaise(PassFrom(g, 0, last), raises))
      && (NoneRaise(column, raises) ==>
            PassFrom(g, 0, last) == (out + column) + PassFrom(g, s + 1, last) && NoneRaise(out + column, raises))
  {
    var column, rest := ColumnFrom(g, s, 0), PassFrom(g, s + 1, last);
    var pass := PassFrom(g, 0, last);
    assert pass == out + (column + rest) by {
      assert PassFrom(g, s, last) == column + rest;
    }
    if NoneRaise(column, raises) {
      assert pass == (out + column) + rest;
      NoneRaiseAppend(out, column, raises);
    } else {
      assert !NoneRaise(pass, raises) by {
        NoneRaiseAppend(column, rest, raises);
        NoneRaiseAppend(out, column + rest, raises);
      }
      assert Cut(pass, raises) == out + Cut(column, raises) by {
        CutAppend(out, column + rest, raises);
        CutAppend(column, rest, raises);
      }
    }
  }

  /** Pass `p` of a session comes first; what is delivered of the session is that pass and, if nothing in it raises, the rest. */
  lemma SessionPass(g: seq<seq<Step>>, steps: nat, passes: nat, stopAt: nat, p: nat, raises: Trigger -> bool)
    requires Rectangular(g, steps) && stopAt <= steps && p <= passes
    ensures var pass, rest := PassFrom(g, 0, if p < passes then steps else stopAt), SessionFrom(g, steps, passes, stopAt, p + 1);
      Cut(SessionFrom(g, steps, passes, stopAt, p), raises) == if NoneRaise(pass, raises) then pass + Cut(rest, raises) else Cut(pass, raises)
  {
    var pass, rest := PassFrom(g, 0, if p < passes then steps else stopAt), SessionFrom(g, steps, passes, stopAt, p + 1);
    assert SessionFrom(g, steps, passes, stopAt, p) == pass + rest;
    CutAppend(pass, rest, raises);
  }

  /**
   * The inner loop of `playback_loop` over the tracks of column `s`: fire the
   * callback for each active cell in track order until one raises.
   * `stopped` says one raised, which is then the last trigger delivered.
   */
  method FireColumn(g: seq<seq<Step>>, s: nat, raises: Trigger -> bool) returns (out: seq<Trigger>, stopped: bool)
    requires HasColumn(g, s)
    ensures out == Cut(ColumnFrom(g, s, 0), raises)
    ensures stopped <==> !NoneRaise(ColumnFrom(g, s, 0), raises)
    ensures !stopped ==> out == ColumnFrom(g, s, 0)
    ensures stopped ==> out != [] && raises(out[|out| - 1]) && out[|out| - 1].step == s
  {
    ghost var col := ColumnFrom(g, s, 0);
    out := [];
    var t := 0;
    while t < |g|
      invariant t <= |g|
      invariant NoneRaise(out, raises)
      invariant col == out + ColumnFrom(g, s, t)
    {
      var cell := g[t][s];
      ghost var rest := ColumnFrom(g, s, t + 1);
      if cell.on != 0 {
        var x := Trigger(t, s, cell);
        assert ColumnFrom(g, s, t) == [x] + rest;
        assert col == (out + [x]) + rest;
        if raises(x) {
          CutAppend(out, [x] + rest, raises);
          CutCons(x, rest, raises);
          assert col[|out|] == x;
          out := out + [x];
          return out, true;
        }
        assert NoneRaise(out + [x], raises) by {
          forall i | 0 <= i < |out| + 1 ensures (out + [x])[i] == if i < |out| then out[i] else x { }
        }
        out := out + [x];
      } else {
        assert ColumnFrom(g, s, t) == rest;
      }
      t := t + 1;
    }
    assert col == out;
    CutFacts(out, raises);
    return out, false;
  }

  /** The `try` block of `commit_edit` up to the write: strip, parse for the mode's field, clamp. */
  method ReadEdit(mode: EditMode, buffer: string) returns (edit: Option<Edit>)
    ensures edit == ParsedEdit(mode, buffer)
  {
    var val := PyText.Strip(buffer);
    edit := None;
    if mode == EditNote {
      var note := PyText.ParseInt(val);
      if note.Some? {
        edit := Some(SetNoteTo(note.value));
      }
    } else if mode == EditVelocity {
      var velocity := PyText.ParseFloat(val);
      if velocity.Some? {
        edit := Some(SetVelocityTo(ClampVelocity(velocity.value)));
      }
    } else if mode == EditVariation {
      var variation := PyText.ParseInt(val);
      if variation.Some? {
        edit := Some(SetVariationTo(ClampEditVariation(variation.value)));
      }
    }
  }

  // ---------------------------------------------------------------------------
  // The editor object

  class TUISequencer {
    const sequencer: StepSequencer
    var cursorTrack: int
    var cursorStep: int
    var playing: bool
    var editMode: EditMode
    var inputBuffer: string
    var playCursor: Option<int>

    ghost predicate Valid()
      reads this, sequencer
    {
      sequencer.Valid() && OnGrid(View(), sequencer.pattern, sequencer.steps)
    }

    function View(): EditorState
      reads this
    {
      EditorState(cursorTrack, cursorStep, playing, editMode, inputBuffer)
    }

    /** `TUISequencer(sequencer)`: cursor at the first cell, stopped, not editing. */
    constructor (s: StepSequencer)
      requires s.Valid() && s.steps > 0
      ensures sequencer == s
      ensures View() == EditorState(0, 0, false, NoEdit, "") && playCursor == None
      ensures Valid()
    {
      sequencer := s;
      cursorTrack, cursorStep := 0, 0;
      playing := false;
      editMode := NoEdit;
      inputBuffer := "";
      playCursor := None;
    }

    /** The write at the end of each branch of `commit_edit`: through `set_note` for a note, directly into the cell otherwise. */
    method ApplyEdit(e: Edit)
      requires Valid()
      modifies sequencer`pattern
      ensures Valid()
      ensures sequencer.pattern == Applied(old(sequencer.pattern), e, cursorTrack, cursorStep)
    {
      ghost var g := sequencer.pattern;
      var cell := sequencer.pattern[cursorTrack][cursorStep];
      match e
      case SetNoteTo(n) =>
        sequencer.SetNote(cursorTrack, cursorStep, n);
      case SetVelocityTo(v) =>
        sequencer.pattern := WithCell(sequencer.pattern, cursorTrack, cursorStep, cell.(velocity := Some(v)));
      case SetVariationTo(v) =>
        sequencer.pattern := WithCell(sequencer.pattern, cursorTrack, cursorStep, cell.(variation := Some(v)));
      assert Rectangular(sequencer.pattern, sequencer.steps) by {
        forall i | 0 <= i < |sequencer.pattern| ensures |sequencer.pattern[i]| == sequencer.steps {
          assert |g[i]| == sequencer.steps;
        }
      }
    }

    /** `commit_edit`: write the typed value into the cursor's cell, then leave edit mode with an empty buffer. */
    method CommitEdit()
      requires Valid()
      modifies this`editMode, this`inputBuffer, sequencer`pattern
      ensures Valid()
      ensures sequencer.pattern == Committed(old(sequencer.pattern), old(editMode), old(inputBuffer), cursorTrack, cursorStep)
      ensures View() == old(View()).(editMode := NoEdit, inputBuffer := "")
    {
      var edit := ReadEdit(editMode, inputBuffer);
      if edit.Some? {
        ApplyEdit(edit.value);
      }
      editMode := NoEdit;
      inputBuffer := "";
    }

    /** One pass of the main loop of `run` for the key code `c`. */
    method HandleKey(c: int) returns (o: KeyOutcome)
      requires Valid()
      modifies this`cursorTrack, this`cursorStep, this`playing, this`editMode, this`inputBuffer, sequencer`pattern
      ensures Valid()
      ensures var r := React(old(View()), old(sequencer.pattern), sequencer.steps, c);
        View() == r.editor && sequencer.pattern == r.pattern && o == r.outcome
    {
      if editMode != NoEdit {
        o := HandleEditKey(c);
      } else {
        o := HandleCommandKey(c);
      }
    }

    /** The edit-mode branch of the main loop: Enter commits, Esc abandons, printable keys are typed. */
    method HandleEditKey(c: int) returns (o: KeyOutcome)
      requires Valid() && editMode != NoEdit
      modifies this`editMode, this`inputBuffer, sequencer`pattern
      ensures Valid()
      ensures var r := EditKey(old(View()), old(sequencer.pattern), sequencer.steps, c);
        View() == r.editor && sequencer.pattern == r.pattern && o == r.outcome
    {
      if c == 10 || c == 13 {
        CommitEdit();
      } else if c == 27 {
        editMode := NoEdit;
        inputBuffer := "";
      } else if 32 <= c < 127 {
        inputBuffer := inputBuffer + [c as char];
      }
      o := Continue;
    }

    /** The command branch of the main loop: cursor moves, toggling, edits, playback, save and quit. */
    method HandleCommandKey(c: int) returns (o: KeyOutcome)
      requires Valid()
      modifies this`cursorTrack, this`cursorStep, this`playing, this`editMode, this`inputBuffer, sequencer`pattern
      ensures Valid()
      ensures var r := CommandKey(old(View()), old(sequencer.pattern), sequencer.steps, c);
        View() == r.editor && sequencer.pattern == r.pattern && o == r.outcome
    {
      if c == KeyErr {
        o := Idle;
      } else if c == Ord('q') {
        playing := false;
        o := Quit;
      } else if c == Ord('p') {
        if playing {
          playing := false;
          o := StopPlayback;
        } else {
          playing := true;
          o := StartPlayback;
        }
      } else if c == KeyRight || c == Ord('l') {
        cursorStep := (cursorStep + 1) % sequencer.steps;
        o := Continue;
      } else if c == KeyLeft || c == Ord('h') {
        cursorStep := (cursorStep - 1) % sequencer.steps;
        o := Continue;
      } else if c == KeyDown || c == Ord('j') {
        cursorTrack := (cursorTrack + 1) % |sequencer.pattern|;
        o := Continue;
      } else if c == KeyUp || c == Ord('k') {
        cursorTrack := (cursorTrack - 1) % |sequencer.pattern|;
        o := Continue;
      } else if c == Ord(' ') {
        sequencer.ToggleStep(cursorTrack, cursorStep);
        o := Continue;
      } else if c == Ord('n') {
        editMode, inputBuffer := EditNote, "";
        o := Continue;
      } else if c == Ord('v') {
        editMode, inputBuffer := EditVelocity, "";
        o := Continue;
      } else if c == Ord('b') {
        editMode, inputBuffer := EditVariation, "";
        o := Continue;
      } else if c == Ord('s') {
        o := Save;
      } else if c == Ord('l') {
        o := Load;
      } else {
        o := Continue;
      }
    }

    /**
     * One pass of the step loop of `playback_loop` over columns `0` to
     * `last - 1`: each column moves the play cursor there and fires its
     * active cells; a callback that raises ends the pass, and the thread.
     */
    method FirePass(g: seq<seq<Step>>, steps: nat, last: nat, raises: Trigger -> bool) returns (out: seq<Trigger>, stopped: bool)
      requires Rectangular(g, steps) && last <= steps
      modifies this`playCursor
      ensures out == Cut(PassFrom(g, 0, last), raises)
      ensures stopped <==> !NoneRaise(PassFrom(g, 0, last), raises)
      ensures !stopped ==> out == PassFrom(g, 0, last)
      ensures stopped ==> out != [] && raises(out[|out| - 1]) && playCursor == Some(out[|out| - 1].step)
    {
      ghost var pass := PassFrom(g, 0, last);
      out := [];
      var s := 0;
      while s < last
        invariant s <= last
        invariant NoneRaise(out, raises)
        invariant pass == out + PassFrom(g, s, last)
      {
        playCursor := Some(s);
        PassColumn(g, last, s, out, raises);
        var col, hit := FireColumn(g, s, raises);
        if hit {
          assert (out + col)[|out + col| - 1] == col[|col| - 1];
          return out + col, true;
        }
        out := out + col;
        s := s + 1;
      }
      assert pass == out;
      CutFacts(out, raises);
      stopped := false;
    }

    /**
     * The `while self.playing` loop of `playback_loop` with a non-negative
     * step duration, for a stop request first seen during pass `passes` just
     * before column `stopAt`. `raises` says for which triggers the
     * sequencer's `play_step_callback` raises; for the sequencer itself that
     * is `Callback(sequencer.CurrentVoices(), samples)`. Each column sets the
     * play cursor and fires the callback for its active cells in track order;
     * a callback that raises ends the thread there, with the play cursor left
     * on its column. Otherwise the cursor ends as None.
     */
    method PlaySession(passes: nat, stopAt: nat, raises: Trigger -> bool) returns (fired: seq<Trigger>)
      requires Valid() && stopAt <= sequencer.steps
      modifies this`playCursor
      ensures Valid()
      ensures fired == Cut(Schedule(sequencer.pattern, sequencer.steps, passes, stopAt), raises)
      ensures playCursor == if fired != [] && raises(fired[|fired| - 1]) then Some(fired[|fired| - 1].step) else None
    {
      var g, steps := sequencer.pattern, sequencer.steps;
      ghost var all := Cut(Schedule(g, steps, passes, stopAt), raises);
      fired := [];
      var p := 0;
      while p <= passes
        invariant p <= passes + 1
        invariant NoneRaise(fired, raises)
        invariant all == fired + Cut(SessionFrom(g, steps, passes, stopAt, p), raises)
      {
        var last := if p < passes then steps else stopAt;
        var out, stopped := FirePass(g, steps, last, raises);
        if stopped {
          // the exception ends the playback thread here
          assert all == fired + out by {
            SessionPass(g, steps, passes, stopAt, p, raises);
          }
          assert (fired + out)[|fired + out| - 1] == out[|out| - 1];
          return fired + out;
        }
        ghost var tail := Cut(SessionFrom(g, steps, passes, stopAt, p + 1), raises);
        assert all == (fired + out) + tail by {
          SessionPass(g, steps, passes, stopAt, p, raises);
          assert all == fired + (out + tail);
          AppendAssoc(fired, out, tail);
        }
        assert NoneRaise(fired + out, raises) by {
          NoneRaiseAppend(fired, out, raises);
        }
        fired := fired + out;
        p := p + 1;
      }
      assert SessionFrom(g, steps, passes, stopAt, p) == [];
      assert fired == [] || !raises(fired[|fired| - 1]);
      playCursor := None;
    }

    /**
     * The body of `playback_loop` once the step duration is known: the play
     * cursor goes to column 0, then the loop runs. A negative duration makes
     * the first `time.sleep` raise, right after column 0 has been played.
     */
    method PlayLoop(passes: nat, stopAt: nat, duration: real, raises: Trigger -> bool) returns (fired: seq<Trigger>)
      requires Valid() && stopAt <= sequencer.steps
      modifies this`playCursor
      ensures Valid()
      ensures fired == Delivered(sequencer.pattern, sequencer.steps, passes, stopAt, duration, raises)
      ensures duration < 0.0 && (passes > 0 || stopAt > 0) ==> playCursor == Some(0)
      ensures !(duration < 0.0 && (passes > 0 || stopAt > 0)) ==>
        playCursor == if fired != [] && raises(fired[|fired| - 1]) then Some(fired[|fired| - 1].step) else None
    {
      playCursor := Some(0);
      if duration >= 0.0 {
        fired := PlaySession(passes, stopAt, raises);
      } else if passes > 0 || stopAt > 0 {
        // the first `time.sleep` raises once column 0 has been played
        var stopped;
        fired, stopped := FireColumn(sequencer.pattern, 0, raises);
      } else {
        fired := [];
        playCursor := None;
      }
    }

    /**
     * `playback_loop`: the step duration is computed first; if that raises,
     * nothing fires and the play cursor is not touched.
     */
    method RunPlayback(passes: nat, stopAt: nat, raises: Trigger -> bool) returns (fired: seq<Trigger>)
      requires Valid() && stopAt <= sequencer.steps
      modifies this`playCursor
      ensures Valid()
      ensures sequencer.GetStepDuration().Err? ==> fired == [] && playCursor == old(playCursor)
      ensures sequencer.GetStepDuration().Ok? ==>
        fired == Delivered(sequencer.pattern, sequencer.steps, passes, stopAt, sequencer.GetStepDuration().value, raises)
      ensures sequencer.GetStepDuration().Ok? ==>
        var early := sequencer.GetStepDuration().value < 0.0 && (passes > 0 || stopAt > 0);
        && (early ==> playCursor == Some(0))
        && (!early ==> playCursor == if fired != [] && raises(fired[|fired| - 1]) then Some(fired[|fired| - 1].step) else None)
    {
      var duration := sequencer.GetStepDuration();
      if duration.Err? {
        return [];
      }
      fired := PlayLoop(passes, stopAt, duration.value, raises);
    }
  }
}
