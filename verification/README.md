# Audio Trimmer selection model

A Dafny model of the selection logic inside `audio_trimmer.py`, a Tkinter
window that loads an audio file, shows its waveform and spectrum, and
exports a chosen time range. The model has no widgets and no audio library.
It keeps only the window's selection state:

- the two slider variables `start` and `end`;
- the display unit (seconds or milliseconds), with the slider maximum and step that follow from it;
- the audio length in milliseconds;
- the drag target (`dragging`);
- the `updating_sliders` re-entrancy flag;
- whether audio is loaded;
- a count of waveform redraws.

Every event handler is a pure function from state to state. The handlers are
file load, unit choice, slider move, pointer press, pointer motion and
pointer release. The "Trim Audio" action is a pure function from the state
and the save dialog's answer to an outcome.

Modules:

- `TimeBasis` (`time_basis.dfy`): the display unit, the slider range and step for a unit, Python's truncating `int()` and the `int(v * 1000)` read-back.
- `Optional` (`optional.dfy`): the `Option` datatype for values the window tests against `None`.
- `Selection` (`selection.dfy`): the `State` datatype and one function per event handler.
- `Export` (`export.dfy`): trim validation, the outcome datatype, and the export format `output_path.split(".")[-1]`, with a model of Python's `split` and `join`.
- `Session` (`session.dfy`): event dispatch, runs of events, the invariant every reachable state keeps, and properties that span several events.

Slider values and pointer coordinates are exact `real`s. The audio length is
a `nat` number of milliseconds, `len(audio)`. The source stores it as seconds,
the float quotient `len(audio) / 1000` (line 76), and multiplies it back by
1000 for the milliseconds unit (line 83). The model does both steps exactly,
so the read-backs it proves hold for reals; "## Left out" names the members
whose exact read-back a float computation can miss by one millisecond.

The model follows the code as written, including where it differs from a
cleaner design:

- The handlers do not clamp pointer positions to the audio. In the model a press or drag can put a boundary below 0 or past the end; what the Tk widget then does with such a value is listed under "## Left out".
- A press grabs the start only when the start is strictly nearer. A tie goes to the end.
- Pointer motion at x = 0.0 is ignored, because the handler tests `event.xdata` for truthiness.
- A press sets the boundary but does not redraw. Only motion, slider moves, unit changes and loads redraw.
- A unit change resets the selection to the full range in the new unit. The previous selection is not carried over.
- The read-back `int(v * 1000)` is applied in both units. In the milliseconds unit the slider values are already milliseconds, so trimming reads back a range 1000 times too large. `Export.TrimAfterLoad` states this: after a load in milliseconds the full selection reads back as [0, 1000 × length]. The audio library's slicing of such a range is not modelled.

## Model

| member | source | states |
|---|---|---|
| TimeBasis.Trunc | audio_trimmer.py:166-167 | `int()` truncates toward zero: the result lies within 1 of its argument, on the zero side |
| TimeBasis.TruncNegate | audio_trimmer.py:166-167 | truncation treats negative values symmetrically, `int(-x) == -int(x)` |
| TimeBasis.TruncMonotone | audio_trimmer.py:166-167 | truncation never reverses the order of two slider values |
| TimeBasis.ToMs | audio_trimmer.py:166-167 | the millisecond read-back of a slider value lies within one millisecond of value × 1000, on the zero side |
| TimeBasis.ToMsOnSecondsGrid | audio_trimmer.py:84 | a seconds value on the 0.001 slider grid reads back as exactly its number of milliseconds |
| TimeBasis.SliderMax | audio_trimmer.py:83 | the slider maximum is the audio length expressed in the chosen unit |
| TimeBasis.Resolution | audio_trimmer.py:84 | the slider step is one millisecond expressed in the chosen unit, 0.001 s or 1 ms |
| TimeBasis.MaxReadBack | audio_trimmer.py:83-84 | the slider maximum reads back as the audio length in seconds mode, and as 1000 × the length in milliseconds mode |
| Selection.Initial | audio_trimmer.py:16-21 | the new window has no audio, no drag target, the flag down, unit seconds and both boundaries at 0 |
| Selection.Render | audio_trimmer.py:94-97 | a redraw changes nothing in the selection and is skipped while no audio is loaded |
| Selection.UpdateUnit | audio_trimmer.py:80-92 | a unit update sets the slider maximum to the audio length in that unit and the step to 0.001 or 1, resets the selection to [0, max], keeps the drag target, and redraws |
| Selection.Load | audio_trimmer.py:72-78 | a decode failure leaves the state untouched; a success installs the audio and its frame rate, resets the selection to [0, max] in the current unit, and redraws |
| Selection.SliderMoved | audio_trimmer.py:128-134 | with the flag up the callback is a no-op; otherwise it redraws once and the flag ends down |
| Selection.SliderInput | audio_trimmer.py:42-46 | a slider move sets only its own boundary and runs the guarded callback |
| Selection.Nearer | audio_trimmer.py:140 | a press grabs the start exactly when it falls strictly on the start's side of the midpoint between the boundaries; at the midpoint, or when the boundaries coincide, it grabs the end |
| Selection.Press | audio_trimmer.py:136-145 | without audio or a coordinate nothing changes; otherwise the nearer boundary (end on a tie) moves to x unclamped, becomes the drag target, and the other boundary stays |
| Selection.Drag | audio_trimmer.py:147-154 | with a drag target and a non-zero x, only the target boundary moves, to x, and the window redraws; otherwise nothing changes |
| Selection.Release | audio_trimmer.py:156-158 | a release clears the drag target from any state and changes nothing else |
| Export.Split | audio_trimmer.py:178 | `str.split` yields at least one piece, no piece contains the separator, and joining the pieces gives back the string |
| Export.LastSegment | audio_trimmer.py:178 | the result is the suffix after the last '.', or the whole path when there is none |
| Export.LastSegmentUnique | audio_trimmer.py:178 | exactly one string is the suffix after the last separator |
| Export.LastOfSplit | audio_trimmer.py:178 | the last piece of `split(".")` is the suffix after the last '.' |
| Export.Format | audio_trimmer.py:178 | the export format is `output_path.split(".")[-1]`, the text after the path's last '.' |
| Export.Trim | audio_trimmer.py:160-179 | no audio gives "No audio file selected"; otherwise the range is the truncated ×1000 read-back, rejected when start_ms >= end_ms, and saved only with a non-empty path in that path's format |
| Export.TrimRejectsInverted | audio_trimmer.py:166-171 | an inverted or empty selection is rejected before any slicing or saving |
| Export.TrimProceedsOnlyForward | audio_trimmer.py:169-173 | slicing happens only with audio loaded and start < end |
| Export.TrimRejectsSubMillisecond | audio_trimmer.py:166-171 | a forward selection within one millisecond, 0.0001 to 0.0009 s, is rejected too |
| Export.TrimFailuresIgnorePath | audio_trimmer.py:160-176 | both failures are decided before the save dialog is consulted |
| Export.TrimSecondsWithinAudio | audio_trimmer.py:166-173 | in seconds mode a selection inside the slider range slices within [0, audio length] ms |
| Export.TrimAfterLoad | audio_trimmer.py:166-169 | right after a load the full selection passes validation and reads back as [0, length] in seconds mode, [0, 1000 × length] in milliseconds mode |
| Session.InitialInv | audio_trimmer.py:16-21 | the new window satisfies the between-events invariant |
| Session.StepPreservesInv | audio_trimmer.py:72-158 | every handler keeps the invariant and redraws at most once. The invariant: a drag target exists only with audio loaded; the flag is down; nothing is drawn before audio is loaded; loaded sliders match the audio length and unit |
| Session.RunPreservesInv | audio_trimmer.py:72-158 | any run of events keeps the invariant and redraws at most once per event |
| Session.SliderMoveRedrawsWhenLoaded | audio_trimmer.py:128-134 | in every reachable state with audio, a slider move redraws exactly once, so the guard never swallows a user move |
| Session.MotionAfterReleaseIgnored | audio_trimmer.py:149-158 | after a release, pointer motion changes nothing, and the release moved no boundary |
| Session.PressThenMotion | audio_trimmer.py:136-154 | press then motion moves only the grabbed boundary, to the motion's x, or leaves it at the press x when motion is at 0.0 |
| Session.DragsMoveOnlyTarget | audio_trimmer.py:147-154 | over any sequence of motions the target is kept, the other boundary never moves, and the target ends at its start value or at a non-zero coordinate passed through |
| Session.UnitUpdateForgetsSelection | audio_trimmer.py:80-90 | the state after a unit update is independent of the previous selection and unit |
| Session.ToggleTwiceResetsSelection | audio_trimmer.py:80-90 | seconds→milliseconds→seconds ends at the full range, which reads back as [0, length] ms |
| Session.LoadForgetsSelection | audio_trimmer.py:72-90 | loading yields [0, max] in the current unit, independent of the previous selection |
| Session.PressScenario | audio_trimmer.py:136-145 | with 10000 ms shown in milliseconds and [1000, 9000] selected, a press at 950 grabs the start, at 8900 the end, and at the midpoint the end |

## Left out

- Widget construction, layout, the file dialogs and the message boxes (lines 11-70, 163, 170, 175-179) are user interface. The dialog's answer is the `outputPath` parameter of `Export.Trim`, with "" for cancel. The message boxes are the outcome constructors.
- Decoding, slicing `self.audio[start_ms:end_ms]` and export (lines 74-75, 102, 173, 178) are calls into the audio library. Decoding becomes an `Option<Audio>` parameter, `None` when it raises. The audio is sliced before the save dialog opens, so slicing happens in both the `SaveCancelled` and `Saved` outcomes, which carry the range. Export happens only in `Saved`, with its path and format. An encoder failure is not modelled.
- Sample normalisation, the time axis and the FFT spectrum (lines 105-124) are floating-point numerics over numpy and scipy. Plotting and the canvas redraw (lines 110-126) are rendering. `Selection.Render` keeps only the fact that a redraw happens, and only with audio loaded.
- TimeBasis.ToMs: models `v * 1000` on exact reals, not IEEE doubles. A float product can land just below a whole number: 1.001 × 1000 is 1000.9999999999999 in doubles, which truncates to 1000, not 1001.
- TimeBasis.SliderMax: computes `len / 1000` and the milliseconds unit's `× 1000` exactly; in doubles both steps can round.
- TimeBasis.ToMsOnSecondsGrid: the exact read-back k / 1000 → k holds for reals only; in doubles k = 1001 reads back as 1000.
- TimeBasis.MaxReadBack: the exact read-back of the slider maximum holds for reals only; in doubles a 1001 ms file reads back as 1000 in seconds mode and 1000999 in milliseconds mode.
- Export.TrimAfterLoad: the exact [0, length] and [0, 1000 × length] ranges hold for reals only; in doubles the end can be one millisecond short, as for a 1001 ms file.
- Session.ToggleTwiceResetsSelection: the end reads back as exactly the length for reals only; in doubles it can be one millisecond short.
- Selection.SliderInput, Selection.Press, Selection.Drag: store the value in the boundary's variable as given. All three write the same Tk slider variables (lines 42-46, 142, 145, 151, 153). Tk's own rounding of those variables to the step and clamping to the range happen inside the widget library and are not visible in this file. So a press or drag beyond the audio leaves a boundary outside [0, max] in the model, but not necessarily in the widget.
- The spectrum's sample rate (`self.sample_rate`, line 75) is recorded in the state, but nothing in the model uses it, since the analysis is left out.
