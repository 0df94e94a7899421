/** The selection state of the trimmer window and its transitions: loading a
    file, switching the display unit, the slider callback with its
    re-entrancy flag, and the press / drag / release gesture on the waveform.
    Every event handler is a pure function from the state before the event to
    the state after it. */
module Selection {
  import opened Optional
  import opened TimeBasis

  /** The two boundaries of the selection, and the values of `dragging`. */
  datatype Boundary = Start | End

  /** What the decoder hands back for a file: its length in milliseconds
      (`len(audio)`) and its frame rate. */
  datatype Audio = Audio(lengthMs: nat, frameRate: int)

  /** The window's state. `start` and `end` are the two slider variables, in
      the current display unit; `sliderMax` and `resolution` are the sliders'
      configured range and step; `durationMs` is the audio length in
      milliseconds (the source keeps it as seconds, `durationMs / 1000`);
      `renders` counts the redraws of the waveform canvas. */
  datatype State = State(
    audio: Option<Audio>,
    sampleRate: int,
    durationMs: nat,
    unit: Unit,
    sliderMax: real,
    resolution: real,
    start: real,
    end: real,
    dragging: Option<Boundary>,
    updatingSliders: bool,
    renders: nat)

  /** The window as constructed: no audio, seconds, sliders over [0, 100]
      with step 0.001 and both variables at 0.0. */
  function Initial(): (s: State)
    ensures s.audio.None? && s.dragging.None? && !s.updatingSliders
    ensures s.start == s.end == 0.0 && s.renders == 0
    ensures s.unit == Seconds && s.resolution == Resolution(Seconds)
  {
    State(None, 44100, 0, Seconds, 100.0, 0.001, 0.0, 0.0, None, false, 0)
  }

  function Other(b: Boundary): Boundary {
    if b == Start then End else Start
  }

  /** The current value of one boundary's slider variable. */
  function Value(s: State, b: Boundary): real {
    if b == Start then s.start else s.end
  }

  /** Setting one slider variable: that boundary takes the new value, and
      nothing else in the state changes. */
  function SetBoundary(s: State, b: Boundary, v: real): (t: State)
    ensures Value(t, b) == v
    ensures Value(t, Other(b)) == Value(s, Other(b))
    ensures t.(start := s.start, end := s.end) == s
  {
    if b == Start then s.(start := v) else s.(end := v)
  }

  /** Redrawing the waveform and spectrum. The drawing itself has no effect on
      the selection; the redraw is skipped while no audio is loaded. */
  function Render(s: State): (t: State)
    ensures t.(renders := s.renders) == s
    ensures s.audio.Some? ==> t.renders == s.renders + 1
    ensures s.audio.None? ==> t == s
  {
    if s.audio.None? then s else s.(renders := s.renders + 1)
  }

  /** The unit update: both sliders are reconfigured for unit `u`, the
      selection is reset to the whole audio, and the waveform is redrawn. */
  function UpdateUnit(s: State, u: Unit): (t: State)
    ensures t.unit == u
    ensures t.sliderMax == SliderMax(u, s.durationMs)
    ensures t.resolution == Resolution(u)
    ensures t.start == 0.0 && t.end == t.sliderMax
    ensures u == Seconds ==> t.end * 1000.0 == s.durationMs as real && t.resolution == 0.001
    ensures u == Milliseconds ==> t.end == s.durationMs as real && t.resolution == 1.0
    ensures t.audio == s.audio && t.durationMs == s.durationMs && t.sampleRate == s.sampleRate
    ensures t.dragging == s.dragging && t.updatingSliders == s.updatingSliders
    ensures t.renders == if s.audio.Some? then s.renders + 1 else s.renders
  {
    var max := SliderMax(u, s.durationMs);
    var configured := s.(unit := u, sliderMax := max, resolution := Resolution(u));
    Render(configured.(start := 0.0, end := max))
  }

  /** Loading a file. `decoded` is the decoder's answer; `None` stands for the
      decoder raising, in which case nothing has been assigned yet and the
      state is left as it was. On success the audio replaces any previous
      one and the unit update resets the selection for the current unit. */
  function Load(s: State, decoded: Option<Audio>): (t: State)
    ensures decoded.None? ==> t == s
    ensures decoded.Some? ==> t.audio == decoded && t.sampleRate == decoded.value.frameRate
    ensures decoded.Some? ==> t.durationMs == decoded.value.lengthMs
    ensures decoded.Some? ==> t.unit == s.unit && t.start == 0.0
    ensures decoded.Some? ==> t.end == SliderMax(s.unit, decoded.value.lengthMs) == t.sliderMax
    ensures decoded.Some? ==> t.resolution == Resolution(s.unit)
    ensures decoded.Some? ==> t.renders == s.renders + 1
    ensures t.dragging == s.dragging && t.updatingSliders == s.updatingSliders
  {
    match decoded
    case None => s
    case Some(a) =>
      var withAudio := s.(audio := Some(a), sampleRate := a.frameRate, durationMs := a.lengthMs);
      UpdateUnit(withAudio, s.unit)
  }

  /** The sliders' command callback. While the re-entrancy flag is up it does
      nothing; otherwise it raises the flag, redraws once, and lowers it. */
  function SliderMoved(s: State): (t: State)
    ensures s.updatingSliders ==> t == s
    ensures t.updatingSliders == s.updatingSliders
    ensures t.(renders := s.renders) == s
    ensures !s.updatingSliders && s.audio.Some? ==> t.renders == s.renders + 1
    ensures s.audio.None? ==> t.renders == s.renders
  {
    if s.updatingSliders then s
    else
      var entered := s.(updatingSliders := true);
      Render(entered).(updatingSliders := false)
  }

  /** A slider dragged by the user: the widget stores the new value in the
      boundary's variable and then invokes the callback. */
  function SliderInput(s: State, b: Boundary, v: real): (t: State)
    ensures Value(t, b) == v && Value(t, Other(b)) == Value(s, Other(b))
    ensures t.dragging == s.dragging && t.updatingSliders == s.updatingSliders
    ensures t.(start := s.start, end := s.end, renders := s.renders) == s
    ensures !s.updatingSliders && s.audio.Some? ==> t.renders == s.renders + 1
  {
    SliderMoved(SetBoundary(s, b, v))
  }

  /** Distance between two positions on the time axis. */
  function Dist(x: real, y: real): (d: real)
    ensures 0.0 <= d
    ensures d == x - y || d == y - x
  {
    if x >= y then x - y else y - x
  }

  /** The boundary a press at `x` grabs, the start only when it is strictly
      nearer than the end. Stated by the midpoint of the two boundaries: the
      start is grabbed only on its own side of the midpoint, so a press at
      the midpoint, or anywhere when both boundaries coincide, grabs the end,
      and with an inverted selection a press left of the midpoint grabs the
      end. */
  function Nearer(s: State, x: real): (b: Boundary)
    ensures b == Start <==>
      || (s.start < s.end && x < (s.start + s.end) / 2.0)
      || (s.end < s.start && (s.start + s.end) / 2.0 < x)
    ensures s.start == s.end ==> b == End
  {
    if Dist(x, s.start) < Dist(x, s.end) then Start else End
  }

  /** A mouse press on the canvas, `x` being its data coordinate (`None`
      outside the axes). Without audio or without a coordinate nothing
      happens. Otherwise the nearer boundary (the end on a tie) jumps to `x`,
      unclamped, and becomes the drag target. The press does not redraw. */
  function Press(s: State, x: Option<real>): (t: State)
    ensures s.audio.None? || x.None? ==> t == s
    ensures s.audio.Some? && x.Some? ==>
      && t.dragging.Some?
      && (t.dragging.value == Start <==> Dist(x.value, s.start) < Dist(x.value, s.end))
      && Value(t, t.dragging.value) == x.value
      && Value(t, Other(t.dragging.value)) == Value(s, Other(t.dragging.value))
      && t.(start := s.start, end := s.end, dragging := s.dragging) == s
  {
    if s.audio.None? || x.None? then s
    else
      var b := Nearer(s, x.value);
      SetBoundary(s, b, x.value).(dragging := Some(b))
  }

  /** The pointer's test `if self.dragging and event.xdata`: a drag target must
      be set and the coordinate must be present and non-zero, since a float
      0.0 is falsy. */
  predicate DragApplies(s: State, x: Option<real>) {
    s.dragging.Some? && x.Some? && x.value != 0.0
  }

  /** Mouse motion over the canvas. When it applies, the boundary being
      dragged follows `x` (unclamped) and the waveform is redrawn; the other
      boundary and the drag target stay as they were. Otherwise the state is
      untouched. */
  function Drag(s: State, x: Option<real>): (t: State)
    ensures !DragApplies(s, x) ==> t == s
    ensures DragApplies(s, x) ==>
      && Value(t, s.dragging.value) == x.value
      && Value(t, Other(s.dragging.value)) == Value(s, Other(s.dragging.value))
      && t.(start := s.start, end := s.end, renders := s.renders) == s
      && t.renders == (if s.audio.Some? then s.renders + 1 else s.renders)
  {
    if DragApplies(s, x) then Render(SetBoundary(s, s.dragging.value, x.value))
    else s
  }

  /** Mouse release: the drag target is cleared, whatever it was. */
  function Release(s: State): (t: State)
    ensures t.dragging.None?
    ensures t.start == s.start && t.end == s.end
    ensures t.(dragging := s.dragging) == s
  {
    s.(dragging := None)
  }
}
