/** The trimmer window as a whole: every user event dispatched to its handler,
    runs of events from the freshly constructed window, the invariant every
    reachable state keeps, and the rules of the press / drag / release
    gesture and of the unit update across several events. */
module Session {
  import opened Optional
  import opened TimeBasis
  import opened Selection

  /** The events the window reacts to. `OpenFile` carries the decoder's
      answer for the chosen file; the pointer events carry the data
      coordinate under the pointer, `None` outside the axes. */
  datatype Event =
    | OpenFile(decoded: Option<Audio>)
    | ChooseUnit(u: Unit)
    | MoveSlider(b: Boundary, v: real)
    | PointerPress(x: Option<real>)
    | PointerMotion(x: Option<real>)
    | PointerRelease

  function Step(s: State, e: Event): State {
    match e
    case OpenFile(decoded) => Load(s, decoded)
    case ChooseUnit(u) => UpdateUnit(s, u)
    case MoveSlider(b, v) => SliderInput(s, b, v)
    case PointerPress(x) => Press(s, x)
    case PointerMotion(x) => Drag(s, x)
    case PointerRelease => Release(s)
  }

  /** The state after handling `events` in order, starting from `s`. */
  function Run(s: State, events: seq<Event>): State
    decreases |events|
  {
    if |events| == 0 then s else Run(Step(s, events[0]), events[1..])
  }

  /** What holds between events: a drag target exists only once audio is
      loaded; the re-entrancy flag is down; nothing has been drawn while no
      audio is loaded; and with audio loaded, the sliders are configured for
      its length in the current unit. */
  predicate Inv(s: State) {
    && (s.dragging.Some? ==> s.audio.Some?)
    && !s.updatingSliders
    && (s.audio.None? ==> s.renders == 0 && s.durationMs == 0)
    && (s.audio.Some? ==>
          && s.durationMs == s.audio.value.lengthMs
          && s.sliderMax == SliderMax(s.unit, s.durationMs)
          && s.resolution == Resolution(s.unit))
  }

  lemma InitialInv()
    ensures Inv(Initial())
  {
  }

  lemma StepPreservesInv(s: State, e: Event)
    requires Inv(s)
    ensures Inv(Step(s, e))
    ensures Step(s, e).renders <= s.renders + 1
  {
  }

  /** Every state reachable from an invariant state keeps the invariant, and
      each event redraws at most once. */
  lemma {:induction false} RunPreservesInv(s: State, events: seq<Event>)
    requires Inv(s)
    ensures Inv(Run(s, events))
    ensures Run(s, events).renders <= s.renders + |events|
    decreases |events|
  {
    if |events| > 0 {
      StepPreservesInv(s, events[0]);
      RunPreservesInv(Step(s, events[0]), events[1..]);
    }
  }

  /** In particular the re-entrancy flag is down whenever an event arrives,
      so every slider move redraws once the audio is loaded. */
  lemma SliderMoveRedrawsWhenLoaded(events: seq<Event>, b: Boundary, v: real)
    requires Run(Initial(), events).audio.Some?
    ensures var s := Run(Initial(), events);
      Step(s, MoveSlider(b, v)).renders == s.renders + 1
  {
    InitialInv();
    RunPreservesInv(Initial(), events);
  }

  /** A release leaves no drag target, so motion after it changes nothing. */
  lemma MotionAfterReleaseIgnored(s: State, x: Option<real>)
    ensures Drag(Release(s), x) == Release(s)
    ensures Release(s).start == s.start && Release(s).end == s.end
  {
  }

  /** Pressing at `x` and moving to `y`: the boundary the press grabbed ends
      at `y` (or stays at `x` when `y` is the ignored 0.0), and the other
      boundary never moves. */
  lemma PressThenMotion(s: State, x: real, y: real)
    requires s.audio.Some?
    ensures var p := Press(s, Some(x));
      var t := Drag(p, Some(y));
      var b := p.dragging.value;
      && t.dragging == p.dragging
      && Value(t, b) == (if y == 0.0 then x else y)
      && Value(t, Other(b)) == Value(s, Other(b))
  {
  }

  /** Handling a sequence of pointer motions. */
  function DragAll(s: State, xs: seq<Option<real>>): State
    decreases |xs|
  {
    if |xs| == 0 then s else DragAll(Drag(s, xs[0]), xs[1..])
  }

  /** However long the drag, it keeps its target, never moves the other
      boundary, and leaves the target boundary where it was or at one of the
      non-zero coordinates the pointer passed through. */
  lemma {:induction false} DragsMoveOnlyTarget(s: State, xs: seq<Option<real>>)
    requires s.dragging.Some?
    ensures var t := DragAll(s, xs);
      var b := s.dragging.value;
      && t.dragging == s.dragging
      && Value(t, Other(b)) == Value(s, Other(b))
      && (Value(t, b) == Value(s, b)
          || exists i :: 0 <= i < |xs| && xs[i] == Some(Value(t, b)) && Value(t, b) != 0.0)
    decreases |xs|
  {
    if |xs| > 0 {
      var b := s.dragging.value;
      var s1 := Drag(s, xs[0]);
      DragsMoveOnlyTarget(s1, xs[1..]);
      var t := DragAll(s1, xs[1..]);
      if Value(t, b) != Value(s1, b) {
        var i :| 0 <= i < |xs[1..]| && xs[1..][i] == Some(Value(t, b)) && Value(t, b) != 0.0;
        assert xs[i + 1] == Some(Value(t, b));
      } else if Value(t, b) != Value(s, b) {
        assert xs[0] == Some(Value(t, b));
      }
    }
  }

  /** A unit update discards the selection: the result is the same whatever
      the previous start, end and unit were. */
  lemma UnitUpdateForgetsSelection(s: State, start: real, end: real, previous: Unit, u: Unit)
    ensures UpdateUnit(s.(start := start, end := end, unit := previous), u) == UpdateUnit(s, u)
  {
  }

  /** Switching to milliseconds and back to seconds lands on the full range,
      which reads back as [0, length] in milliseconds, whatever was selected
      before. */
  lemma ToggleTwiceResetsSelection(s: State)
    ensures var t := UpdateUnit(UpdateUnit(s, Milliseconds), Seconds);
      && t.start == 0.0 && ToMs(t.start) == 0
      && ToMs(t.end) == s.durationMs
  {
    MaxReadBack(Seconds, s.durationMs);
  }

  /** Loading discards the previous selection: two windows that differ only
      in their selection are identical after loading the same audio, which
      is selected from 0 to its full length in the current unit. */
  lemma LoadForgetsSelection(s: State, start: real, end: real, a: Audio)
    ensures Load(s.(start := start, end := end), Some(a)) == Load(s, Some(a))
    ensures Load(s, Some(a)).start == 0.0
    ensures Load(s, Some(a)).end == SliderMax(s.unit, a.lengthMs)
  {
  }

  /** With 10000 ms of audio shown in milliseconds and [1000, 9000]
      selected, a press at 950 grabs the start and a press at 8900 grabs the
      end; a press exactly half way grabs the end. */
  lemma PressScenario(a: Audio)
    requires a.lengthMs == 10000
    ensures var s := Load(Step(Initial(), ChooseUnit(Milliseconds)), Some(a))
                     .(start := 1000.0, end := 9000.0);
      && Press(s, Some(950.0)).dragging == Some(Start)
      && Press(s, Some(950.0)).start == 950.0 && Press(s, Some(950.0)).end == 9000.0
      && Press(s, Some(8900.0)).dragging == Some(End)
      && Press(s, Some(8900.0)).start == 1000.0 && Press(s, Some(8900.0)).end == 8900.0
      && Press(s, Some(5000.0)).dragging == Some(End)
  {
  }
}
