/** The display unit of the selection sliders, the slider range and step that
    follow from it, and the conversion of a slider value to milliseconds that
    is applied when the selection is read back for slicing.

    Slider values are modelled as exact `real`s. */
module TimeBasis {

  /** The two values of the "Time Unit" radio buttons. */
  datatype Unit = Seconds | Milliseconds

  /** Python's `int()` on a float: truncation toward zero. */
  function Trunc(x: real): (r: int)
    ensures 0.0 <= x ==> 0 <= r && r as real <= x < r as real + 1.0
    ensures x < 0.0 ==> r <= 0 && r as real - 1.0 < x <= r as real
  {
    if x >= 0.0 then x.Floor else -((-x).Floor)
  }

  /** Truncation is odd: it rounds toward zero on both sides. */
  lemma TruncNegate(x: real)
    ensures Trunc(-x) == -Trunc(x)
  {
  }

  /** Truncation preserves order (not strictly: nearby values may collide). */
  lemma TruncMonotone(x: real, y: real)
    requires x <= y
    ensures Trunc(x) <= Trunc(y)
  {
  }

  /** A slider value read back as milliseconds, `int(v * 1000)`. The same
      scaling is used whatever unit the sliders currently show. */
  function ToMs(v: real): (ms: int)
    ensures 0.0 <= v ==> 0 <= ms && ms as real <= v * 1000.0 < ms as real + 1.0
    ensures v < 0.0 ==> ms <= 0 && ms as real - 1.0 < v * 1000.0 <= ms as real
  {
    Trunc(v * 1000.0)
  }

  /** A seconds value on the 0.001 grid of the seconds slider reads back as
      exactly its number of milliseconds. */
  lemma ToMsOnSecondsGrid(k: int)
    ensures ToMs(k as real / 1000.0) == k
  {
    assert (k as real / 1000.0) * 1000.0 == k as real;
    if k < 0 {
      assert (-(k as real)).Floor == -k;
    }
  }

  /** The upper end of both sliders after a unit update, given the audio's
      length in milliseconds: the duration in seconds, `len / 1000`, or that
      duration times 1000 in milliseconds. Both steps are exact here; the
      window computes them in floating point. */
  function SliderMax(u: Unit, durationMs: nat): (m: real)
    ensures 0.0 <= m
    ensures u == Seconds ==> m * 1000.0 == durationMs as real
    ensures u == Milliseconds ==> m == durationMs as real
  {
    var seconds := durationMs as real / 1000.0;
    if u == Seconds then seconds else seconds * 1000.0
  }

  /** The step of both sliders: a millisecond, expressed in the current unit. */
  function Resolution(u: Unit): (step: real)
    ensures 0.0 < step
    ensures step == SliderMax(u, 1)
  {
    if u == Seconds then 0.001 else 1.0
  }

  /** The slider maximum read back as milliseconds: the audio length in the
      seconds unit, but a thousand times the audio length in the milliseconds
      unit, since the read-back always multiplies by 1000. */
  lemma MaxReadBack(u: Unit, durationMs: nat)
    ensures u == Seconds ==> ToMs(SliderMax(u, durationMs)) == durationMs
    ensures u == Milliseconds ==> ToMs(SliderMax(u, durationMs)) == durationMs * 1000
  {
    ToMsOnSecondsGrid(durationMs);
    if u == Milliseconds {
      assert SliderMax(u, durationMs) * 1000.0 == (durationMs * 1000) as real;
    }
  }
}
