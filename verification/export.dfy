/** The "Trim Audio" action: the selection is read back as a millisecond
    range, rejected unless the end lies after the start, and otherwise saved
    under the path the save dialog returns, in the format named by that
    path's extension. Slicing and encoding belong to the audio library and
    are represented only by the outcome they would be given. */
module Export {
  import opened Optional
  import opened TimeBasis
  import opened Selection

  /** Python's `s.split(c)` for a one-character separator: the pieces between
      the occurrences of `c`, always at least one (possibly empty) piece. */
  function Split(s: string, c: char): (parts: seq<string>)
    ensures |parts| >= 1
    ensures forall i :: 0 <= i < |parts| ==> c !in parts[i]
    ensures Join(parts, c) == s
    decreases |s|
  {
    if |s| == 0 then [""]
    else
      var rest := Split(s[1..], c);
      if s[0] == c then
        assert Join([""] + rest, c) == [c] + Join(rest, c);
        [""] + rest
      else
        var parts := [[s[0]] + rest[0]] + rest[1..];
        JoinConsFirst(s[0], rest, c);
        parts
  }

  /** The pieces glued back together with `c` between them, `c.join(parts)`. */
  function Join(parts: seq<string>, c: char): string
    requires |parts| >= 1
  {
    if |parts| == 1 then parts[0] else parts[0] + [c] + Join(parts[1..], c)
  }

  /** Prefixing the first piece prefixes the joined string. */
  lemma JoinConsFirst(ch: char, parts: seq<string>, c: char)
    requires |parts| >= 1
    ensures Join([[ch] + parts[0]] + parts[1..], c) == [ch] + Join(parts, c)
  {
    var glued := [[ch] + parts[0]] + parts[1..];
    assert glued[1..] == parts[1..];
  }

  /** Joining splits off the last piece behind the last separator. */
  lemma {:induction false} JoinLast(parts: seq<string>, c: char)
    requires |parts| >= 2
    ensures Join(parts, c) == Join(parts[..|parts| - 1], c) + [c] + parts[|parts| - 1]
    decreases |parts|
  {
    var front := parts[..|parts| - 1];
    if |parts| == 2 {
      assert front == [parts[0]];
    } else {
      JoinLast(parts[1..], c);
      assert parts[1..][..|parts| - 2] == front[1..];
      assert front[0] == parts[0];
    }
  }

  /** `r` is the part of `s` after the last `c`, or all of `s` when it holds
      no `c`: a suffix of `s` free of `c`, preceded in `s` by a `c` unless it
      is the whole of `s`. */
  predicate IsLastSegment(s: string, c: char, r: string) {
    && |r| <= |s|
    && r == s[|s| - |r|..]
    && c !in r
    && (|r| < |s| ==> s[|s| - |r| - 1] == c)
  }

  /** The text after the last `c` of `s`, or `s` itself when `c` does not
      occur in it. */
  function LastSegment(s: string, c: char): (r: string)
    ensures IsLastSegment(s, c, r)
    ensures c !in s ==> r == s
    decreases |s|
  {
    if |s| == 0 then ""
    else if s[|s| - 1] == c then ""
    else
      var front := s[..|s| - 1];
      var seg := LastSegment(front, c);
      assert s[|s| - |seg| - 1..] == front[|front| - |seg|..] + [s[|s| - 1]];
      seg + [s[|s| - 1]]
  }

  /** Only one string is the last segment of `s`. */
  lemma {:induction false} LastSegmentUnique(s: string, c: char, r: string)
    requires IsLastSegment(s, c, r)
    ensures r == LastSegment(s, c)
    decreases |s|
  {
    if |s| == 0 {
    } else if s[|s| - 1] == c {
    } else {
      var front := s[..|s| - 1];
      var r' := r[..|r| - 1];
      assert r' == front[|front| - |r'|..];
      assert forall k :: 0 <= k < |r'| ==> r'[k] == r[k];
      assert |r'| < |front| ==> front[|front| - |r'| - 1] == s[|s| - |r| - 1];
      LastSegmentUnique(front, c, r');
      assert r == r' + [s[|s| - 1]];
    }
  }

  /** Taking the last piece of `s.split(c)` yields the last segment. */
  lemma {:induction false} LastOfSplit(s: string, c: char)
    ensures Split(s, c)[|Split(s, c)| - 1] == LastSegment(s, c)
  {
    var parts := Split(s, c);
    var last := parts[|parts| - 1];
    if |parts| == 1 {
      assert IsLastSegment(s, c, last);
    } else {
      JoinLast(parts, c);
      var head := Join(parts[..|parts| - 1], c) + [c];
      assert s == head + last;
      assert s[|s| - |last|..] == last;
      assert s[|s| - |last| - 1] == head[|head| - 1];
      assert IsLastSegment(s, c, last);
    }
    LastSegmentUnique(s, c, last);
  }

  /** The export format, `output_path.split(".")[-1]`. */
  function Format(outputPath: string): (format: string)
    ensures IsLastSegment(outputPath, '.', format)
    ensures var parts := Split(outputPath, '.'); format == parts[|parts| - 1]
  {
    LastOfSplit(outputPath, '.');
    LastSegment(outputPath, '.')
  }

  /** What pressing "Trim Audio" comes to. The millisecond range is carried by
      every outcome past the audio check. The audio is sliced before the save
      dialog opens, so it is sliced in both `SaveCancelled` and `Saved`; it is
      exported only in `Saved`. */
  datatype TrimOutcome =
    | NoAudioSelected
    | EndNotAfterStart(startMs: int, endMs: int)
    | SaveCancelled(startMs: int, endMs: int)
    | Saved(startMs: int, endMs: int, path: string, format: string)

  /** The range the selection reads back as, `int(v * 1000)` of each slider. */
  predicate ReadsBackAs(s: State, startMs: int, endMs: int) {
    startMs == ToMs(s.start) && endMs == ToMs(s.end)
  }

  /** The trim action on state `s`; `outputPath` is what the save dialog
      would return, the empty string when it is cancelled. The dialog is only
      consulted once the range has been validated. */
  function Trim(s: State, outputPath: string): (r: TrimOutcome)
    ensures r.NoAudioSelected? <==> s.audio.None?
    ensures !r.NoAudioSelected? ==> ReadsBackAs(s, r.startMs, r.endMs)
    ensures r.EndNotAfterStart? ==> r.startMs >= r.endMs
    ensures r.SaveCancelled? || r.Saved? ==> r.startMs < r.endMs
    ensures r.SaveCancelled? ==> outputPath == ""
    ensures r.Saved? ==> r.path == outputPath != "" && IsLastSegment(outputPath, '.', r.format)
  {
    if s.audio.None? then NoAudioSelected
    else
      var startMs := ToMs(s.start);
      var endMs := ToMs(s.end);
      if startMs >= endMs then EndNotAfterStart(startMs, endMs)
      else if outputPath == "" then SaveCancelled(startMs, endMs)
      else Saved(startMs, endMs, outputPath, Format(outputPath))
  }

  /** An inverted or empty selection never reaches slicing or saving. */
  lemma TrimRejectsInverted(s: State, outputPath: string)
    requires s.audio.Some?
    requires s.end <= s.start
    ensures Trim(s, outputPath).EndNotAfterStart?
  {
    TruncMonotone(s.end * 1000.0, s.start * 1000.0);
  }

  /** Conversely, whenever the audio is sliced the selection runs forward. */
  lemma TrimProceedsOnlyForward(s: State, outputPath: string)
    requires Trim(s, outputPath).Saved? || Trim(s, outputPath).SaveCancelled?
    ensures s.audio.Some? && s.start < s.end
  {
    if s.end <= s.start {
      TrimRejectsInverted(s, outputPath);
    }
  }

  /** The check is on whole milliseconds: a forward selection that does not
      span a millisecond boundary is rejected too. */
  lemma TrimRejectsSubMillisecond(s: State, outputPath: string)
    requires s.audio.Some?
    requires s.start == 0.0001 && s.end == 0.0009
    ensures s.start < s.end
    ensures Trim(s, outputPath) == EndNotAfterStart(0, 0)
  {
  }

  /** Until the range has been validated the save path plays no part. */
  lemma TrimFailuresIgnorePath(s: State, p: string, q: string)
    requires Trim(s, p).NoAudioSelected? || Trim(s, p).EndNotAfterStart?
    ensures Trim(s, q) == Trim(s, p)
  {
  }

  /** In the seconds unit a selection inside the sliders' range reads back as
      a millisecond range inside the audio. */
  lemma TrimSecondsWithinAudio(s: State, outputPath: string)
    requires s.audio.Some? && s.unit == Seconds
    requires s.sliderMax == SliderMax(Seconds, s.durationMs)
    requires 0.0 <= s.start && s.end <= s.sliderMax
    requires Trim(s, outputPath).Saved?
    ensures 0 <= Trim(s, outputPath).startMs < Trim(s, outputPath).endMs <= s.durationMs
  {
    TruncMonotone(s.end * 1000.0, s.sliderMax * 1000.0);
    MaxReadBack(Seconds, s.durationMs);
  }

  /** Trimming straight after a load reads the whole audio back: its exact
      length in the seconds unit, but a thousand times its length in the
      milliseconds unit, where the slider values are already milliseconds
      and are scaled by 1000 once more. */
  lemma TrimAfterLoad(s: State, a: Audio, outputPath: string)
    requires a.lengthMs > 0
    ensures var r := Trim(Load(s, Some(a)), outputPath);
      && !r.NoAudioSelected? && !r.EndNotAfterStart?
      && r.startMs == 0
      && r.endMs == (if s.unit == Seconds then a.lengthMs else a.lengthMs * 1000)
  {
    MaxReadBack(s.unit, a.lengthMs);
  }
}
