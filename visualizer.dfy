/**
 * The `DataMusicVisualizer` object: the live-data buffer, the playback
 * cursor driven by the playback interval, the live catch-up of the cursor,
 * and the zoom controls. The rendering, the synthesizer and the timers are
 * not modelled; a tick returns the note it plays instead of sounding it.
 */
module Visualizer {
  import opened Wrappers
  import Notes
  import Normalizer
  import Zoom

  /** `maxBufferSize`: how many live points the buffer keeps. */
  const MaxBufferSize: nat := 150

  // ---------------------------------------------------------------- live buffer

  /**
   * `addToLiveBuffer(x)` on the buffer's contents: push `x`, then drop the
   * oldest point when the buffer has grown past its capacity.
   */
  function BufferPush(buf: seq<real>, x: real): (r: seq<real>)
    ensures |r| >= 1 && r[|r| - 1] == x
    ensures |r| <= |buf| + 1 && r == (buf + [x])[|buf| + 1 - |r|..]
    ensures |buf| <= MaxBufferSize ==> |r| <= MaxBufferSize
  {
    var pushed := buf + [x];
    if |pushed| > MaxBufferSize then pushed[1..] else pushed
  }

  /**
   * Below capacity a push only appends; at capacity it also evicts exactly
   * the oldest point, the others keeping their order.
   */
  lemma BufferPushEvictsOldest(buf: seq<real>, x: real)
    ensures |buf| < MaxBufferSize ==> BufferPush(buf, x) == buf + [x]
    ensures |buf| == MaxBufferSize ==> BufferPush(buf, x) == buf[1..] + [x]
  {
    if |buf| == MaxBufferSize {
      assert (buf + [x])[1..] == buf[1..] + [x];
    }
  }

  /** The newest `MaxBufferSize` points of a series, in arrival order. */
  function Newest(s: seq<real>): (r: seq<real>)
    ensures |r| == if |s| <= MaxBufferSize then |s| else MaxBufferSize
    ensures r == s[|s| - |r|..]
  {
    if |s| <= MaxBufferSize then s else s[|s| - MaxBufferSize..]
  }

  /** The buffer after the points `xs` arrived one by one. */
  function PushAll(buf: seq<real>, xs: seq<real>): (r: seq<real>)
    ensures |buf| <= MaxBufferSize ==> |r| <= MaxBufferSize
    ensures |xs| > 0 ==> |r| > 0 && r[|r| - 1] == xs[|xs| - 1]
    decreases |xs|
  {
    if |xs| == 0 then buf
    else BufferPush(PushAll(buf, xs[..|xs| - 1]), xs[|xs| - 1])
  }

  /** Keeping the newest points commutes with one more arrival. */
  lemma NewestPush(s: seq<real>, x: real)
    ensures Newest(Newest(s) + [x]) == Newest(s + [x])
  {
    var a, b := Newest(Newest(s) + [x]), Newest(s + [x]);
    assert |a| == |b|;
    forall i | 0 <= i < |a| ensures a[i] == b[i] {
      var n := Newest(s);
      assert a[i] == (n + [x])[|n| + 1 - |a| + i];
      assert b[i] == (s + [x])[|s| + 1 - |b| + i];
    }
  }

  /** A buffer within capacity takes a point as the newest points of the extended series. */
  lemma BufferPushIsNewest(buf: seq<real>, x: real)
    requires |buf| <= MaxBufferSize
    ensures BufferPush(buf, x) == Newest(buf + [x])
  {
  }

  /**
   * The buffer is a sliding window: after any run of arrivals it holds
   * exactly the newest `min(150, n)` points of everything that arrived,
   * oldest first.
   */
  lemma {:induction false} PushAllKeepsNewest(buf: seq<real>, xs: seq<real>)
    requires |buf| <= MaxBufferSize
    ensures PushAll(buf, xs) == Newest(buf + xs)
  {
    if |xs| == 0 {
      assert buf + xs == buf;
    } else {
      var init, last := xs[..|xs| - 1], xs[|xs| - 1];
      calc {
        PushAll(buf, xs);
        BufferPush(PushAll(buf, init), last);
        { PushAllKeepsNewest(buf, init); }
        BufferPush(Newest(buf + init), last);
        { BufferPushIsNewest(Newest(buf + init), last); }
        Newest(Newest(buf + init) + [last]);
        { NewestPush(buf + init, last); }
        Newest(buf + init + [last]);
        { assert buf + init + [last] == buf + xs; }
        Newest(buf + xs);
      }
    }
  }

  /** Starting from an empty buffer, the first 150 points are all kept. */
  lemma {:induction false} FillsUpToCapacity(xs: seq<real>)
    requires |xs| <= MaxBufferSize
    ensures PushAll([], xs) == xs
  {
    PushAllKeepsNewest([], xs);
    assert [] + xs == xs;
  }

  /** The zoom levels the controls reach span one, two or four octaves. */
  lemma OctaveRangeOfZoomLevel(z: int)
    requires Zoom.IsZoomLevel(z)
    ensures var k := Notes.OctaveRange(z); k == 1 || k == 2 || k == 4
    ensures Notes.OctaveRange(Zoom.ZoomInLevel(z)) >= Notes.OctaveRange(z)
  {
    Notes.ZoomOctaves();
  }

  // ---------------------------------------------------------------- playback cursor

  /** The playback cursor: the position of the next point to play and whether playback runs. */
  datatype Cursor = Cursor(position: nat, playing: bool)

  /**
   * One tick of the playback interval after the note at `position` was
   * played, over a series of `len` points. The cursor advances; at the end a
   * live session rewinds to the last ten points and keeps playing, while a
   * static session stops and rewinds to the start.
   */
  function AfterTick(position: nat, len: nat, live: bool): (c: Cursor)
    ensures live ==> c.playing
    ensures !live ==> (c.playing <==> position + 1 < len)
    ensures position + 1 < len ==> c == Cursor(position + 1, true)
    ensures !c.playing ==> c.position == 0
    ensures live && position + 1 >= len ==> c.position == if len >= 10 then len - 10 else 0
    ensures len > 0 ==> c.position < len
  {
    var next := position + 1;
    if live then
      if next >= len then Cursor(if len - 10 > 0 then len - 10 else 0, true) else Cursor(next, true)
    else
      if next >= len then Cursor(0, false) else Cursor(next, true)
  }

  /** The cursor after at most `n` ticks; a stopped cursor is no longer ticked. */
  function Run(c: Cursor, len: nat, live: bool, n: nat): (r: Cursor)
    ensures len > 0 && c.position < len ==> r.position < len
    ensures live && c.playing ==> r.playing
    decreases n
  {
    if n == 0 || !c.playing then c
    else Run(AfterTick(c.position, len, live), len, live, n - 1)
  }

  /** Ticking `a` times and then `b` times is ticking `a + b` times. */
  lemma {:induction false} RunSplit(c: Cursor, len: nat, live: bool, a: nat, b: nat)
    ensures Run(c, len, live, a + b) == Run(Run(c, len, live, a), len, live, b)
    decreases a
  {
    if a > 0 && c.playing {
      RunSplit(AfterTick(c.position, len, live), len, live, a - 1, b);
    }
  }

  /** A static session plays the points one after another from wherever it starts. */
  lemma {:induction false} StaticAdvances(p: nat, len: nat, k: nat)
    requires p + k < len
    ensures Run(Cursor(p, true), len, false, k) == Cursor(p + k, true)
    decreases k
  {
    if k > 0 {
      StaticAdvances(p + 1, len, k - 1);
    }
  }

  /**
   * A static session started at the first point plays each of the `len`
   * points exactly once, in order, and then is stopped at position 0 and
   * stays so.
   */
  lemma StaticPlaysThrough(len: nat, k: nat, m: nat)
    requires len > 0
    ensures k < len ==> Run(Cursor(0, true), len, false, k) == Cursor(k, true)
    ensures Run(Cursor(0, true), len, false, len + m) == Cursor(0, false)
  {
    if k < len {
      StaticAdvances(0, len, k);
    }
    StaticAdvances(0, len, len - 1);
    RunSplit(Cursor(0, true), len, false, len - 1, 1);
    RunSplit(Cursor(0, true), len, false, len, m);
    StoppedStays(Cursor(0, false), len, false, m);
  }

  /** A stopped cursor does not move. */
  lemma StoppedStays(c: Cursor, len: nat, live: bool, n: nat)
    requires !c.playing
    ensures Run(c, len, live, n) == c
  {
  }

  /** A live session never stops and its cursor stays within the series. */
  lemma {:induction false} LiveNeverStops(c: Cursor, len: nat, n: nat)
    requires c.playing && len > 0 && c.position < len
    ensures Run(c, len, true, n).playing
    ensures Run(c, len, true, n).position < len
    decreases n
  {
    if n > 0 {
      LiveNeverStops(AfterTick(c.position, len, true), len, n - 1);
    }
  }

  /** What pressing the play button did. */
  datatype ToggleOutcome =
    | NoDataset    // "Please load a dataset first"
    | Started
    | AudioFailed  // the audio context could not be started
    | Stopped

  // ---------------------------------------------------------------- the visualizer

  class DataMusicVisualizer {
    /** The series being played; the source's `null` is the empty series. */
    var currentData: seq<real>
    var currentPosition: nat
    var isPlaying: bool
    var isLiveMode: bool
    var liveDataBuffer: seq<real>
    var zoomLevel: int
    /** `settings.scale`: the key of the active scale. */
    var scaleName: string
    /** `settings.baseOctave`. */
    var baseOctave: int

    /** The buffer is within capacity, the zoom is a level the controls reach, the scale exists. */
    ghost predicate Valid()
      reads this
    {
      && |liveDataBuffer| <= MaxBufferSize
      && Zoom.IsZoomLevel(zoomLevel)
      && scaleName in Notes.MusicalScales
    }

    /** The initial state: nothing loaded, at rest, zoom 1, major scale from octave 4. */
    constructor()
      ensures Valid()
      ensures currentData == [] && currentPosition == 0
      ensures !isPlaying && !isLiveMode && liveDataBuffer == []
      ensures zoomLevel == 1 && scaleName == "major" && baseOctave == 4
    {
      currentData := [];
      currentPosition := 0;
      isPlaying := false;
      isLiveMode := false;
      liveDataBuffer := [];
      zoomLevel := 1;
      scaleName := "major";
      baseOctave := 4;
    }

    /** `this.musicalScales[this.settings.scale]`. */
    function ActiveScale(): (s: Notes.Scale)
      reads this
      requires Valid()
      ensures Notes.ValidScale(s)
    {
      Notes.ScaleTablesValid();
      Notes.MusicalScales[scaleName]
    }

    /**
     * The note the next tick plays: `valueToNote` of the normalized point at
     * the cursor. Past the end of the series the source reads `undefined`
     * and the note is `NaN`: `None`.
     */
    function CurrentNote(): (note: Option<Notes.Pitch>)
      reads this
      requires Valid()
      ensures note.Some? <==> currentPosition < |currentData|
      ensures note.Some? ==> baseOctave <= note.value.octave <= baseOctave + Notes.OctaveRange(zoomLevel)
    {
      if currentPosition < |currentData| then
        var v := Normalizer.Normalize(currentData)[currentPosition];
        Notes.UnitValueHasNote(v, ActiveScale(), zoomLevel, baseOctave);
        Notes.ValueToNote(v, ActiveScale(), zoomLevel, baseOctave)
      else None
    }

    /**
     * `getZoomedData(data)` at the current zoom, mode and position: the whole
     * series at zoom 1, its newest points in live mode, and otherwise a run
     * of it starting at the cursor.
     */
    function GetZoomedData(data: seq<real>): (r: seq<real>)
      reads this
      requires Valid()
      ensures |r| <= |data|
      ensures zoomLevel == 1 ==> r == data
      ensures isLiveMode ==> r == data[|data| - |r|..]
      ensures zoomLevel > 1 && isLiveMode ==> |r| == |data| / zoomLevel
      ensures zoomLevel > 1 && !isLiveMode ==> |r| <= |data| / zoomLevel
      ensures !isLiveMode && zoomLevel > 1 && r != [] ==>
        currentPosition + |r| <= |data| && r == data[currentPosition..currentPosition + |r|]
    {
      var r := Zoom.ZoomedData(data, zoomLevel, isLiveMode, currentPosition);
      if zoomLevel == 1 then r
      else
        Zoom.LiveWindowIsNewest(data, zoomLevel, currentPosition);
        Zoom.StaticWindowAtPosition(data, zoomLevel, currentPosition);
        Zoom.DivAtMost(|data|, zoomLevel);
        r
    }

    /** `addToLiveBuffer(x)`: the buffer takes `x` as its newest point and stays within capacity. */
    method AddToLiveBuffer(x: real)
      requires Valid()
      modifies this`liveDataBuffer
      ensures Valid()
      ensures liveDataBuffer == BufferPush(old(liveDataBuffer), x)
    {
      liveDataBuffer := liveDataBuffer + [x];
      if |liveDataBuffer| > MaxBufferSize {
        liveDataBuffer := liveDataBuffer[1..];
      }
    }

    /**
     * `updateAudioPlayback()`: while a live session plays, a cursor that fell
     * more than five points behind the newest point jumps forward to five
     * points behind it. The cursor never moves back.
     */
    method UpdateAudioPlayback()
      requires Valid()
      modifies this`currentPosition
      ensures Valid()
      ensures currentPosition >= old(currentPosition)
      ensures currentPosition == old(currentPosition) || currentPosition == |liveDataBuffer| - 5
      ensures !(isLiveMode && isPlaying) ==> currentPosition == old(currentPosition)
      ensures isLiveMode && isPlaying && |liveDataBuffer| > 5 ==> currentPosition >= |liveDataBuffer| - 5
    {
      if !isLiveMode || !isPlaying {
        return;
      }
      var bufferPosition := |liveDataBuffer| - 5;
      if bufferPosition > 0 && currentPosition < bufferPosition {
        currentPosition := bufferPosition;
      }
    }

    /**
     * One firing of the playback interval: play the note at the cursor, then
     * advance the cursor as `AfterTick` says, stopping and rewinding a static
     * session that reached the end.
     */
    method Tick() returns (played: Option<Notes.Pitch>)
      requires Valid() && isPlaying
      modifies this`currentPosition, this`isPlaying
      ensures Valid()
      ensures played == old(CurrentNote())
      ensures Cursor(currentPosition, isPlaying) == AfterTick(old(currentPosition), |currentData|, isLiveMode)
    {
      played := CurrentNote();
      currentPosition := currentPosition + 1;
      if isLiveMode {
        if currentPosition >= |currentData| {
          currentPosition := if |currentData| - 10 > 0 then |currentData| - 10 else 0;
        }
      } else {
        if currentPosition >= |currentData| {
          StopPlayback();
          ResetPlayback();
        }
      }
    }

    /** `startPlayback()`: playback runs if the audio context starts, and is stopped otherwise. */
    method StartPlayback(audioStarts: bool)
      requires Valid()
      modifies this`isPlaying
      ensures Valid()
      ensures isPlaying == audioStarts
    {
      if audioStarts {
        isPlaying := true;
      } else {
        StopPlayback();
      }
    }

    /** `stopPlayback()`: the cursor stays where it is. */
    method StopPlayback()
      requires Valid()
      modifies this`isPlaying
      ensures Valid()
      ensures !isPlaying
    {
      isPlaying := false;
    }

    /** `resetPlayback()`: back to the first point. */
    method ResetPlayback()
      requires Valid()
      modifies this`currentPosition
      ensures Valid()
      ensures currentPosition == 0
    {
      currentPosition := 0;
    }

    /** `togglePlayback()`: refuses without data, otherwise starts a stopped session or stops a running one. */
    method TogglePlayback(audioStarts: bool) returns (outcome: ToggleOutcome)
      requires Valid()
      modifies this`isPlaying
      ensures Valid()
      ensures |currentData| == 0 ==> outcome == NoDataset && isPlaying == old(isPlaying)
      ensures |currentData| > 0 && !old(isPlaying) ==>
        isPlaying == audioStarts && outcome == (if audioStarts then Started else AudioFailed)
      ensures |currentData| > 0 && old(isPlaying) ==> outcome == Stopped && !isPlaying
    {
      if |currentData| == 0 {
        return NoDataset;
      }
      if !isPlaying {
        StartPlayback(audioStarts);
        outcome := if audioStarts then Started else AudioFailed;
      } else {
        StopPlayback();
        outcome := Stopped;
      }
    }

    /** `zoomIn()`: doubles the zoom up to 8. */
    method ZoomIn()
      requires Valid()
      modifies this`zoomLevel
      ensures Valid()
      ensures zoomLevel == Zoom.ZoomInLevel(old(zoomLevel))
    {
      if zoomLevel < 8 {
        zoomLevel := zoomLevel * 2;
      }
    }

    /** `zoomOut()`: halves the zoom down to 1. */
    method ZoomOut()
      requires Valid()
      modifies this`zoomLevel
      ensures Valid()
      ensures zoomLevel == Zoom.ZoomOutLevel(old(zoomLevel))
    {
      if zoomLevel > 1 {
        zoomLevel := zoomLevel / 2;
      }
    }

    /** `resetZoom()`: back to zoom 1, one octave. */
    method ResetZoom()
      requires Valid()
      modifies this`zoomLevel
      ensures Valid()
      ensures zoomLevel == 1 && Notes.OctaveRange(zoomLevel) == 1
    {
      zoomLevel := 1;
    }
  }
}
