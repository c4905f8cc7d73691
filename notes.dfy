/**
 * The value-to-note mapper: `valueToNote` and `getNoteForValue` over the
 * scale tables of the visualizer, and the octave span a zoom level selects.
 */
module Notes {
  import opened Wrappers

  /** A musical scale: its note names and its semitone offsets, one per degree. */
  datatype Scale = Scale(name: string, notes: seq<string>, intervals: seq<int>)

  /** The mapper reads `intervals.length` for the cardinality and `notes` for the names. */
  predicate ValidScale(s: Scale) {
    |s.intervals| > 0 && |s.notes| == |s.intervals|
  }

  const Chromatic := Scale("Chromatic",
    ["C", "C#", "D", "D#", "E", "F", "F#", "G", "G#", "A", "A#", "B"],
    [0, 1, 2, 3, 4, 5, 6, 7, 8, 9, 10, 11])
  const Major := Scale("Major Scale", ["C", "D", "E", "F", "G", "A", "B"], [0, 2, 4, 5, 7, 9, 11])
  const Pentatonic := Scale("Pentatonic", ["C", "D", "E", "G", "A"], [0, 2, 4, 7, 9])
  const Minor := Scale("Minor Scale", ["C", "D", "Eb", "F", "G", "Ab", "Bb"], [0, 2, 3, 5, 7, 8, 10])

  /** The table of scales, keyed as the settings name them. */
  const MusicalScales: map<string, Scale> :=
    map["chromatic" := Chromatic, "major" := Major, "pentatonic" := Pentatonic, "minor" := Minor]

  /** Every shipped scale has as many names as degrees, and the degree count the music theory gives. */
  lemma ScaleTablesValid()
    ensures forall k :: k in MusicalScales ==> ValidScale(MusicalScales[k])
    ensures |Chromatic.intervals| == 12 && |Major.intervals| == 7
    ensures |Pentatonic.intervals| == 5 && |Minor.intervals| == 7
  {
  }

  /** A note as the mapper emits it: the name and the octave that the source concatenates. */
  datatype Pitch = Pitch(name: string, octave: int)

  /** `Math.ceil(z / 2)` on an integer: the least integer whose double is at least `z`. */
  function CeilHalf(z: int): (c: int)
    ensures 2 * c >= z && 2 * (c - 1) < z
  {
    (z + 1) / 2
  }

  /** `Math.max(1, Math.ceil(zoomLevel / 2))`: how many octaves the mapper spans at a zoom level. */
  function OctaveRange(zoom: int): (r: int)
    ensures r >= 1
    ensures zoom >= 1 ==> 2 * r >= zoom && 2 * (r - 1) < zoom
    ensures zoom <= 1 ==> r == 1
  {
    var c := CeilHalf(zoom);
    if c < 1 then 1 else c
  }

  /** The zoom levels the controls allow span one, one, two and four octaves. */
  lemma ZoomOctaves()
    ensures OctaveRange(1) == 1 && OctaveRange(2) == 1
    ensures OctaveRange(4) == 2 && OctaveRange(8) == 4
  {
  }

  /**
   * JavaScript's `%` on integers: the remainder truncated toward zero, so it
   * has the sign of the dividend, is smaller than the divisor in magnitude,
   * and vanishes exactly on multiples of the divisor.
   */
  function JsRem(a: int, n: int): (r: int)
    requires n > 0
    ensures -n < r < n
    ensures a >= 0 ==> 0 <= r
    ensures a <= 0 ==> r <= 0
    ensures r == 0 <==> a % n == 0
    ensures a >= 0 ==> r == a % n
    ensures (a - r) % n == 0
  {
    if a >= 0 then
      SubRemDivides(a, n);
      a % n
    else
      NegMod(a, n);
      RemDivides(a, n);
      -((-a) % n)
  }

  /** `Math.floor(normalizedValue * totalNotes)` with `totalNotes = |intervals| * octaveRange`. */
  function NoteIndex(v: real, scale: Scale, zoom: int): int
  {
    (v * (|scale.intervals| * OctaveRange(zoom)) as real).Floor
  }

  /**
   * `valueToNote(v)`: the scale degree is the note index modulo the scale's
   * cardinality and the octave is the base plus the floored quotient. A
   * negative index with a non-zero remainder reads past the note table, and
   * the source's `undefined + octave` is `NaN`: that is `None` here. The index
   * is not clamped, so `v = 1` reaches one octave above the span.
   */
  function ValueToNote(v: real, scale: Scale, zoom: int, baseOctave: int): (r: Option<Pitch>)
    requires ValidScale(scale)
    ensures r.Some? ==> r.value.name in scale.notes
  {
    var idx := NoteIndex(v, scale, zoom);
    match DegreeName(scale, idx)
    case Some(name) => Some(Pitch(name, baseOctave + idx / |scale.intervals|))
    case None => None
  }

  /**
   * `scale.notes[noteIndex % scale.intervals.length]`, with `None` for the
   * `undefined` that a negative remainder reads.
   */
  function DegreeName(scale: Scale, idx: int): (r: Option<string>)
    requires ValidScale(scale)
    ensures r.Some? ==> r.value in scale.notes
    ensures idx >= 0 ==> r.Some?
  {
    var degree := JsRem(idx, |scale.intervals|);
    if degree >= 0 then Some(scale.notes[degree]) else None
  }

  /**
   * `getNoteForValue(v)`: the note name only, computing
   * `Math.floor(v * |intervals| * octaveRange) % |intervals|`; `None` is the
   * source's `undefined`.
   */
  function NoteForValue(v: real, scale: Scale, zoom: int): (r: Option<string>)
    requires ValidScale(scale)
    ensures r.Some? ==> r.value in scale.notes
  {
    DegreeName(scale, NameIndex(v, scale, zoom))
  }

  /** `Math.floor(v * |intervals| * octaveRange)`, multiplied left to right as `getNoteForValue` does. */
  function NameIndex(v: real, scale: Scale, zoom: int): int
  {
    ((v * |scale.intervals| as real) * OctaveRange(zoom) as real).Floor
  }

  /** A value strictly below 1 falls below the note count: `floor(v * t) < t` for `t > 0`. */
  lemma FloorBelow(v: real, t: int)
    requires 0.0 <= v < 1.0 && t > 0
    ensures 0 <= (v * t as real).Floor < t
  {
    assert v * t as real < t as real;
  }

  /**
   * For a value in [0,1) the note is a degree of the scale within the octave
   * span: octave in `[base, base + octaveRange)`.
   */
  lemma {:induction false} NoteInSpan(v: real, scale: Scale, zoom: int, baseOctave: int)
    requires ValidScale(scale) && 0.0 <= v < 1.0
    ensures var r := ValueToNote(v, scale, zoom, baseOctave);
      && r.Some?
      && r.value.name == scale.notes[NoteIndex(v, scale, zoom) % |scale.intervals|]
      && baseOctave <= r.value.octave < baseOctave + OctaveRange(zoom)
  {
    var n, k := |scale.intervals|, OctaveRange(zoom);
    var idx := NoteIndex(v, scale, zoom);
    FloorBelow(v, n * k);
    assert idx < n * k;
    DivBelow(idx, n, k);
  }

  /** `0 <= a < n * k` gives `a / n < k`. */
  lemma DivBelow(a: int, n: int, k: int)
    requires n > 0 && k > 0 && 0 <= a < n * k
    ensures 0 <= a / n < k
  {
    if a / n >= k {
      MulNonNeg(n, a / n - k);
    }
  }

  /**
   * For every non-negative value there is a note, its degree is a valid index
   * and its octave is at least the base.
   */
  lemma {:induction false} NonNegativeValueHasNote(v: real, scale: Scale, zoom: int, baseOctave: int)
    requires ValidScale(scale) && 0.0 <= v
    ensures var r := ValueToNote(v, scale, zoom, baseOctave);
      && r.Some?
      && r.value.name == scale.notes[NoteIndex(v, scale, zoom) % |scale.intervals|]
      && r.value.octave >= baseOctave
  {
    var n, k := |scale.intervals|, OctaveRange(zoom);
    MulNonNeg(n, k);
    RealMulNonNeg(v, (n * k) as real);
    var idx := NoteIndex(v, scale, zoom);
    assert idx >= 0;
    assert DegreeName(scale, idx) == Some(scale.notes[idx % n]);
  }

  lemma RealMulNonNeg(a: real, b: real)
    requires a >= 0.0 && b >= 0.0
    ensures a * b >= 0.0
  {
  }

  /**
   * A negative note index that is not a multiple of the cardinality reads
   * past the note table: the source yields `undefined` for the name and `NaN`
   * for the note.
   */
  lemma NegativeIndexHasNoName(scale: Scale, idx: int)
    requires ValidScale(scale)
    requires idx < 0 && idx % |scale.intervals| != 0
    ensures DegreeName(scale, idx) == None
  {
  }

  /** A value whose note index is negative and off the octave boundary has no note. */
  lemma NegativeValueHasNoNote(v: real, scale: Scale, zoom: int, baseOctave: int)
    requires ValidScale(scale)
    requires NoteIndex(v, scale, zoom) < 0 && NoteIndex(v, scale, zoom) % |scale.intervals| != 0
    ensures ValueToNote(v, scale, zoom, baseOctave) == None
    ensures NoteForValue(v, scale, zoom) == None
  {
    NegativeIndexHasNoName(scale, NoteIndex(v, scale, zoom));
    NoteNameConsistent(v, scale, zoom, baseOctave);
  }

  /** Value 0 is the scale's first note at the base octave. */
  lemma ZeroIsFirstNoteAtBase(scale: Scale, zoom: int, baseOctave: int)
    requires ValidScale(scale)
    ensures ValueToNote(0.0, scale, zoom, baseOctave) == Some(Pitch(scale.notes[0], baseOctave))
  {
  }

  /**
   * Value 1 is not clamped: it is the scale's first note one octave span
   * above the base, outside the span that values below 1 reach.
   */
  lemma {:induction false} OneWrapsAboveSpan(scale: Scale, zoom: int, baseOctave: int)
    requires ValidScale(scale)
    ensures ValueToNote(1.0, scale, zoom, baseOctave)
      == Some(Pitch(scale.notes[0], baseOctave + OctaveRange(zoom)))
  {
    var n, k := |scale.intervals|, OctaveRange(zoom);
    assert NoteIndex(1.0, scale, zoom) == n * k;
    DivModUnique(n * k, n, k, 0);
  }

  /**
   * Every normalized value has a note: its octave lies in the span for values
   * below 1 and is the octave just above the span for the value 1.
   */
  lemma UnitValueHasNote(v: real, scale: Scale, zoom: int, baseOctave: int)
    requires ValidScale(scale) && 0.0 <= v <= 1.0
    ensures var r := ValueToNote(v, scale, zoom, baseOctave);
      && r.Some?
      && baseOctave <= r.value.octave <= baseOctave + OctaveRange(zoom)
      && (v < 1.0 ==> r.value.octave < baseOctave + OctaveRange(zoom))
  {
    if v < 1.0 {
      NoteInSpan(v, scale, zoom, baseOctave);
    } else {
      OneWrapsAboveSpan(scale, zoom, baseOctave);
    }
  }

  /**
   * The axis labels and the played notes agree: `getNoteForValue(v)` is the
   * name part of `valueToNote(v)` for every value, zoom and base octave,
   * including the `undefined` case.
   */
  lemma {:induction false} NoteNameConsistent(v: real, scale: Scale, zoom: int, baseOctave: int)
    requires ValidScale(scale)
    ensures NoteForValue(v, scale, zoom)
      == match ValueToNote(v, scale, zoom, baseOctave)
         case Some(p) => Some(p.name)
         case None => None
  {
    NameIndexAgrees(v, scale, zoom);
  }

  /** The two mappers multiply in a different order; over the reals they compute the same index. */
  lemma NameIndexAgrees(v: real, scale: Scale, zoom: int)
    ensures NameIndex(v, scale, zoom) == NoteIndex(v, scale, zoom)
  {
    var n, k := |scale.intervals|, OctaveRange(zoom);
    var nr, kr := n as real, k as real;
    assert (n * k) as real == nr * kr;
    assert (v * nr) * kr == v * (nr * kr);
  }

  // Integer facts the mapper's index arithmetic needs.

  lemma MulNonNeg(a: int, b: int)
    requires a >= 0 && b >= 0
    ensures a * b >= 0
  {
  }

  /** Euclidean division is determined by its defining equation. */
  lemma DivModUnique(x: int, n: int, q: int, r: int)
    requires n > 0 && 0 <= r < n && x == n * q + r
    ensures x / n == q && x % n == r
  {
    var q', r' := x / n, x % n;
    assert n * (q - q') == r' - r;
    if q - q' > 0 { MulNonNeg(n, q - q' - 1); }
    if q - q' < 0 { MulNonNeg(n, q' - q - 1); }
  }

  /** Adding the remainder of the negated dividend to a dividend leaves a multiple of the divisor. */
  lemma RemDivides(a: int, n: int)
    requires n > 0
    ensures (a - -((-a) % n)) % n == 0
  {
    var q := (-a) / n;
    assert a - -((-a) % n) == n * -q;
    DivModUnique(a - -((-a) % n), n, -q, 0);
  }

  /** Subtracting the remainder from a dividend leaves a multiple of the divisor. */
  lemma SubRemDivides(a: int, n: int)
    requires n > 0
    ensures (a - a % n) % n == 0
  {
    var q := a / n;
    assert a - a % n == n * q;
    DivModUnique(a - a % n, n, q, 0);
  }

  lemma NegModZero(a: int, n: int)
    requires n > 0 && a % n == 0
    ensures (-a) % n == 0
  {
    var q := a / n;
    assert a == n * q;
    DivModUnique(-a, n, -q, 0);
  }

  /** Negating the dividend keeps divisibility. */
  lemma NegMod(a: int, n: int)
    requires n > 0
    ensures (-a) % n == 0 <==> a % n == 0
  {
    if a % n == 0 { NegModZero(a, n); }
    if (-a) % n == 0 { NegModZero(-a, n); }
  }
}
