# ChartBeats data-to-music core, in Dafny

ChartBeats turns a numeric series into a melody. The browser object
`DataMusicVisualizer` in `app.js` does five things:

- it loads a series from a CSV or JSON upload;
- it min-max normalizes the series to [0,1];
- it maps each normalized value to a note of the selected scale over an octave span that grows with the zoom level;
- it shows a zoomed window of the series;
- it plays the series one point per timer tick, either once through (static mode) or in a perpetual loop near the newest points of a live feed, whose points arrive in a bounded buffer.

This project models that core.

| file | module | models |
|---|---|---|
| `wrappers.dfy` | `Wrappers` | `Option` and `Result` |
| `text.dfy` | `Text` | `String.prototype.trim` (JavaScript's whitespace set) and `split` on one character, with `Join` as its inverse |
| `normalizer.dfy` | `Normalizer` | `normalizeData` |
| `notes.dfy` | `Notes` | the scale table, `valueToNote`, `getNoteForValue` and JavaScript's truncating `%` |
| `zoom.dfy` | `Zoom` | `getZoomedData` and the zoom-level steps of `zoomIn` and `zoomOut` |
| `parsers.dfy` | `Parsers` | `parseCSV` (an imperative loop) and `parseJSON` over an already-parsed JSON value |
| `visualizer.dfy` | `Visualizer` | the live buffer, the playback cursor, and the class `DataMusicVisualizer` with its state-changing methods |

Numbers are Dafny `real`s. A note is `Pitch(name, octave)`: the pair that the
source concatenates into a string such as `"C4"`. When the source yields `NaN` or
`undefined` for a note, the model yields `None`. That happens when the
value's scale index is negative, or when the cursor is past the end of the data.

`valueToNote` does not clamp its index. For `v = 1` the note index equals the total note count,
so the result is the scale's first note one octave above the span.
`Notes.OneWrapsAboveSpan` states this, and `Notes.UnitValueHasNote` says
that the octave for values in [0,1] lies in `[base, base + octaveRange]`.

`getNoteForValue` computes `v * |intervals| * octaveRange` and `valueToNote`
computes `v * (|intervals| * octaveRange)`. Over the reals these are the same
number, so the two mappers always agree on the note name (`Notes.NoteNameConsistent`).
Doubles can round the two products differently; that is not modelled.

## Model

| member | source | states |
|---|---|---|
| Text.Trim | app.js:719 | the trimmed text is an infix of the input with only JavaScript whitespace cut from either end, and it neither starts nor ends with whitespace |
| Text.TrimCuts | app.js:719 | trimming the start and then the end removes whitespace only, from the two ends of the text |
| Text.Split | app.js:719 | splitting always gives at least one piece, so an empty upload is one empty line |
| Text.SplitSeparatorFree | app.js:719 | no piece of a split contains the separator |
| Text.JoinSplit | app.js:723 | joining the pieces of a split with the separator gives back the original text |
| Text.SplitJoin | app.js:723 | splitting a join of separator-free pieces gives back those pieces |
| Text.LastField | app.js:728 | the last field is a separator-free tail of the line, either the whole line or preceded by a separator |
| Parsers.Lines | app.js:719 | an upload always has at least one line |
| Parsers.LineValue | app.js:723-730 | the number one CSV line contributes: `parseFloat` of its only field or of its last comma field; `LineValueIsLastField` states that both branches read the last field |
| Parsers.LineValueIsLastField | app.js:723-730 | both branches of the one-field/many-field split parse the line's last comma field |
| Parsers.CsvData | app.js:722-731 | a line sequence yields at most one number per line |
| Parsers.CollectNumbers | app.js:720-731 | the loop over the lines collects exactly the numbers of the lines' last fields, in line order |
| Parsers.CsvDataPrefix | app.js:722-731 | each loop step appends the current line's number, if any, to those of the lines before it |
| Parsers.ParseCsv | app.js:718-738 | the loop's result is the numbers of the lines' last fields in line order, and it throws `NoNumericData` exactly when there are none |
| Parsers.CsvDataAppend | app.js:722-731 | line order is kept: the numbers of two runs of lines are their numbers concatenated |
| Parsers.CsvDataEmpty | app.js:733-735 | no number is found exactly when no line's last field parses |
| Parsers.CsvDataOneLine | app.js:723-730 | one line contributes exactly the parse of its last comma field, or nothing |
| Parsers.CsvSingleColumn | app.js:718-738 | the upload `1\n2\n3` gives `[1, 2, 3]` |
| Parsers.CsvLastColumn | app.js:718-738 | the upload `a,1\nb,2` gives `[1, 2]`: the last column is taken |
| Parsers.OneNumberLine | app.js:724-726 | a comma-free line contributes its own parse |
| Parsers.ThreeRows | app.js:724-726 | three comma-free rows contribute their own parses, in order |
| Parsers.TwoRows | app.js:727-730 | two two-field rows contribute their second fields' parses, in order |
| Parsers.LastNumberLine | app.js:727-730 | a two-field line contributes the parse of its second field |
| Parsers.Numbers | app.js:745 | the number filter never lengthens the array |
| Parsers.NumbersAppend | app.js:745 | the filter keeps array order |
| Parsers.NumbersExactly | app.js:745 | a number survives the filter exactly when the array holds it |
| Parsers.NumbersOfNumbers | app.js:745 | an array holding only numbers filters to itself |
| Parsers.SelectArray | app.js:744-753 | selecting the array never fails with `NoNumericData`; it fails with the `null` read error or `InvalidFormat` |
| Parsers.ParseJson | app.js:740-759 | success carries a non-empty result, and happens exactly when an array is selected and holds a number |
| Parsers.TopLevelArrayFirst | app.js:744-745 | a top-level array is read whatever else holds |
| Parsers.DataBeforeValues | app.js:746-747 | an object's `data` array is read in preference to `values`, even when it holds no number |
| Parsers.ValuesFallback | app.js:748-749 | without a `data` array, the `values` array is read |
| Parsers.OtherShapesRejected | app.js:743-752 | every other shape is `InvalidFormat`, except `null`, where the property read fails first |
| Parsers.JsonExamples | app.js:740-759 | `[1,2,3]` gives `[1,2,3]`, `{"data":[1,2]}` gives `[1,2]` and `{"foo":1}` is rejected |
| Normalizer.Min | app.js:599 | the minimum is an element and a lower bound |
| Normalizer.Max | app.js:600 | the maximum is an element and an upper bound |
| Normalizer.Rescale | app.js:605 | `(v - min) / range` lies in [0,1], is 0 at the minimum and is 1 at the maximum |
| Normalizer.Normalize | app.js:598-606 | the output has the input's length and every output lies in [0,1] |
| Normalizer.NormalizeAt | app.js:603-605 | each output is 0.5 for a flat series, and otherwise the rescaled input |
| Normalizer.FlatIsMidScale | app.js:603 | a constant series maps to all 0.5 |
| Normalizer.ExtremesMapToBounds | app.js:605 | in a non-flat series the minimum maps to 0 and the maximum to 1 |
| Normalizer.NormalizeMonotone | app.js:598-606 | normalizing keeps the order of the values |
| Normalizer.RescaleMonotone | app.js:605 | rescaling keeps the order of the values |
| Normalizer.RescaleUnit | app.js:605 | rescaling by the unit interval is the identity |
| Normalizer.NormalizeIdempotent | app.js:598-606 | normalizing a normalized non-flat series changes nothing |
| Normalizer.NormalizeSpansUnit | app.js:598-606 | a series spanning exactly [0,1] is its own normalization |
| Notes.ScaleTablesValid | app.js:37-42 | every scale has one name per degree; the scales have 12, 7, 5 and 7 degrees |
| Notes.CeilHalf | app.js:1039 | `ceil(z / 2)` is the least integer whose double is at least `z` |
| Notes.OctaveRange | app.js:1039 | the octave span is at least 1, equals `ceil(z / 2)` for `z >= 1`, and is 1 for `z <= 1` |
| Notes.ZoomOctaves | app.js:1039 | zoom levels 1, 2, 4 and 8 span 1, 1, 2 and 4 octaves |
| Notes.JsRem | app.js:1045 | JavaScript's `%` is below the divisor in magnitude, has the dividend's sign, differs from the dividend by a multiple of the divisor, vanishes on multiples, and is the Euclidean remainder for a non-negative dividend |
| Notes.DegreeName | app.js:1045-1048 | the name at a note index: always a name of the scale, and defined for every non-negative index; `NegativeIndexHasNoName` states the `undefined` case |
| Notes.ValueToNote | app.js:1037-1049 | `valueToNote`: the note name at the index modulo the cardinality, at the base octave plus the floored quotient, and always a name of the scale; `NoteInSpan`, `NonNegativeValueHasNote`, `UnitValueHasNote`, `ZeroIsFirstNoteAtBase` and `OneWrapsAboveSpan` state where values land |
| Notes.NoteForValue | app.js:869-874 | `getNoteForValue`: the note name alone, always a name of the scale; `NoteNameConsistent` states that it is the name part of `ValueToNote` |
| Notes.NoteInSpan | app.js:1037-1049 | a value in [0,1) gets the note at degree `noteIndex` modulo the cardinality, with an octave in `[base, base + octaveRange)` |
| Notes.NonNegativeValueHasNote | app.js:1037-1049 | every non-negative value gets the note at degree `noteIndex` modulo the cardinality, with an octave at least the base |
| Notes.NegativeIndexHasNoName | app.js:1045-1048 | a negative index that is not a multiple of the cardinality reads past the note table |
| Notes.NegativeValueHasNoNote | app.js:1037-1049 | such a value has no note from either mapper |
| Notes.ZeroIsFirstNoteAtBase | app.js:1037-1049 | value 0 is the first note at the base octave |
| Notes.OneWrapsAboveSpan | app.js:1037-1049 | value 1 is the first note at `base + octaveRange`, because there is no clamp |
| Notes.UnitValueHasNote | app.js:1037-1049 | every value in [0,1] has a note with an octave in `[base, base + octaveRange]`, below the top for values below 1 |
| Notes.NoteNameConsistent | app.js:869-874 | `getNoteForValue(v)` is the name part of `valueToNote(v)` for every value, including when there is no note |
| Notes.NameIndexAgrees | app.js:872 | both multiplication orders give the same note index |
| Zoom.ZoomedData | app.js:852-867 | `getZoomedData`: a window no longer than the series that is a suffix in live mode; `UnzoomedIsWhole`, `LiveWindowIsNewest` and `StaticWindowAtPosition` state its window for each mode |
| Zoom.UnzoomedIsWhole | app.js:853 | at zoom 1 the window is the whole series |
| Zoom.LiveWindowIsNewest | app.js:855-859 | in live mode the window is the suffix of length `floor(len / z)` |
| Zoom.StaticWindowAtPosition | app.js:860-866 | in static mode the window is a contiguous run from the position, at most `floor(len / z)` long, cut short only by the series end, and empty past it |
| Zoom.ZoomInLevel | app.js:1109-1117 | zooming in keeps a valid level, raises levels below 8 and leaves 8 alone |
| Zoom.ZoomOutLevel | app.js:1119-1127 | zooming out keeps a valid level, lowers levels above 1 and leaves 1 alone |
| Zoom.ZoomRoundTrip | app.js:1109-1127 | zooming in and zooming out undo each other away from the extremes |
| Zoom.ZoomSaturates | app.js:1109-1127 | three steps in either direction reach 8 or 1 from any level |
| Visualizer.BufferPush | app.js:251-255 | the pushed value is the newest, the result is a tail of the old buffer plus the value, and a buffer within capacity stays within it |
| Visualizer.BufferPushEvictsOldest | app.js:251-255 | below capacity a push only appends; at capacity it also drops exactly the oldest point |
| Visualizer.Newest | app.js:63 | the newest `min(150, len)` points are a tail of the series |
| Visualizer.PushAll | app.js:251-259 | the buffer after repeated `addToLiveBuffer` calls: within capacity when it started so, and ending in the last arrival; `PushAllKeepsNewest` states that it is the newest points |
| Visualizer.NewestPush | app.js:251-255 | keeping the newest points commutes with one more arrival |
| Visualizer.BufferPushIsNewest | app.js:251-255 | a push into a buffer within capacity keeps the newest 150 points of the extended series |
| Visualizer.PushAllKeepsNewest | app.js:251-255 | after any run of arrivals the buffer holds exactly the newest `min(150, n)` points, oldest first |
| Visualizer.FillsUpToCapacity | app.js:251-255 | from an empty buffer the first 150 points are all kept |
| Visualizer.OctaveRangeOfZoomLevel | app.js:1139 | the reachable zoom levels span 1, 2 or 4 octaves, and zooming in never narrows the span |
| Visualizer.AfterTick | app.js:936-950 | a tick advances the cursor; at the end a live session rewinds to `max(0, len - 10)` and plays on, and a static session stops at 0; on a non-empty series the cursor stays below the length |
| Visualizer.Run | app.js:932-951 | repeated firings of the playback interval that stop once playback stops: the cursor stays within a non-empty series and a live session keeps playing; `RunSplit`, `StaticPlaysThrough` and `LiveNeverStops` state the run |
| Visualizer.RunSplit | app.js:932-951 | ticking `a` then `b` times is ticking `a + b` times |
| Visualizer.StaticAdvances | app.js:936-950 | a static session plays consecutive points |
| Visualizer.StaticPlaysThrough | app.js:936-950 | from position 0 a static session is at point `k` after `k < len` ticks, and after `len` or more ticks it is stopped at 0 |
| Visualizer.StoppedStays | app.js:960-974 | a stopped cursor no longer moves |
| Visualizer.LiveNeverStops | app.js:939-943 | a live session never stops and its cursor stays within the series |
| Visualizer.DataMusicVisualizer.constructor | app.js:51-88 | the initial state: no data, position 0, not playing, not live, empty buffer, zoom 1, major scale, base octave 4 |
| Visualizer.DataMusicVisualizer.ActiveScale | app.js:1038 | the selected scale is a valid scale |
| Visualizer.DataMusicVisualizer.CurrentNote | app.js:983-988 | there is a note to play exactly when the cursor is within the data, and its octave is in `[base, base + octaveRange]` |
| Visualizer.DataMusicVisualizer.GetZoomedData | app.js:852-867 | the window is no longer than the series; it is the whole series at zoom 1, the newest `floor(len / z)` points in live mode, and otherwise a run of at most `floor(len / z)` points starting at the cursor |
| Visualizer.DataMusicVisualizer.AddToLiveBuffer | app.js:251-259 | the buffer becomes `BufferPush` of the old buffer and stays within capacity |
| Visualizer.DataMusicVisualizer.UpdateAudioPlayback | app.js:273-281 | the cursor never moves back; it moves only in a playing live session, and only to five points behind the newest |
| Visualizer.DataMusicVisualizer.Tick | app.js:932-951 | the tick plays the note at the old cursor, and then moves the cursor and playing flag as `AfterTick` says |
| Visualizer.DataMusicVisualizer.StartPlayback | app.js:916-958 | playback runs exactly when the audio context starts |
| Visualizer.DataMusicVisualizer.StopPlayback | app.js:960-974 | playback stops without moving the cursor |
| Visualizer.DataMusicVisualizer.ResetPlayback | app.js:976-981 | the cursor returns to the first point |
| Visualizer.DataMusicVisualizer.TogglePlayback | app.js:903-914 | with no data it refuses and changes nothing; otherwise it starts a stopped session or stops a running one |
| Visualizer.DataMusicVisualizer.ZoomIn | app.js:1109-1117 | the zoom becomes `ZoomInLevel` of the old zoom and stays a valid level |
| Visualizer.DataMusicVisualizer.ZoomOut | app.js:1119-1127 | the zoom becomes `ZoomOutLevel` of the old zoom and stays a valid level |
| Visualizer.DataMusicVisualizer.ResetZoom | app.js:1129-1135 | the zoom returns to 1, spanning one octave |

## Left out

- Rendering: the DOM, the D3 chart, the octave labels, the note tracker, the playhead pixel placement and the tooltips are display code. The redraws that `zoomIn`, `zoomOut`, `resetZoom` and `resetPlayback` trigger are not modelled.
- Audio: Tone.js synthesis is a foreign library. A tick returns the note it would sound. `playCurrentNote` skips the note when no synthesizer exists, and that check is not modelled. The start of the audio context is the `audioStarts` parameter of `StartPlayback` and `TogglePlayback`.
- Timers: `setInterval`, `setTimeout`, the tempo-derived period and the asynchronous live-update loop are not modelled. One firing of the playback interval is the method `Tick`, and `Run` iterates it.
- Live data sources: `fetchLatestDataPoint`, `generateSimulatedLiveData` and `fetchLiveStockData` use `Math.random` and simulated delays, so they are not modelled. The buffer receives its points as arguments.
- `updateGraphWithNewData`, which copies the buffer into `currentData`, is not modelled; `currentData` and `liveDataBuffer` are separate fields.
- `FileReader`, `JSON.parse` and `parseFloat` are foreign. `parseJSON` takes the parsed value, so JSON syntax errors are not modelled. `parseFloat` is a parameter `string -> Option<real>`, where `None` stands for `NaN`.
- Values: Dafny reals replace doubles, so rounding, `Infinity` (which `parseFloat` can return and `parseCSV` would keep) and the `NaN` arithmetic of `normalizeData` on such input are not modelled.
- `updateDataStatistics`, `toFixed` formatting and the tooltip index reconstruction in `showTooltip` are display-only.
- Settings changes are event handlers for the tempo, instrument and scale selects. Only the scale select changes a field the model reads, `scaleName`, and the model does not model that handler. `baseOctave` is set once to 4 and the source has no control that changes it.
