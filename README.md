# Rechordnizer chord recognition, modelled in Dafny

Rechordnizer listens to a microphone and shows the chord being played. Every 100 ms it
reads an FFT magnitude spectrum in dB and checks it against a silence threshold. A loud
spectrum is folded onto the twelve pitch classes to give a chroma vector. That vector is
matched by cosine similarity against a library of 144 chord shapes: 12 roots × 12 qualities.
The raw label then goes through a five-label majority-vote smoother. This project models that
pipeline from `renderer/app.js` and proves what each stage promises.

Modules, one file each:

- `Music` (`music.dfy`): note names, the chord-quality table, chord labels and their names.
  A label is `Chord(root, quality)` or `NoChord`. `Name` gives the string the application
  uses, and `ParseName` reads it back. The round trip is proved, so counting labels is the
  same as counting the names the source counts.
- `Vectors` (`vectors.dfy`): dot product, sum of squares, maximum and total of real
  vectors. `Math.sqrt` is a parameter `sqrt` of which only `SqrtLike` is known: the root of
  0 is 0 and a positive number has a positive root.
- `Templates` (`templates.dfy`): `buildTemplates`, as the method `BuildTemplates`. It is
  proved equal to the specification function `Library`.
- `Matcher` (`matcher.dfy`): `cosineSimilarity` as `Cosine`, and `detectChord` as the
  function `Detect` and the method `DetectChord` with its argmax loop.
- `Chroma` (`chroma.dfy`): `buildChromaMap` and `computeChroma`, as methods over a
  12 × (fftSize/2) `array2`. They are proved against `ChromaMapRows` and `ChromaOf`.
  - JavaScript's truncating `%` is modelled as `JsRem`.
  - `Math.round(12·log2(f/440) + 69)` is a parameter `midiOf` returning an integer.
  - `Math.pow(10, dB/20)` is a parameter `magnitude`. `MagnitudeLike` says only that it is
    never negative.
- `Smoother` (`smoother.dfy`): the `ChordSmoother` class. It has its `history` FIFO, its
  constant `windowSize` and its `lastStable` field. `Push` is proved equal to the pure step
  function `Step` on the value `SmootherState`.
- `Analysis` (`analysis.dfy`): the decision part of one tick of the analysis interval.
  - The silence gate on the spectrum's peak at -60 dB.
  - Otherwise: chroma, match, push through the smoother.
  - `Tick` is the step function, and `AnalysisTick` is the method that calls the three
    methods above.
  - `Run` iterates `Tick` over successive spectra.

Active notes are returned as pitch classes in C..B order. `NoteNames` maps them to the names
the source filters.

The tie-break in `push` follows the code. `Object.entries` lists keys in insertion order,
which is the order of first appearance in the window, and a strict `>` keeps the earlier key
on equal counts. So of two equally frequent labels, the one that appears first in the window
wins, even when the other reaches that count first. In the window C, G, G, C the smoother
settles on C.

The latency bound is proved in the form the code supports: `PersistentChordBecomesStable`
and `PersistentChordIsShown`. A label pushed n times in a row becomes the stable label when
n ≥ 2, windowSize ≥ 2 and 2n > windowSize. Every n ≥ ceil(windowSize/2) + 1 meets this, and
for the window of 5 that the application uses, 3 pushes already suffice. With a window of 1
the history never holds two labels: `push` returns each input and `lastStable` never moves
(`WindowOfOneNeverSettles`).

## Model

| member | source | states |
|---|---|---|
| Music.NameRoundTrip | renderer/app.js:37 | the name built from a root and a suffix reads back as the same label, and "N/C" reads back as no chord |
| Music.NameInjective | renderer/app.js:37 | distinct labels have distinct names, so a tally over labels is a tally over the names the code counts |
| Vectors.MaxOf | renderer/app.js:59 | `Math.max(...v)` is an element of `v` that no element exceeds |
| Vectors.DotSymmetric | renderer/app.js:46-48 | the dot product does not depend on argument order |
| Templates.BuildTemplates | renderer/app.js:27-41 | the nested loops produce exactly the library: 144 entries, entry 12·root + quality being that chord's label and shape |
| Templates.BuildShape | renderer/app.js:31-36 | the array built for one root and quality, after the divide loop, is the indicator of the transposed intervals divided by its Euclidean norm |
| Templates.DivideAll | renderer/app.js:36 | every slot ends up as its old value divided by the norm |
| Templates.IndicatorAt | renderer/app.js:31-34 | after the interval loop, slot i is 1.0 exactly when i is (root + interval) mod 12 for some interval of the quality, and 0 otherwise |
| Templates.IndicatorNormPositive | renderer/app.js:35 | every quality has an interval, so the norm the code divides by is positive |
| Templates.ShapeUniform | renderer/app.js:31-36 | a shape is nonzero exactly on the transposed intervals, non-negative, and takes one common value there |
| Templates.LibraryEntry | renderer/app.js:29-37 | the library has 144 entries in root-major order; entry 12·r + q is named `NOTE_NAMES[r]` + suffix q, and its vector is uniform on {(r + i) mod 12} |
| Templates.LibraryWellFormed | renderer/app.js:27-41 | every entry is a chord label with a 12-slot, non-negative vector |
| Matcher.CosineSymmetric | renderer/app.js:45-56 | cosine similarity is symmetric in its two arguments |
| Matcher.CosineOfZero | renderer/app.js:52-54 | a zero-norm argument on either side gives similarity 0 |
| Matcher.CosineNonNegative | renderer/app.js:45-56 | two non-negative vectors have non-negative similarity |
| Matcher.BestIsFirstMax | renderer/app.js:67-75 | the argmax loop ends with a score no template exceeds, held by the first template reaching it, or with "none" and -1 when there are no templates |
| Matcher.ActiveNotesSpec | renderer/app.js:77-78 | the filter keeps exactly the pitch classes whose value exceeds the threshold, in ascending order |
| Matcher.DetectSilent | renderer/app.js:59-62 | a chroma vector whose every value is below 1e-6 gives "N/C", confidence 0 and no active notes |
| Matcher.DetectMatch | renderer/app.js:64-83 | past the silence gate, the confidence is the best score; "N/C" is reported exactly when it is below 0.7; a reported chord belongs to the first template reaching that score |
| Matcher.DetectActiveNotes | renderer/app.js:77-78 | past the silence gate, the active notes are exactly the pitch classes whose raw value exceeds 0.3 of the peak, in C..B order, and there is at least one |
| Matcher.DetectConfidenceNonNegative | renderer/app.js:64-75 | with non-negative chroma and a non-empty non-negative library, the confidence is at least 0 |
| Matcher.DetectChord | renderer/app.js:58-84 | the method's silence gate, normalisation, strict-`>` argmax loop, filter and confidence gate compute exactly `Detect` |
| Smoother.TallyOrder | renderer/app.js:100-101 | the counting loop inserts keys in order of first appearance in the window |
| Smoother.PickFirstMaxSpec | renderer/app.js:103-107 | the scan over the counts ends with a count no key exceeds, held by the first key reaching it |
| Smoother.TalliedIsPlurality | renderer/app.js:100-107 | on a non-empty window, `mostCommon` occurs most often, and among equally frequent labels it appears first; `maxCount` is its count |
| Smoother.PluralityUnique | renderer/app.js:103-107 | the tie-break leaves exactly one possible winner |
| Smoother.MajorityWins | renderer/app.js:100-107 | a label holding a strict majority of the window is the one chosen |
| Smoother.StepWindow | renderer/app.js:96-97 | push appends the label and evicts only the oldest entry, only when the window was full; the history never exceeds `windowSize`, which never changes |
| Smoother.StepShortWindow | renderer/app.js:98 | while the window holds fewer than two labels, push returns its input and leaves `lastStable` as it was |
| Smoother.StepStable | renderer/app.js:100-109 | from two labels on, push returns `lastStable`; `lastStable` becomes the plurality label when that label occurs at least twice, and stays otherwise; so it is the old value or a label in the window |
| Smoother.WindowOfOneNeverSettles | renderer/app.js:95-98 | with a window of at most one, push returns its input and `lastStable` never changes |
| Smoother.PushRepeatedWindow | renderer/app.js:95-97 | after n pushes of one label the window holds min(old length + n, windowSize) labels, the last n of them that label |
| Smoother.PersistentChordBecomesStable | renderer/app.js:95-109 | a label pushed n ≥ 2 times in a row with 2n > windowSize ≥ 2 becomes `lastStable` and is what the last push returns |
| Smoother.CountWindow | renderer/app.js:100-101 | the counting loop yields the keys in first-appearance order and each label's number of occurrences |
| Smoother.ScanCounts | renderer/app.js:103-107 | the strict-`>` scan over the entries yields the tallied winner and its count |
| Smoother.ChordSmoother.constructor | renderer/app.js:89-93 | a new smoother has an empty history, the given window size (5 by default) and "N/C" as stable label |
| Smoother.ChordSmoother.Push | renderer/app.js:95-110 | the new history, stable label and returned label are exactly those of `Step`, and the history stays within the window |
| Chroma.JsRem | renderer/app.js:123 | JavaScript's `%` with a positive divisor keeps the dividend's sign, stays below the divisor in magnitude, and agrees with the residue on non-negative dividends |
| Chroma.DoubleRemainderInRange | renderer/app.js:123 | `((m % 12) + 12) % 12` lies in [0, 12) and is m's residue modulo 12 for every integer m, negative ones included; the inner `%` alone is negative for negative non-multiples |
| Chroma.BinClassSpec | renderer/app.js:119-123 | a bin gets a pitch class exactly when it is in 1..fftSize/2 - 1 and its frequency is within 20..5000 Hz; the class is the rounded MIDI number mod 12 |
| Chroma.ChromaMapOneHot | renderer/app.js:115-126 | every bin is 0 in every row when it has no class, and otherwise 1.0 in exactly one row |
| Chroma.BuildChromaMap | renderer/app.js:115-127 | the map built in place is 12 rows of fftSize/2 entries, entry (pc, i) being 1.0 exactly when bin i has class pc |
| Chroma.ChromaNonNegative | renderer/app.js:129-143 | each chroma value is a sum of magnitudes and so never negative |
| Chroma.SumMappedMarkedOnly | renderer/app.js:134-140 | a row's sum depends only on which bins the row marks above 0, so unmarked bins never contribute |
| Chroma.ChromaConservesClassedEnergy | renderer/app.js:115-143 | against the built map, the twelve chroma values add up to the magnitude of every classed bin, each counted once |
| Chroma.ComputeChroma | renderer/app.js:129-144 | the nested loops yield, for each pitch class, the sum of the magnitudes of the bins its row marks |
| Analysis.QuietTick | renderer/app.js:212-221 | a spectrum peaking below -60 dB shows "N/C" at confidence 0 with no keys and empty bars, and leaves the smoother untouched |
| Analysis.LoudTick | renderer/app.js:223-229 | a loud tick shows the spectrum's non-negative chroma and the matcher's confidence and notes; the raw label enters the window; the label shown is the raw label, the old stable label or one in the window |
| Analysis.TickKeepsWindow | renderer/app.js:216-225 | every tick keeps the smoother's window within its capacity and leaves the capacity unchanged |
| Analysis.TickHeard | renderer/app.js:223-227 | a loud tick heard as some chord is exactly one push of that chord |
| Analysis.RunOfOneChord | renderer/app.js:223-225 | ticks whose spectra are all heard as one chord act on the smoother as that many pushes of it |
| Analysis.PersistentChordIsShown | renderer/app.js:223-227 | once one chord is heard on n ≥ 2 loud ticks in a row with 2n > windowSize ≥ 2, it is the stable label and is on screen |
| Analysis.AnalysisTick | renderer/app.js:211-229 | the tick's gate, chroma, match and push give exactly the display and smoother state of `Tick` |

## Left out

- `main.js`, the Electron window, permission handling and microphone prompts: platform plumbing.
- `startAudio`: `getUserMedia`, `AudioContext` and `AnalyserNode` are browser APIs. The
  model takes the spectrum as a sequence, and the sample rate and FFT size as parameters.
- `setInterval` scheduling: `Run` stands for a sequence of ticks, with no timing.
- The RMS level meter and its debug text: they feed only the UI.
- All DOM updates: `updateChordDisplay`, the piano, the chroma bars and the about dialog.
  Their inputs are the fields of `Display`.
- Floating point: `real` replaces IEEE doubles, and NaN and infinities are not modelled.
  `Math.sqrt`, `Math.log2` with `Math.round`, and `Math.pow` are parameters. Only the facts
  listed above are known about them, so the model cannot show that template norms are 1 or
  that a clean C major triad scores about 1.
- Templates.BuildTemplates: it takes `sqrt` as a parameter rather than computing square roots.
- Chroma.BuildChromaMap: the twelve separate `Float64Array` rows become one `array2`. The
  proof therefore does not cover the rows being distinct objects.
- Chroma.BuildChromaMap: it requires an even `fftSize`, because an odd one makes
  `Float64Array(fftSize / 2)` throw. The analyser only allows powers of two.
- Smoother.ChordSmoother.Push: the label is a `Label` value rather than its name. This is
  equivalent by `NameRoundTrip`.
