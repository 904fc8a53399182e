/** The chord matcher: cosine similarity against every template, a first-wins argmax, the
    active-note filter on the raw vector, and the silence and confidence gates
    (renderer/app.js, cosineSimilarity and detectChord). */
module Matcher {
  import opened Music
  import opened Vectors
  import opened Templates

  /** Below this peak the chroma vector counts as silence (1e-6). */
  const SilenceEpsilon: real := 0.000001
  /** Added to the norm before dividing (1e-10). */
  const NormGuard: real := 0.0000000001
  /** A best score below this is reported as "no chord". */
  const ConfidenceThreshold: real := 0.7
  /** A pitch class is active when its raw value exceeds this share of the peak. */
  const ActiveRatio: real := 0.3

  /** What detectChord returns; active notes are pitch classes (NoteNames gives their names). */
  datatype Detection = Detection(chord: Label, confidence: real, activeNotes: seq<PitchClass>)

  /** cosineSimilarity: the dot product over the product of the norms, or 0 when a norm is 0. */
  function Cosine(a: seq<real>, b: seq<real>, sqrt: real -> real): real
    requires |a| == 12 && |b| == 12
  {
    var dot := Dot(a, b);
    var normA := sqrt(Dot(a, a));
    var normB := sqrt(Dot(b, b));
    if normA == 0.0 || normB == 0.0 then 0.0 else dot / (normA * normB)
  }

  /** The similarity does not depend on the order of its arguments. */
  lemma CosineSymmetric(a: seq<real>, b: seq<real>, sqrt: real -> real)
    requires |a| == 12 && |b| == 12
    ensures Cosine(a, b, sqrt) == Cosine(b, a, sqrt)
  {
    DotSymmetric(a, b);
  }

  /** A zero vector on either side has similarity 0. */
  lemma CosineOfZero(a: seq<real>, b: seq<real>, sqrt: real -> real)
    requires |a| == 12 && |b| == 12 && SqrtLike(sqrt)
    requires forall i :: 0 <= i < 12 ==> a[i] == 0.0
    ensures Cosine(a, b, sqrt) == 0.0 && Cosine(b, a, sqrt) == 0.0
  {
    DotOfZero(a, a);
    CosineSymmetric(a, b, sqrt);
  }

  /** Two non-negative vectors are never dissimilar: the score is at least 0. */
  lemma CosineNonNegative(a: seq<real>, b: seq<real>, sqrt: real -> real)
    requires |a| == 12 && |b| == 12 && SqrtLike(sqrt)
    requires forall i :: 0 <= i < 12 ==> 0.0 <= a[i] && 0.0 <= b[i]
    ensures 0.0 <= Cosine(a, b, sqrt)
  {
    DotNonNegative(a, b);
    SumSqNonNegative(a);
    SumSqNonNegative(b);
    var normA, normB := sqrt(Dot(a, a)), sqrt(Dot(b, b));
    if normA != 0.0 && normB != 0.0 {
      assert 0.0 < normA && 0.0 < normB;
      assert 0.0 < normA * normB;
    }
  }

  /** `chromaVector.map(v => v / norm)` with norm = sqrt(sum of squares) + 1e-10. */
  function Normalise(chroma: seq<real>, sqrt: real -> real): (v: seq<real>)
    requires SqrtLike(sqrt)
    ensures |v| == |chroma|
  {
    SumSqNonNegative(chroma);
    var norm := sqrt(SumSq(chroma)) + NormGuard;
    seq(|chroma|, i requires 0 <= i < |chroma| => chroma[i] / norm)
  }

  /** The score of every template against the normalised vector, in library order. */
  function Scores(chromaNorm: seq<real>, templates: seq<Template>, sqrt: real -> real): (s: seq<real>)
    requires |chromaNorm| == 12 && WellFormed(templates)
    ensures |s| == |templates|
  {
    seq(|templates|, k requires 0 <= k < |templates| => Cosine(chromaNorm, templates[k].vector, sqrt))
  }

  /** The argmax loop of detectChord over a list of scores: start at (none, -1) and replace the
      best only on a strictly greater score. Returns the index (-1 for none) and the best score. */
  function Best(scores: seq<real>): (r: (int, real))
    ensures -1 <= r.0 < |scores|
  {
    if scores == [] then (-1, -1.0)
    else
      var n := |scores| - 1;
      var (k, b) := Best(scores[..n]);
      if scores[n] > b then (n, scores[n]) else (k, b)
  }

  /** The argmax keeps the first index attaining the maximum, and keeps "none" with score -1
      only when no score exceeds -1. */
  lemma {:induction false} BestIsFirstMax(scores: seq<real>)
    ensures var (k, b) := Best(scores);
      && -1.0 <= b
      && (forall j :: 0 <= j < |scores| ==> scores[j] <= b)
      && (k == -1 ==> b == -1.0)
      && (0 <= k ==> scores[k] == b && forall j :: 0 <= j < k ==> scores[j] < b)
  {
    if scores != [] {
      var n := |scores| - 1;
      BestIsFirstMax(scores[..n]);
      assert forall j :: 0 <= j < n ==> scores[..n][j] == scores[j];
    }
  }

  /** The pitch classes below `n` whose raw value exceeds `threshold`, in ascending order. */
  function NotesAbove(chroma: seq<real>, threshold: real, n: nat): seq<PitchClass>
    requires n <= 12 == |chroma|
  {
    if n == 0 then []
    else NotesAbove(chroma, threshold, n - 1) + (if chroma[n - 1] > threshold then [n - 1] else [])
  }

  /** `NOTE_NAMES.filter((_, i) => chromaVector[i] > threshold)`, as pitch classes. */
  function ActiveNotes(chroma: seq<real>, threshold: real): seq<PitchClass>
    requires |chroma| == 12
  {
    NotesAbove(chroma, threshold, 12)
  }

  lemma {:induction false} NotesAboveSpec(chroma: seq<real>, threshold: real, n: nat)
    requires n <= 12 == |chroma|
    ensures forall pc :: pc in NotesAbove(chroma, threshold, n) <==> 0 <= pc < n && chroma[pc] > threshold
    ensures forall i, j :: 0 <= i < j < |NotesAbove(chroma, threshold, n)| ==>
      NotesAbove(chroma, threshold, n)[i] < NotesAbove(chroma, threshold, n)[j]
  {
    if n > 0 {
      NotesAboveSpec(chroma, threshold, n - 1);
      var prefix := NotesAbove(chroma, threshold, n - 1);
      forall i | 0 <= i < |prefix|
        ensures prefix[i] < n - 1
      {
        assert prefix[i] in prefix;
      }
    }
  }

  /** The active notes are exactly the pitch classes above the threshold, in C..B order. */
  lemma ActiveNotesSpec(chroma: seq<real>, threshold: real)
    requires |chroma| == 12
    ensures forall pc :: pc in ActiveNotes(chroma, threshold) <==> 0 <= pc < 12 && chroma[pc] > threshold
    ensures forall i, j :: 0 <= i < j < |ActiveNotes(chroma, threshold)| ==>
      ActiveNotes(chroma, threshold)[i] < ActiveNotes(chroma, threshold)[j]
  {
    NotesAboveSpec(chroma, threshold, 12);
  }

  /** detectChord as a function of the raw chroma vector and the library. */
  function Detect(chroma: seq<real>, templates: seq<Template>, sqrt: real -> real): Detection
    requires |chroma| == 12 && WellFormed(templates) && SqrtLike(sqrt)
  {
    var maxChroma := MaxOf(chroma);
    if maxChroma < SilenceEpsilon then Detection(NoChord, 0.0, [])
    else
      var (best, bestScore) := Best(Scores(Normalise(chroma, sqrt), templates, sqrt));
      var bestName := if best == -1 then NoChord else templates[best].chord;
      var activeNotes := ActiveNotes(chroma, ActiveRatio * maxChroma);
      if bestScore < ConfidenceThreshold then Detection(NoChord, bestScore, activeNotes)
      else Detection(bestName, bestScore, activeNotes)
  }

  /** Silence gate: a vector whose every component is below 1e-6 (an all-zero vector in
      particular) gives "no chord", confidence 0 and no active notes. */
  lemma DetectSilent(chroma: seq<real>, templates: seq<Template>, sqrt: real -> real)
    requires |chroma| == 12 && WellFormed(templates) && SqrtLike(sqrt)
    requires forall i :: 0 <= i < 12 ==> chroma[i] < SilenceEpsilon
    ensures Detect(chroma, templates, sqrt) == Detection(NoChord, 0.0, [])
  {
    assert MaxOf(chroma) in chroma;
  }

  /** Past the silence gate: the confidence is the best score over all templates, "no chord" is
      reported exactly when it is below 0.7, and a reported chord is the label of the FIRST
      template attaining that score. */
  lemma DetectMatch(chroma: seq<real>, templates: seq<Template>, sqrt: real -> real)
    requires |chroma| == 12 && WellFormed(templates) && SqrtLike(sqrt)
    requires forall k :: 0 <= k < |templates| ==> templates[k].chord != NoChord
    requires SilenceEpsilon <= MaxOf(chroma)
    ensures var d := Detect(chroma, templates, sqrt);
      var scores := Scores(Normalise(chroma, sqrt), templates, sqrt);
      && (d.chord == NoChord <==> d.confidence < ConfidenceThreshold)
      && (forall k :: 0 <= k < |templates| ==> scores[k] <= d.confidence)
      && (d.confidence == -1.0 || d.confidence in scores)
      && (d.chord != NoChord ==>
            exists k :: 0 <= k < |templates| && templates[k].chord == d.chord && scores[k] == d.confidence
              && forall j :: 0 <= j < k ==> scores[j] < d.confidence)
  {
    var scores := Scores(Normalise(chroma, sqrt), templates, sqrt);
    BestIsFirstMax(scores);
    var (k, b) := Best(scores);
    if 0 <= k {
      assert scores[k] == b;
    }
  }

  /** Past the silence gate the active notes are the pitch classes whose RAW value exceeds 0.3
      of the peak, in C..B order, and there is at least one. */
  lemma DetectActiveNotes(chroma: seq<real>, templates: seq<Template>, sqrt: real -> real)
    requires |chroma| == 12 && WellFormed(templates) && SqrtLike(sqrt)
    requires SilenceEpsilon <= MaxOf(chroma)
    ensures var notes := Detect(chroma, templates, sqrt).activeNotes;
      && notes != []
      && (forall pc :: pc in notes <==> 0 <= pc < 12 && chroma[pc] > ActiveRatio * MaxOf(chroma))
      && (forall i, j :: 0 <= i < j < |notes| ==> notes[i] < notes[j])
  {
    var peak := MaxOf(chroma);
    var notes := ActiveNotes(chroma, ActiveRatio * peak);
    assert Detect(chroma, templates, sqrt).activeNotes == notes;
    ActiveNotesSpec(chroma, ActiveRatio * peak);
    var i :| 0 <= i < 12 && chroma[i] == peak;
    assert chroma[i] > ActiveRatio * peak;
    assert i in notes;
  }

  /** With non-negative input and a non-empty library of non-negative shapes, the confidence
      is a score in [0, ...): never negative. */
  lemma DetectConfidenceNonNegative(chroma: seq<real>, templates: seq<Template>, sqrt: real -> real)
    requires |chroma| == 12 && WellFormed(templates) && SqrtLike(sqrt)
    requires templates != []
    requires forall i :: 0 <= i < 12 ==> 0.0 <= chroma[i]
    requires forall k, i :: 0 <= k < |templates| && 0 <= i < 12 ==> 0.0 <= templates[k].vector[i]
    ensures 0.0 <= Detect(chroma, templates, sqrt).confidence
  {
    if SilenceEpsilon <= MaxOf(chroma) {
      var chromaNorm := Normalise(chroma, sqrt);
      SumSqNonNegative(chroma);
      SqrtNonNegative(sqrt, SumSq(chroma));
      var norm := sqrt(SumSq(chroma)) + NormGuard;
      assert 0.0 < norm;
      forall i | 0 <= i < 12
        ensures 0.0 <= chromaNorm[i]
      {
        assert chromaNorm[i] == chroma[i] / norm;
      }
      CosineNonNegative(chromaNorm, templates[0].vector, sqrt);
      var scores := Scores(chromaNorm, templates, sqrt);
      assert 0.0 <= scores[0];
      BestIsFirstMax(scores);
      assert Detect(chroma, templates, sqrt).confidence == Best(scores).1;
    }
  }

  /** detectChord: the silence gate, the normalisation, the argmax loop over the templates with
      a strict `>`, the active-note filter and the confidence gate. */
  method DetectChord(chromaVector: seq<real>, templates: seq<Template>, sqrt: real -> real)
    returns (d: Detection)
    requires |chromaVector| == 12 && WellFormed(templates) && SqrtLike(sqrt)
    ensures d == Detect(chromaVector, templates, sqrt)
  {
    var maxChroma := MaxOf(chromaVector);
    if maxChroma < SilenceEpsilon {
      return Detection(NoChord, 0.0, []);
    }
    var chromaNorm := Normalise(chromaVector, sqrt);
    ghost var scores := Scores(chromaNorm, templates, sqrt);
    var bestName := NoChord;
    var bestScore := -1.0;
    var k := 0;
    while k < |templates|
      invariant 0 <= k <= |templates|
      invariant bestScore == Best(scores[..k]).1
      invariant bestName == if Best(scores[..k]).0 == -1 then NoChord else templates[Best(scores[..k]).0].chord
    {
      assert scores[..k + 1][..k] == scores[..k];
      var score := Cosine(chromaNorm, templates[k].vector, sqrt);
      if score > bestScore {
        bestScore := score;
        bestName := templates[k].chord;
      }
      k := k + 1;
    }
    assert scores[..k] == scores;
    var threshold := ActiveRatio * maxChroma;
    var activeNotes := ActiveNotes(chromaVector, threshold);
    if bestScore < ConfidenceThreshold {
      return Detection(NoChord, bestScore, activeNotes);
    }
    return Detection(bestName, bestScore, activeNotes);
  }
}
