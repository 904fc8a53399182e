/** The chord decision of one analysis tick (renderer/app.js, runAnalysisLoop's interval
    callback): the silence gate on the spectrum's peak, then chroma, match and smoothing. */
module Analysis {
  import opened Music
  import opened Vectors
  import opened Templates
  import opened Matcher
  import opened Chroma
  import opened Smoother

  /** A spectrum whose peak is below this many dB is silence. */
  const SilenceThresholdDb: real := -60.0

  /** What a tick puts on screen: the label, the confidence, the highlighted keys and the
      twelve chroma bars. */
  datatype Display = Display(chord: Label, confidence: real, activeNotes: seq<PitchClass>, chroma: seq<real>)

  /** `Math.max(...frequencyData) < SILENCE_THRESHOLD_DB`; the maximum of no values is
      -Infinity, so an empty spectrum is silent too. */
  predicate Quiet(frequencyData: seq<real>)
  {
    frequencyData == [] || MaxOf(frequencyData) < SilenceThresholdDb
  }

  /** One tick: the display and the new smoother state. */
  function Tick(frequencyData: seq<real>, rows: seq<seq<real>>, templates: seq<Template>,
                sqrt: real -> real, magnitude: real -> real, s: SmootherState): (Display, SmootherState)
    requires |rows| == 12 && WellFormed(templates) && SqrtLike(sqrt)
  {
    if Quiet(frequencyData) then (Display(NoChord, 0.0, [], seq(12, _ => 0.0)), s)
    else
      var chroma := ChromaOf(frequencyData, rows, magnitude);
      var detection := Detect(chroma, templates, sqrt);
      var (next, smoothed) := Step(s, detection.chord);
      (Display(smoothed, detection.confidence, detection.activeNotes, chroma), next)
  }

  /** A silent tick shows "no chord" at confidence 0, no keys and empty bars, and neither the
      smoother nor anything else depends on the state it met. */
  lemma QuietTick(frequencyData: seq<real>, rows: seq<seq<real>>, templates: seq<Template>,
                  sqrt: real -> real, magnitude: real -> real, s: SmootherState)
    requires |rows| == 12 && WellFormed(templates) && SqrtLike(sqrt)
    requires Quiet(frequencyData)
    ensures var (display, next) := Tick(frequencyData, rows, templates, sqrt, magnitude, s);
      && next == s
      && display.chord == NoChord && display.confidence == 0.0 && display.activeNotes == []
      && |display.chroma| == 12 && forall pc :: 0 <= pc < 12 ==> display.chroma[pc] == 0.0
  {
  }

  /** A loud tick shows the chroma of the spectrum, the matcher's confidence and active notes,
      and the smoother's answer to the matcher's raw label, which it appends to the window. */
  lemma LoudTick(frequencyData: seq<real>, rows: seq<seq<real>>, templates: seq<Template>,
                 sqrt: real -> real, magnitude: real -> real, s: SmootherState)
    requires |rows| == 12 && WellFormed(templates) && SqrtLike(sqrt) && MagnitudeLike(magnitude)
    requires |s.history| <= s.windowSize && 0 < s.windowSize
    requires !Quiet(frequencyData)
    ensures var (display, next) := Tick(frequencyData, rows, templates, sqrt, magnitude, s);
      var detection := Detect(ChromaOf(frequencyData, rows, magnitude), templates, sqrt);
      && display.chroma == ChromaOf(frequencyData, rows, magnitude)
      && (forall pc :: 0 <= pc < 12 ==> 0.0 <= display.chroma[pc])
      && display.confidence == detection.confidence
      && display.activeNotes == detection.activeNotes
      && next.history[|next.history| - 1] == detection.chord
      && (display.chord == detection.chord || display.chord == next.lastStable)
      && (display.chord == detection.chord || display.chord == s.lastStable || display.chord in next.history)
  {
    var detection := Detect(ChromaOf(frequencyData, rows, magnitude), templates, sqrt);
    ChromaNonNegative(frequencyData, rows, magnitude);
    StepWindow(s, detection.chord);
    if 2 <= |Step(s, detection.chord).0.history| {
      StepStable(s, detection.chord);
    }
  }

  /** Ticks keep the smoother's window within its capacity and never change the capacity. */
  lemma TickKeepsWindow(frequencyData: seq<real>, rows: seq<seq<real>>, templates: seq<Template>,
                        sqrt: real -> real, magnitude: real -> real, s: SmootherState)
    requires |rows| == 12 && WellFormed(templates) && SqrtLike(sqrt)
    requires |s.history| <= s.windowSize
    ensures var next := Tick(frequencyData, rows, templates, sqrt, magnitude, s).1;
      next.windowSize == s.windowSize && |next.history| <= next.windowSize
  {
    if !Quiet(frequencyData) {
      StepWindow(s, Detect(ChromaOf(frequencyData, rows, magnitude), templates, sqrt).chord);
    }
  }

  /** Successive ticks over a sequence of spectra: the final state and every display. */
  function Run(frames: seq<seq<real>>, rows: seq<seq<real>>, templates: seq<Template>,
               sqrt: real -> real, magnitude: real -> real, s: SmootherState): (SmootherState, seq<Display>)
    requires |rows| == 12 && WellFormed(templates) && SqrtLike(sqrt)
  {
    if frames == [] then (s, [])
    else
      var n := |frames| - 1;
      var (before, displays) := Run(frames[..n], rows, templates, sqrt, magnitude, s);
      var (display, next) := Tick(frames[n], rows, templates, sqrt, magnitude, before);
      (next, displays + [display])
  }

  /** A spectrum that is loud and that the matcher labels `chord`. */
  ghost predicate HeardAs(frame: seq<real>, rows: seq<seq<real>>, templates: seq<Template>,
                          sqrt: real -> real, magnitude: real -> real, chord: Label)
    requires |rows| == 12 && WellFormed(templates) && SqrtLike(sqrt)
  {
    !Quiet(frame) && Detect(ChromaOf(frame, rows, magnitude), templates, sqrt).chord == chord
  }

  /** A tick on a spectrum heard as `chord` is one push of `chord` through the smoother. */
  lemma TickHeard(frame: seq<real>, rows: seq<seq<real>>, templates: seq<Template>,
                  sqrt: real -> real, magnitude: real -> real, s: SmootherState, chord: Label)
    requires |rows| == 12 && WellFormed(templates) && SqrtLike(sqrt)
    requires HeardAs(frame, rows, templates, sqrt, magnitude, chord)
    ensures Tick(frame, rows, templates, sqrt, magnitude, s).1 == Step(s, chord).0
    ensures Tick(frame, rows, templates, sqrt, magnitude, s).0.chord == Step(s, chord).1
  {
  }

  lemma {:induction false} RunOfOneChord(frames: seq<seq<real>>, rows: seq<seq<real>>, templates: seq<Template>,
                                         sqrt: real -> real, magnitude: real -> real, s: SmootherState, chord: Label)
    requires |rows| == 12 && WellFormed(templates) && SqrtLike(sqrt)
    requires forall k :: 0 <= k < |frames| ==> HeardAs(frames[k], rows, templates, sqrt, magnitude, chord)
    ensures Run(frames, rows, templates, sqrt, magnitude, s).0 == PushRepeated(s, chord, |frames|)
    ensures |Run(frames, rows, templates, sqrt, magnitude, s).1| == |frames|
  {
    if frames != [] {
      var n := |frames| - 1;
      assert forall k :: 0 <= k < n ==> frames[..n][k] == frames[k];
      RunOfOneChord(frames[..n], rows, templates, sqrt, magnitude, s, chord);
      var before := Run(frames[..n], rows, templates, sqrt, magnitude, s).0;
      assert Run(frames, rows, templates, sqrt, magnitude, s).0
        == Tick(frames[n], rows, templates, sqrt, magnitude, before).1;
      TickHeard(frames[n], rows, templates, sqrt, magnitude, before, chord);
    }
  }

  /** End to end: in a window of at least two, once the matcher hears the same chord on more
      than half a window of loud ticks in a row, that chord is on screen and is the stable label. */
  lemma PersistentChordIsShown(frames: seq<seq<real>>, rows: seq<seq<real>>, templates: seq<Template>,
                               sqrt: real -> real, magnitude: real -> real, s: SmootherState, chord: Label)
    requires |rows| == 12 && WellFormed(templates) && SqrtLike(sqrt)
    requires |s.history| <= s.windowSize
    requires forall k :: 0 <= k < |frames| ==> HeardAs(frames[k], rows, templates, sqrt, magnitude, chord)
    requires 2 <= s.windowSize && 2 <= |frames| && s.windowSize < 2 * |frames|
    ensures var (final, displays) := Run(frames, rows, templates, sqrt, magnitude, s);
      && final.lastStable == chord
      && displays[|displays| - 1].chord == chord
  {
    var n := |frames| - 1;
    RunOfOneChord(frames, rows, templates, sqrt, magnitude, s, chord);
    RunOfOneChord(frames[..n], rows, templates, sqrt, magnitude, s, chord);
    assert forall k :: 0 <= k < n ==> frames[..n][k] == frames[k];
    PersistentChordBecomesStable(s, chord, |frames|);
    var before := Run(frames[..n], rows, templates, sqrt, magnitude, s).0;
    assert Run(frames, rows, templates, sqrt, magnitude, s).1[n]
      == Tick(frames[n], rows, templates, sqrt, magnitude, before).0;
    TickHeard(frames[n], rows, templates, sqrt, magnitude, before, chord);
  }

  /** The interval callback after the level meter: read the peak, and either clear the display
      or compute the chroma, match it, push the label through the smoother and show the result. */
  method AnalysisTick(frequencyData: seq<real>, chromaMap: array2<real>, templates: seq<Template>,
                      sqrt: real -> real, magnitude: real -> real, smoother: ChordSmoother)
    returns (display: Display)
    requires chromaMap.Length0 == 12 && WellFormed(templates) && SqrtLike(sqrt)
    requires smoother.Valid()
    modifies smoother
    ensures smoother.Valid()
    ensures (display, smoother.State())
      == Tick(frequencyData, Rows(chromaMap), templates, sqrt, magnitude, old(smoother.State()))
  {
    if frequencyData == [] || MaxOf(frequencyData) < SilenceThresholdDb {
      return Display(NoChord, 0.0, [], seq(12, _ => 0.0));
    }
    var chroma := ComputeChroma(frequencyData, chromaMap, magnitude);
    var detection := DetectChord(chroma[..], templates, sqrt);
    var smoothed := smoother.Push(detection.chord);
    display := Display(smoothed, detection.confidence, detection.activeNotes, chroma[..]);
  }
}
