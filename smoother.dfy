/** The temporal smoother: a bounded FIFO of raw labels and a majority vote with a sticky
    stable label (renderer/app.js, class ChordSmoother). */
module Smoother {
  import opened Music

  /** The index of the first occurrence of `x` in `h`. */
  function FirstIndex(h: seq<Label>, x: Label): (r: nat)
    requires x in h
    ensures r < |h| && h[r] == x
    ensures forall j :: 0 <= j < r ==> h[j] != x
  {
    var n := |h| - 1;
    assert h == h[..n] + [h[n]];
    if x in h[..n] then FirstIndex(h[..n], x) else n
  }

  /** The keys of the `counts` object after the tally loop, in insertion order: each label of
      the window once, in order of first appearance. */
  function Tally(h: seq<Label>): (keys: seq<Label>)
    ensures forall x :: x in keys <==> x in h
    ensures forall i, j :: 0 <= i < j < |keys| ==> keys[i] != keys[j]
  {
    if h == [] then []
    else
      var n := |h| - 1;
      var prev := Tally(h[..n]);
      assert h == h[..n] + [h[n]];
      if h[n] in prev then prev else prev + [h[n]]
  }

  /** Keys come out in the order in which they first appear in the window. */
  lemma {:induction false} TallyOrder(h: seq<Label>)
    ensures forall i, j :: 0 <= i < j < |Tally(h)| ==> FirstIndex(h, Tally(h)[i]) < FirstIndex(h, Tally(h)[j])
  {
    if h != [] {
      var n := |h| - 1;
      TallyOrder(h[..n]);
      var prev := Tally(h[..n]);
      forall y | y in h[..n]
        ensures FirstIndex(h, y) == FirstIndex(h[..n], y) < n
      {
      }
      if h[n] !in prev {
        assert FirstIndex(h, h[n]) == n;
        forall i | 0 <= i < |prev|
          ensures prev[i] in h[..n] && FirstIndex(h, prev[i]) < n
        {
        }
      }
    }
  }

  /** The scan over `Object.entries(counts)`: start at (none, 0) and take a key only when its
      count is strictly greater. Returns the winning key's index (-1 for none) and count. */
  function PickFirstMax(keys: seq<Label>, h: seq<Label>): (r: (int, nat))
    ensures -1 <= r.0 < |keys|
  {
    if keys == [] then (-1, 0)
    else
      var n := |keys| - 1;
      var (i, c) := PickFirstMax(keys[..n], h);
      var count := multiset(h)[keys[n]];
      if count > c then (n, count) else (i, c)
  }

  lemma {:induction false} PickFirstMaxSpec(keys: seq<Label>, h: seq<Label>)
    ensures var (i, c) := PickFirstMax(keys, h);
      && (forall j :: 0 <= j < |keys| ==> multiset(h)[keys[j]] <= c)
      && (i == -1 ==> c == 0)
      && (0 <= i ==> c == multiset(h)[keys[i]] && forall j :: 0 <= j < i ==> multiset(h)[keys[j]] < c)
  {
    if keys != [] {
      var n := |keys| - 1;
      PickFirstMaxSpec(keys[..n], h);
      assert forall j :: 0 <= j < n ==> keys[..n][j] == keys[j];
    }
  }

  /** `mostCommon` and `maxCount` after the tally; `fallback` is the initial `mostCommon`. */
  function Tallied(h: seq<Label>, fallback: Label): (Label, nat)
  {
    var keys := Tally(h);
    var (i, c) := PickFirstMax(keys, h);
    (if i == -1 then fallback else keys[i], c)
  }

  /** `m` is a most frequent label of `h`, and among the most frequent it appears first. */
  ghost predicate IsPlurality(h: seq<Label>, m: Label)
  {
    && m in h
    && (forall y :: y in h ==> multiset(h)[y] <= multiset(h)[m])
    && (forall y :: y in h && multiset(h)[y] == multiset(h)[m] ==> FirstIndex(h, m) <= FirstIndex(h, y))
  }

  /** On a non-empty window the scan picks some key, and no label outnumbers it. */
  lemma TallyWinnerCount(h: seq<Label>)
    requires h != []
    ensures var (i, c) := PickFirstMax(Tally(h), h);
      && 0 <= i && c == multiset(h)[Tally(h)[i]]
      && forall y :: y in h ==> multiset(h)[y] <= c
  {
    var keys := Tally(h);
    PickFirstMaxSpec(keys, h);
    assert h[0] in keys;
    var j0 :| 0 <= j0 < |keys| && keys[j0] == h[0];
    assert 0 < multiset(h)[keys[j0]];
    forall y | y in h
      ensures multiset(h)[y] <= PickFirstMax(keys, h).1
    {
      var j :| 0 <= j < |keys| && keys[j] == y;
    }
  }

  /** Among labels with the winning count, the winner appears first in the window. */
  lemma TallyWinnerFirst(h: seq<Label>)
    requires h != []
    ensures var (i, c) := PickFirstMax(Tally(h), h);
      0 <= i ==> forall y :: y in h && multiset(h)[y] == c ==> FirstIndex(h, Tally(h)[i]) <= FirstIndex(h, y)
  {
    var keys := Tally(h);
    PickFirstMaxSpec(keys, h);
    TallyOrder(h);
    var (i, c) := PickFirstMax(keys, h);
    if 0 <= i {
      forall y | y in h && multiset(h)[y] == c
        ensures FirstIndex(h, keys[i]) <= FirstIndex(h, y)
      {
        var j :| 0 <= j < |keys| && keys[j] == y;
        if i < j {
          assert FirstIndex(h, keys[i]) < FirstIndex(h, keys[j]);
        }
      }
    }
  }

  /** On a non-empty window the tally picks the plurality label, ties going to the label that
      first appears earliest, and reports its count. */
  lemma TalliedIsPlurality(h: seq<Label>, fallback: Label)
    requires h != []
    ensures var (m, c) := Tallied(h, fallback); c == multiset(h)[m] && IsPlurality(h, m)
  {
    TallyWinnerCount(h);
    TallyWinnerFirst(h);
    var (i, c) := PickFirstMax(Tally(h), h);
    assert Tallied(h, fallback) == (Tally(h)[i], c);
    assert Tally(h)[i] in h;
  }

  /** The tie-break rule leaves no choice: a window has at most one plurality label. */
  lemma PluralityUnique(h: seq<Label>, a: Label, b: Label)
    requires IsPlurality(h, a) && IsPlurality(h, b)
    ensures a == b
  {
    assert FirstIndex(h, a) == FirstIndex(h, b);
  }

  lemma {:induction false} CountPairBound(h: seq<Label>, x: Label, y: Label)
    ensures x != y ==> multiset(h)[x] + multiset(h)[y] <= |h|
  {
    if h != [] {
      var n := |h| - 1;
      CountPairBound(h[..n], x, y);
      assert h == h[..n] + [h[n]];
    }
  }

  /** A label holding a strict majority of the window is its plurality label. */
  lemma MajorityWins(h: seq<Label>, x: Label, m: Label)
    requires |h| < 2 * multiset(h)[x]
    requires IsPlurality(h, m)
    ensures m == x
  {
    assert x in h;
    CountPairBound(h, x, m);
  }

  /** The FIFO update: append, then drop the oldest entry when over capacity. */
  function Slide(history: seq<Label>, chordName: Label, windowSize: nat): seq<Label>
  {
    var appended := history + [chordName];
    if |appended| > windowSize then appended[1..] else appended
  }

  /** The value of a ChordSmoother: its history, window size and last stable label. */
  datatype SmootherState = SmootherState(history: seq<Label>, windowSize: nat, lastStable: Label)

  /** The vote over a window of at least two labels: the tally's winner when it occurs at
      least twice, the previous stable label otherwise. */
  function Vote(history: seq<Label>, chordName: Label, lastStable: Label): Label
  {
    var (mostCommon, maxCount) := Tallied(history, chordName);
    if maxCount >= 2 then mostCommon else lastStable
  }

  /** One `push`: the new state and the returned label. */
  function Step(s: SmootherState, chordName: Label): (SmootherState, Label)
  {
    var history := Slide(s.history, chordName, s.windowSize);
    if |history| < 2 then (s.(history := history), chordName)
    else
      var lastStable := Vote(history, chordName, s.lastStable);
      (SmootherState(history, s.windowSize, lastStable), lastStable)
  }

  /** The FIFO stays within its capacity, the capacity never changes, and a push appends the
      new label and evicts only the oldest entry, and only when the window was full. */
  lemma StepWindow(s: SmootherState, chordName: Label)
    requires |s.history| <= s.windowSize
    ensures var t := Step(s, chordName).0;
      && t.windowSize == s.windowSize
      && |t.history| <= t.windowSize
      && (|s.history| < s.windowSize ==> t.history == s.history + [chordName])
      && (0 < |s.history| == s.windowSize ==> t.history == s.history[1..] + [chordName])
      && (s.windowSize == 0 ==> t.history == [])
  {
  }

  /** While the window holds fewer than two labels, push returns its input and keeps the
      stable label. */
  lemma StepShortWindow(s: SmootherState, chordName: Label)
    requires |Step(s, chordName).0.history| < 2
    ensures Step(s, chordName).1 == chordName
    ensures Step(s, chordName).0.lastStable == s.lastStable
  {
  }

  /** From two labels on, push returns the stable label, which becomes the window's plurality
      label when that label occurs at least twice and stays as it was otherwise; so it is the
      previous stable label or a label of the window. */
  lemma StepStable(s: SmootherState, chordName: Label)
    requires 2 <= |Step(s, chordName).0.history|
    ensures var (t, smoothed) := Step(s, chordName);
      && smoothed == t.lastStable
      && (exists m :: IsPlurality(t.history, m))
      && (forall m :: IsPlurality(t.history, m) ==>
            t.lastStable == if multiset(t.history)[m] >= 2 then m else s.lastStable)
      && (t.lastStable == s.lastStable || t.lastStable in t.history)
  {
    var h := Step(s, chordName).0.history;
    TalliedIsPlurality(h, chordName);
    var (mostCommon, maxCount) := Tallied(h, chordName);
    forall m | IsPlurality(h, m)
      ensures m == mostCommon
    {
      PluralityUnique(h, m, mostCommon);
    }
  }

  /** With a window of one the history never holds two labels: push hands back every input
      and the stable label never moves. */
  lemma WindowOfOneNeverSettles(s: SmootherState, chordName: Label)
    requires s.windowSize <= 1 && |s.history| <= s.windowSize
    ensures Step(s, chordName).1 == chordName
    ensures Step(s, chordName).0.lastStable == s.lastStable
  {
    StepWindow(s, chordName);
  }

  /** The state after `n` pushes of the same label. */
  function PushRepeated(s: SmootherState, chordName: Label, n: nat): SmootherState
  {
    if n == 0 then s else Step(PushRepeated(s, chordName, n - 1), chordName).0
  }

  /** The last `n` entries of `h` (or all of them, if fewer) are `x`. */
  ghost predicate EndsWithRun(h: seq<Label>, x: Label, n: nat)
  {
    forall j :: 0 <= j < |h| && |h| - n <= j ==> h[j] == x
  }

  /** The window after `n` pushes of the same label; the votes play no part in it. */
  function Filled(h: seq<Label>, chordName: Label, n: nat, windowSize: nat): seq<Label>
  {
    if n == 0 then h else Slide(Filled(h, chordName, n - 1, windowSize), chordName, windowSize)
  }

  lemma {:induction false} PushRepeatedHistory(s: SmootherState, chordName: Label, n: nat)
    ensures PushRepeated(s, chordName, n).history == Filled(s.history, chordName, n, s.windowSize)
    ensures PushRepeated(s, chordName, n).windowSize == s.windowSize
  {
    if n > 0 {
      PushRepeatedHistory(s, chordName, n - 1);
    }
  }

  lemma {:induction false} FilledWindow(h: seq<Label>, chordName: Label, n: nat, windowSize: nat)
    requires |h| <= windowSize
    ensures var f := Filled(h, chordName, n, windowSize);
      && |f| == (if |h| + n < windowSize then |h| + n else windowSize)
      && EndsWithRun(f, chordName, n)
  {
    if n > 0 {
      var before := Filled(h, chordName, n - 1, windowSize);
      FilledWindow(h, chordName, n - 1, windowSize);
      var f := Filled(h, chordName, n, windowSize);
      if |before| < windowSize {
        assert f == before + [chordName];
      } else if 0 < windowSize {
        assert f == before[1..] + [chordName];
        forall j | 0 <= j < |f| - 1 && |f| - n <= j
          ensures f[j] == chordName
        {
          assert f[j] == before[j + 1];
        }
      }
    }
  }

  /** After `n` pushes of one label the window holds min(previous length + n, windowSize)
      labels, the last `n` of them that label. */
  lemma PushRepeatedWindow(s: SmootherState, chordName: Label, n: nat)
    requires |s.history| <= s.windowSize
    ensures var t := PushRepeated(s, chordName, n);
      && t.windowSize == s.windowSize
      && |t.history| == (if |s.history| + n < s.windowSize then |s.history| + n else s.windowSize)
      && EndsWithRun(t.history, chordName, n)
  {
    PushRepeatedHistory(s, chordName, n);
    FilledWindow(s.history, chordName, n, s.windowSize);
  }

  lemma {:induction false} CountSuffix(h: seq<Label>, x: Label, n: nat)
    requires n <= |h|
    requires EndsWithRun(h, x, n)
    ensures n <= multiset(h)[x]
  {
    if n > 0 {
      var last := |h| - 1;
      CountSuffix(h[..last], x, n - 1);
      assert h == h[..last] + [h[last]];
    }
  }

  /** Latency bound: in a window of at least two, a label pushed on more than half of the
      window's ticks in a row (in particular ceil(windowSize / 2) + 1 times) becomes the stable
      label, and the last of those pushes returns it. */
  lemma PersistentChordBecomesStable(s: SmootherState, chordName: Label, n: nat)
    requires |s.history| <= s.windowSize
    requires 2 <= s.windowSize && 2 <= n && s.windowSize < 2 * n
    ensures PushRepeated(s, chordName, n).lastStable == chordName
    ensures Step(PushRepeated(s, chordName, n - 1), chordName).1 == chordName
  {
    var before := PushRepeated(s, chordName, n - 1);
    PushRepeatedWindow(s, chordName, n - 1);
    PushRepeatedWindow(s, chordName, n);
    var h := PushRepeated(s, chordName, n).history;
    assert 2 <= |h|;
    var run := if n < |h| then n else |h|;
    CountSuffix(h, chordName, run);
    StepStable(before, chordName);
    var (mostCommon, maxCount) := Tallied(h, chordName);
    TalliedIsPlurality(h, chordName);
    MajorityWins(h, chordName, mostCommon);
  }

  /** The counting loop of push: `counts[c] = (counts[c] || 0) + 1` over the window, keeping
      the order in which keys are first inserted. */
  method CountWindow(history: seq<Label>) returns (keys: seq<Label>, counts: map<Label, nat>)
    ensures keys == Tally(history)
    ensures forall c :: c in counts <==> c in history
    ensures forall c :: c in counts ==> counts[c] == multiset(history)[c]
  {
    keys := [];
    counts := map[];
    var k := 0;
    while k < |history|
      invariant 0 <= k <= |history|
      invariant keys == Tally(history[..k])
      invariant forall c :: c in counts <==> c in keys
      invariant forall c :: c in counts ==> counts[c] == multiset(history[..k])[c]
    {
      assert history[..k + 1] == history[..k] + [history[k]];
      var c := history[k];
      if c in counts {
        counts := counts[c := counts[c] + 1];
      } else {
        keys := keys + [c];
        counts := counts[c := 1];
      }
      k := k + 1;
    }
    assert history[..k] == history;
  }

  /** The scan over `Object.entries(counts)` in push: a key replaces the current winner only
      when its count is strictly greater, so ties keep the earlier key. */
  method ScanCounts(keys: seq<Label>, counts: map<Label, nat>, history: seq<Label>, fallback: Label)
    returns (mostCommon: Label, maxCount: nat)
    requires keys == Tally(history)
    requires forall c :: c in counts <==> c in history
    requires forall c :: c in counts ==> counts[c] == multiset(history)[c]
    ensures (mostCommon, maxCount) == Tallied(history, fallback)
  {
    mostCommon := fallback;
    maxCount := 0;
    var j := 0;
    while j < |keys|
      invariant 0 <= j <= |keys|
      invariant maxCount == PickFirstMax(keys[..j], history).1
      invariant mostCommon ==
        if PickFirstMax(keys[..j], history).0 == -1 then fallback else keys[PickFirstMax(keys[..j], history).0]
    {
      assert keys[..j + 1][..j] == keys[..j];
      var count := counts[keys[j]];
      if count > maxCount {
        maxCount := count;
        mostCommon := keys[j];
      }
      j := j + 1;
    }
    assert keys[..j] == keys;
  }

  /** The smoother object: the history FIFO and the sticky stable label. */
  class ChordSmoother {
    var history: seq<Label>
    const windowSize: nat
    var lastStable: Label

    ghost predicate Valid()
      reads this
    {
      |history| <= windowSize
    }

    function State(): SmootherState
      reads this
    {
      SmootherState(history, windowSize, lastStable)
    }

    constructor (windowSize: nat := 5)
      ensures Valid()
      ensures State() == SmootherState([], windowSize, NoChord)
    {
      this.history := [];
      this.windowSize := windowSize;
      this.lastStable := NoChord;
    }

    /** push: append, evict the oldest when over capacity, return the input while the window
        is shorter than two; otherwise tally the window, scan the counts in key order and move
        the stable label to the winner when it occurs at least twice. */
    method Push(chordName: Label) returns (smoothed: Label)
      requires Valid()
      modifies this
      ensures Valid()
      ensures (State(), smoothed) == Step(old(State()), chordName)
    {
      history := history + [chordName];
      if |history| > windowSize {
        history := history[1..];
      }
      if |history| < 2 {
        return chordName;
      }

      var keys, counts := CountWindow(history);
      var mostCommon, maxCount := ScanCounts(keys, counts, history, chordName);
      if maxCount >= 2 {
        lastStable := mostCommon;
      }
      return lastStable;
    }
  }
}
