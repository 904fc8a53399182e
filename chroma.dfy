/** Folding an FFT magnitude spectrum onto the twelve pitch classes
    (renderer/app.js, buildChromaMap and computeChroma). */
module Chroma {
  import opened Music
  import opened Vectors

  /** JavaScript's `a % b` for a positive divisor: the remainder takes the sign of the
      dividend, unlike Dafny's `%`, which is never negative. */
  function JsRem(a: int, b: int): (r: int)
    requires 0 < b
    ensures 0 <= a ==> 0 <= r < b
    ensures a < 0 ==> -b < r <= 0
    ensures 0 <= a ==> r == a % b
  {
    if 0 <= a then a % b else -((-a) % b)
  }

  /** `((Math.round(midi) % 12) + 12) % 12`, the pitch class of a rounded MIDI number. */
  function PitchClassOf(midi: int): int
  {
    JsRem(JsRem(midi, 12) + 12, 12)
  }

  /** Euclidean division by 12 is unique: a quotient and a remainder in [0, 12) that
      reconstruct `a` are the ones Dafny's `/` and `%` give. */
  lemma ModTwelveUnique(a: int, q: int, r: int)
    requires a == 12 * q + r && 0 <= r < 12
    ensures a % 12 == r
  {
  }

  /** The double remainder lands in [0, 12) for every MIDI number, negative ones included, and
      agrees with the mathematical residue; the inner remainder alone does not. */
  lemma DoubleRemainderInRange(midi: int)
    ensures 0 <= PitchClassOf(midi) < 12
    ensures PitchClassOf(midi) == midi % 12
    ensures midi < 0 && midi % 12 != 0 ==> JsRem(midi, 12) < 0
  {
    var inner := JsRem(midi, 12);
    if 0 <= midi {
      ModTwelveUnique(inner + 12, 1, inner);
    } else {
      var q, r := (-midi) / 12, (-midi) % 12;
      assert inner == -r;
      if r == 0 {
        ModTwelveUnique(midi, -q, 0);
        ModTwelveUnique(inner + 12, 1, 0);
      } else {
        ModTwelveUnique(midi, -q - 1, 12 - r);
        ModTwelveUnique(inner + 12, 0, 12 - r);
      }
    }
  }

  /** `i * sampleRate / fftSize`, the centre frequency of bin `i`. */
  function BinFrequency(i: int, fftSize: nat, sampleRate: real): real
    requires 0 < fftSize
  {
    (i as real) * sampleRate / (fftSize as real)
  }

  /** The pitch class the map gives bin `i`: none for bin 0, for bins past `fftSize / 2` and
      for frequencies outside 20..5000 Hz. `midiOf` is `Math.round(12 * log2(f / 440) + 69)`. */
  function BinClass(i: int, fftSize: nat, sampleRate: real, midiOf: real -> int): Option<int>
  {
    if i < 1 || fftSize / 2 <= i then None
    else
      var freq := BinFrequency(i, fftSize, sampleRate);
      if freq < 20.0 || freq > 5000.0 then None else Some(PitchClassOf(midiOf(freq)))
  }

  /** A bin has a class exactly when it is a positive bin below `fftSize / 2` whose frequency
      is within 20..5000 Hz, and that class is the MIDI number's residue modulo 12. */
  lemma BinClassSpec(i: int, fftSize: nat, sampleRate: real, midiOf: real -> int)
    ensures BinClass(i, fftSize, sampleRate, midiOf).Some? <==>
      1 <= i < fftSize / 2 && 20.0 <= BinFrequency(i, fftSize, sampleRate) <= 5000.0
    ensures BinClass(i, fftSize, sampleRate, midiOf).Some? ==>
      var pc := BinClass(i, fftSize, sampleRate, midiOf).value;
      0 <= pc < 12 && pc == midiOf(BinFrequency(i, fftSize, sampleRate)) % 12
  {
    if 1 <= i < fftSize / 2 {
      DoubleRemainderInRange(midiOf(BinFrequency(i, fftSize, sampleRate)));
    }
  }

  /** Entry (pc, i) of the chroma map. */
  function MapEntry(fftSize: nat, sampleRate: real, midiOf: real -> int, pc: int, i: int): real
  {
    if BinClass(i, fftSize, sampleRate, midiOf) == Some(pc) then 1.0 else 0.0
  }

  /** The chroma map as twelve rows of `fftSize / 2` entries. */
  function ChromaMapRows(fftSize: nat, sampleRate: real, midiOf: real -> int): (rows: seq<seq<real>>)
    ensures |rows| == 12
    ensures forall pc :: 0 <= pc < 12 ==> |rows[pc]| == fftSize / 2
  {
    seq(12, pc => seq(fftSize / 2, i => MapEntry(fftSize, sampleRate, midiOf, pc, i)))
  }

  /** Each bin of the map is 1.0 in exactly one row when it has a class, and 0 in every row
      otherwise; so no bin is counted twice. */
  lemma ChromaMapOneHot(fftSize: nat, sampleRate: real, midiOf: real -> int, i: int)
    requires 0 <= i < fftSize / 2
    ensures var rows := ChromaMapRows(fftSize, sampleRate, midiOf);
      && (BinClass(i, fftSize, sampleRate, midiOf).None? ==> forall pc :: 0 <= pc < 12 ==> rows[pc][i] == 0.0)
      && (BinClass(i, fftSize, sampleRate, midiOf).Some? ==>
            exists c :: 0 <= c < 12 && rows[c][i] == 1.0 && forall pc :: 0 <= pc < 12 && pc != c ==> rows[pc][i] == 0.0)
  {
    BinClassSpec(i, fftSize, sampleRate, midiOf);
    var rows := ChromaMapRows(fftSize, sampleRate, midiOf);
    if BinClass(i, fftSize, sampleRate, midiOf).Some? {
      var c := BinClass(i, fftSize, sampleRate, midiOf).value;
      assert rows[c][i] == 1.0;
    }
  }

  /** The rows of a 12-by-n array. */
  function Rows(m: array2<real>): (rows: seq<seq<real>>)
    reads m
    ensures |rows| == m.Length0
    ensures forall r :: 0 <= r < m.Length0 ==> |rows[r]| == m.Length1
  {
    seq(m.Length0, r requires 0 <= r < m.Length0 reads m =>
      seq(m.Length1, c requires 0 <= c < m.Length1 reads m => m[r, c]))
  }

  /** buildChromaMap: a zeroed 12 x (fftSize / 2) map; for each bin from 1 whose frequency is
      within 20..5000 Hz, add 1.0 at its pitch class. */
  method BuildChromaMap(fftSize: nat, sampleRate: real, midiOf: real -> int) returns (chromaMap: array2<real>)
    requires fftSize % 2 == 0
    ensures Rows(chromaMap) == ChromaMapRows(fftSize, sampleRate, midiOf)
  {
    var binCount := fftSize / 2;
    chromaMap := new real[12, binCount]((_, _) => 0.0);
    var i := 1;
    while i < binCount
      invariant 1 <= i && (binCount == 0 || i <= binCount)
      invariant chromaMap.Length0 == 12 && chromaMap.Length1 == binCount
      invariant forall pc, b :: 0 <= pc < 12 && 0 <= b < binCount ==>
        chromaMap[pc, b] == if b < i then MapEntry(fftSize, sampleRate, midiOf, pc, b) else 0.0
    {
      var freq := (i as real) * sampleRate / (fftSize as real);
      if 20.0 <= freq <= 5000.0 {
        var midi := midiOf(freq);
        DoubleRemainderInRange(midi);
        var pitchClass := JsRem(JsRem(midi, 12) + 12, 12);
        assert BinClass(i, fftSize, sampleRate, midiOf) == Some(pitchClass);
        chromaMap[pitchClass, i] := chromaMap[pitchClass, i] + 1.0;
      } else {
        assert BinClass(i, fftSize, sampleRate, midiOf) == None;
      }
      i := i + 1;
    }
    ghost var rows := ChromaMapRows(fftSize, sampleRate, midiOf);
    assert forall pc :: 0 <= pc < 12 ==> Rows(chromaMap)[pc] == rows[pc];
  }

  /** What bin `b` adds to the sum of a row: its magnitude when `row[b] > 0`, else nothing
      (an index past the row reads as `undefined`, which is not above 0). */
  function BinShare(frequencyData: seq<real>, row: seq<real>, magnitude: real -> real, b: int): real
    requires 0 <= b < |frequencyData|
  {
    if b < |row| && row[b] > 0.0 then magnitude(frequencyData[b]) else 0.0
  }

  /** The sum over the first `n` bins. */
  function SumMapped(frequencyData: seq<real>, row: seq<real>, magnitude: real -> real, n: int): real
    requires 0 <= n <= |frequencyData|
  {
    if n == 0 then 0.0
    else SumMapped(frequencyData, row, magnitude, n - 1) + BinShare(frequencyData, row, magnitude, n - 1)
  }

  /** computeChroma as a function of the spectrum (in dB) and the map rows. */
  function ChromaOf(frequencyData: seq<real>, rows: seq<seq<real>>, magnitude: real -> real): (chroma: seq<real>)
    requires |rows| == 12
    ensures |chroma| == 12
  {
    seq(12, pc requires 0 <= pc < 12 => SumMapped(frequencyData, rows[pc], magnitude, |frequencyData|))
  }

  /** What the code relies on of `Math.pow(10, dB / 20)`: it is never negative. */
  ghost predicate MagnitudeLike(magnitude: real -> real)
  {
    forall x: real :: 0.0 <= magnitude(x)
  }

  lemma {:induction false} SumMappedNonNegative(frequencyData: seq<real>, row: seq<real>, magnitude: real -> real, n: int)
    requires MagnitudeLike(magnitude) && 0 <= n <= |frequencyData|
    ensures 0.0 <= SumMapped(frequencyData, row, magnitude, n)
  {
    if n > 0 {
      SumMappedNonNegative(frequencyData, row, magnitude, n - 1);
      var db := frequencyData[n - 1];
      assert 0.0 <= magnitude(db);
    }
  }

  /** Every chroma value is a sum of magnitudes, so it is never negative. */
  lemma ChromaNonNegative(frequencyData: seq<real>, rows: seq<seq<real>>, magnitude: real -> real)
    requires MagnitudeLike(magnitude) && |rows| == 12
    ensures forall pc :: 0 <= pc < 12 ==> 0.0 <= ChromaOf(frequencyData, rows, magnitude)[pc]
  {
    forall pc | 0 <= pc < 12
      ensures 0.0 <= ChromaOf(frequencyData, rows, magnitude)[pc]
    {
      SumMappedNonNegative(frequencyData, rows[pc], magnitude, |frequencyData|);
    }
  }

  /** A row sum depends only on the bins the row marks: two rows that mark the same bins give
      the same sum, whatever their marked values and whatever lies in unmarked bins. */
  lemma {:induction false} SumMappedMarkedOnly(frequencyData: seq<real>, row: seq<real>, other: seq<real>, magnitude: real -> real, n: int)
    requires 0 <= n <= |frequencyData|
    requires forall b :: 0 <= b < n ==> (b < |row| && row[b] > 0.0 <==> b < |other| && other[b] > 0.0)
    ensures SumMapped(frequencyData, row, magnitude, n) == SumMapped(frequencyData, other, magnitude, n)
  {
    if n > 0 {
      SumMappedMarkedOnly(frequencyData, row, other, magnitude, n - 1);
    }
  }

  /** The magnitude of every classed bin among the first `n`, each counted once. */
  function ClassedEnergy(frequencyData: seq<real>, fftSize: nat, sampleRate: real, midiOf: real -> int, magnitude: real -> real, n: int): real
    requires 0 <= n <= |frequencyData|
  {
    if n == 0 then 0.0
    else
      ClassedEnergy(frequencyData, fftSize, sampleRate, midiOf, magnitude, n - 1)
      + (if BinClass(n - 1, fftSize, sampleRate, midiOf).Some? then magnitude(frequencyData[n - 1]) else 0.0)
  }

  /** Partial chroma over the first `n` bins, against the map. */
  function PartialChroma(frequencyData: seq<real>, fftSize: nat, sampleRate: real, midiOf: real -> int, magnitude: real -> real, n: int): (v: seq<real>)
    requires 0 <= n <= |frequencyData|
    ensures |v| == 12
  {
    var rows := ChromaMapRows(fftSize, sampleRate, midiOf);
    seq(12, pc requires 0 <= pc < 12 => SumMapped(frequencyData, rows[pc], magnitude, n))
  }

  lemma {:induction false} PartialChromaTotal(frequencyData: seq<real>, fftSize: nat, sampleRate: real, midiOf: real -> int, magnitude: real -> real, n: int)
    requires 0 <= n <= |frequencyData|
    ensures Total(PartialChroma(frequencyData, fftSize, sampleRate, midiOf, magnitude, n))
      == ClassedEnergy(frequencyData, fftSize, sampleRate, midiOf, magnitude, n)
  {
    var rows := ChromaMapRows(fftSize, sampleRate, midiOf);
    var current := PartialChroma(frequencyData, fftSize, sampleRate, midiOf, magnitude, n);
    if n == 0 {
      TotalOneHot(current, -1, 0.0);
    } else {
      var b := n - 1;
      PartialChromaTotal(frequencyData, fftSize, sampleRate, midiOf, magnitude, b);
      var previous := PartialChroma(frequencyData, fftSize, sampleRate, midiOf, magnitude, b);
      var shares := seq(12, pc requires 0 <= pc < 12 => BinShare(frequencyData, rows[pc], magnitude, b));
      TotalAdd(previous, shares, current);
      var binClass := BinClass(b, fftSize, sampleRate, midiOf);
      BinClassSpec(b, fftSize, sampleRate, midiOf);
      var hot := if binClass.Some? then binClass.value else -1;
      forall pc | 0 <= pc < 12 && pc != hot
        ensures shares[pc] == 0.0
      {
        if b < fftSize / 2 {
          assert rows[pc][b] == 0.0;
        }
      }
      TotalOneHot(shares, hot, magnitude(frequencyData[b]));
    }
  }

  /** Folding conserves energy: the twelve chroma values add up to the magnitude of every bin
      the map classes, each counted once, and bins without a class contribute nothing. */
  lemma ChromaConservesClassedEnergy(frequencyData: seq<real>, fftSize: nat, sampleRate: real, midiOf: real -> int, magnitude: real -> real)
    ensures Total(ChromaOf(frequencyData, ChromaMapRows(fftSize, sampleRate, midiOf), magnitude))
      == ClassedEnergy(frequencyData, fftSize, sampleRate, midiOf, magnitude, |frequencyData|)
  {
    PartialChromaTotal(frequencyData, fftSize, sampleRate, midiOf, magnitude, |frequencyData|);
    assert ChromaOf(frequencyData, ChromaMapRows(fftSize, sampleRate, midiOf), magnitude)
      == PartialChroma(frequencyData, fftSize, sampleRate, midiOf, magnitude, |frequencyData|);
  }

  /** computeChroma: for each pitch class, the sum of the linear magnitudes of the bins its
      row marks. */
  method ComputeChroma(frequencyData: seq<real>, chromaMap: array2<real>, magnitude: real -> real)
    returns (chroma: array<real>)
    requires chromaMap.Length0 == 12
    ensures chroma.Length == 12
    ensures chroma[..] == ChromaOf(frequencyData, Rows(chromaMap), magnitude)
  {
    chroma := new real[12](_ => 0.0);
    ghost var rows := Rows(chromaMap);
    var pc := 0;
    while pc < 12
      invariant 0 <= pc <= 12
      invariant forall q :: 0 <= q < pc ==> chroma[q] == SumMapped(frequencyData, rows[q], magnitude, |frequencyData|)
    {
      var sum := 0.0;
      var bin := 0;
      while bin < |frequencyData|
        invariant 0 <= bin <= |frequencyData|
        invariant sum == SumMapped(frequencyData, rows[pc], magnitude, bin)
      {
        assert bin < chromaMap.Length1 ==> rows[pc][bin] == chromaMap[pc, bin];
        if bin < chromaMap.Length1 && chromaMap[pc, bin] > 0.0 {
          var mag := magnitude(frequencyData[bin]);
          sum := sum + mag;
        }
        bin := bin + 1;
      }
      chroma[pc] := sum;
      pc := pc + 1;
    }
  }
}
