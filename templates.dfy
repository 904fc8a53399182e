/** The template library: 144 labelled, normalised chord shapes in root-major order
    (renderer/app.js, buildTemplates). */
module Templates {
  import opened Music
  import opened Vectors

  /** A library entry: the chord label and its 12-slot shape. */
  datatype Template = Template(chord: Label, vector: seq<real>)

  /** The pitch classes a quality lights up once transposed to `root`. */
  function Support(root: PitchClass, intervals: seq<nat>): set<int>
  {
    set iv | iv in intervals :: (root + iv) % 12
  }

  /** The template array after the interval loop: 1.0 at every transposed offset written so far. */
  function Indicator(root: PitchClass, intervals: seq<nat>): (v: seq<real>)
    ensures |v| == 12
  {
    if intervals == [] then seq(12, _ => 0.0)
    else
      var n := |intervals| - 1;
      Indicator(root, intervals[..n])[(root + intervals[n]) % 12 := 1.0]
  }

  lemma {:induction false} IndicatorAt(root: PitchClass, intervals: seq<nat>, i: int)
    requires 0 <= i < 12
    ensures Indicator(root, intervals)[i] == if i in Support(root, intervals) then 1.0 else 0.0
  {
    if intervals != [] {
      var n := |intervals| - 1;
      IndicatorAt(root, intervals[..n], i);
      assert intervals == intervals[..n] + [intervals[n]];
      forall x | x in Support(root, intervals)
        ensures x in Support(root, intervals[..n]) + {(root + intervals[n]) % 12}
      {
        var iv :| iv in intervals && x == (root + iv) % 12;
        if iv != intervals[n] {
          assert iv in intervals[..n];
        }
      }
      forall x | x in Support(root, intervals[..n]) + {(root + intervals[n]) % 12}
        ensures x in Support(root, intervals)
      {
        if x != (root + intervals[n]) % 12 {
          var iv :| iv in intervals[..n] && x == (root + iv) % 12;
          assert iv in intervals;
        } else {
          assert intervals[n] in intervals;
        }
      }
      assert Support(root, intervals) == Support(root, intervals[..n]) + {(root + intervals[n]) % 12};
    }
  }

  /** A quality with at least one offset gives a shape with a positive sum of squares. */
  lemma IndicatorNormPositive(root: PitchClass, intervals: seq<nat>)
    requires intervals != []
    ensures 0.0 < SumSq(Indicator(root, intervals))
  {
    var i := (root + intervals[0]) % 12;
    assert intervals[0] in intervals;
    assert i in Support(root, intervals);
    IndicatorAt(root, intervals, i);
    SumSqAtLeast(Indicator(root, intervals), i);
  }

  lemma ChordTypesNonEmpty()
    ensures forall q :: 0 <= q < 12 ==> ChordTypes[q].intervals != []
  {
  }

  /** The shape of one (root, quality) pair: the indicator divided by its Euclidean norm. */
  function Shape(root: PitchClass, quality: QualityIndex, sqrt: real -> real): (v: seq<real>)
    requires SqrtLike(sqrt)
    ensures |v| == 12
  {
    var intervals := ChordTypes[quality].intervals;
    ChordTypesNonEmpty();
    IndicatorNormPositive(root, intervals);
    var indicator := Indicator(root, intervals);
    var norm := sqrt(SumSq(indicator));
    seq(12, i requires 0 <= i < 12 => indicator[i] / norm)
  }

  /** The library in the order the nested loops push it: entry 12 * root + quality. */
  function Library(sqrt: real -> real): seq<Template>
    requires SqrtLike(sqrt)
  {
    seq(144, k requires 0 <= k < 144 => Entry(k, sqrt))
  }

  /** Entry k of the library: root k / 12, quality k % 12. */
  function Entry(k: int, sqrt: real -> real): Template
    requires 0 <= k < 144 && SqrtLike(sqrt)
  {
    Template(Chord(k / 12, k % 12), Shape(k / 12, k % 12, sqrt))
  }

  /** The templates every matcher call may rely on: twelve slots per vector. */
  ghost predicate WellFormed(templates: seq<Template>)
  {
    forall k :: 0 <= k < |templates| ==> |templates[k].vector| == 12
  }

  /** Each slot of a shape is one positive constant on the support and zero elsewhere. */
  lemma ShapeAt(root: PitchClass, quality: QualityIndex, sqrt: real -> real, i: int)
    requires SqrtLike(sqrt) && 0 <= i < 12
    ensures var norm := sqrt(SumSq(Indicator(root, ChordTypes[quality].intervals)));
      && 0.0 < norm
      && Shape(root, quality, sqrt)[i] == if i in Support(root, ChordTypes[quality].intervals) then 1.0 / norm else 0.0
  {
    var intervals := ChordTypes[quality].intervals;
    ChordTypesNonEmpty();
    IndicatorNormPositive(root, intervals);
    IndicatorAt(root, intervals, i);
  }

  lemma LibraryAt(sqrt: real -> real, root: PitchClass, quality: QualityIndex)
    requires SqrtLike(sqrt)
    ensures |Library(sqrt)| == 144
    ensures Library(sqrt)[12 * root + quality] == Template(Chord(root, quality), Shape(root, quality, sqrt))
  {
    var k := 12 * root + quality;
    assert k / 12 == root && k % 12 == quality;
  }

  /** A vector that is one positive constant on a set of slots and zero elsewhere. */
  ghost predicate UniformOn(v: seq<real>, support: set<int>)
  {
    && |v| == 12
    && (forall i :: 0 <= i < 12 ==> (v[i] != 0.0 <==> i in support))
    && (forall i :: 0 <= i < 12 ==> 0.0 <= v[i])
    && (forall i, j :: 0 <= i < 12 && 0 <= j < 12 && v[i] != 0.0 && v[j] != 0.0 ==> v[i] == v[j])
  }

  lemma ConstantOnSupport(v: seq<real>, support: set<int>, c: real)
    requires |v| == 12 && 0.0 < c
    requires forall i :: 0 <= i < 12 ==> v[i] == if i in support then c else 0.0
    ensures UniformOn(v, support)
  {
  }

  lemma ShapeUniform(root: PitchClass, quality: QualityIndex, sqrt: real -> real)
    requires SqrtLike(sqrt)
    ensures UniformOn(Shape(root, quality, sqrt), Support(root, ChordTypes[quality].intervals))
  {
    var intervals := ChordTypes[quality].intervals;
    var norm := sqrt(SumSq(Indicator(root, intervals)));
    ChordTypesNonEmpty();
    IndicatorNormPositive(root, intervals);
    var v := Shape(root, quality, sqrt);
    var support := Support(root, intervals);
    forall i | 0 <= i < 12
      ensures v[i] == if i in support then 1.0 / norm else 0.0
    {
      ShapeAt(root, quality, sqrt, i);
    }
    ConstantOnSupport(v, support, 1.0 / norm);
  }

  /** The shape of entry 12 * root + quality: its label and name, nonzero exactly on the
      transposed offsets, and one common positive value there. */
  lemma LibraryEntry(sqrt: real -> real, root: PitchClass, quality: QualityIndex)
    requires SqrtLike(sqrt)
    ensures |Library(sqrt)| == 144
    ensures Library(sqrt)[12 * root + quality].chord == Chord(root, quality)
    ensures Name(Library(sqrt)[12 * root + quality].chord) == NoteNames[root] + ChordTypes[quality].suffix
    ensures UniformOn(Library(sqrt)[12 * root + quality].vector, Support(root, ChordTypes[quality].intervals))
  {
    LibraryAt(sqrt, root, quality);
    ShapeUniform(root, quality, sqrt);
  }

  /** Every library entry is a chord label with a 12-slot, non-negative vector. */
  lemma LibraryWellFormed(sqrt: real -> real)
    requires SqrtLike(sqrt)
    ensures |Library(sqrt)| == 144
    ensures WellFormed(Library(sqrt))
    ensures forall k :: 0 <= k < 144 ==> Library(sqrt)[k].chord.Chord?
    ensures forall k, i :: 0 <= k < 144 && 0 <= i < 12 ==> 0.0 <= Library(sqrt)[k].vector[i]
  {
    forall k, i | 0 <= k < 144 && 0 <= i < 12
      ensures 0.0 <= Library(sqrt)[k].vector[i]
    {
      LibraryEntry(sqrt, k / 12, k % 12);
      assert 12 * (k / 12) + k % 12 == k;
    }
  }

  /** The body of buildTemplates' inner loop: a fresh 12-slot array set to 1.0 at the transposed
      offsets, then divided slot by slot by its Euclidean norm. */
  method BuildShape(root: PitchClass, quality: QualityIndex, sqrt: real -> real) returns (template: array<real>)
    requires SqrtLike(sqrt)
    ensures template[..] == Shape(root, quality, sqrt)
  {
    var intervals := ChordTypes[quality].intervals;
    template := new real[12](_ => 0.0);
    var j := 0;
    while j < |intervals|
      invariant 0 <= j <= |intervals|
      invariant template.Length == 12
      invariant template[..] == Indicator(root, intervals[..j])
    {
      assert intervals[..j + 1][..j] == intervals[..j];
      template[(root + intervals[j]) % 12] := 1.0;
      j := j + 1;
    }
    assert intervals[..j] == intervals;
    ChordTypesNonEmpty();
    IndicatorNormPositive(root, intervals);
    var norm := sqrt(SumSq(template[..]));
    ghost var indicator := template[..];
    DivideAll(template, norm);
    ghost var shape := Shape(root, quality, sqrt);
    assert forall m :: 0 <= m < 12 ==> shape[m] == indicator[m] / norm;
    assert template[..] == shape;
  }

  /** The normalising loop: divide every slot by `norm`. */
  method DivideAll(template: array<real>, norm: real)
    requires norm != 0.0
    modifies template
    ensures forall m :: 0 <= m < template.Length ==> template[m] == old(template[m]) / norm
  {
    var i := 0;
    while i < template.Length
      invariant 0 <= i <= template.Length
      invariant forall m :: 0 <= m < i ==> template[m] == old(template[m]) / norm
      invariant forall m :: i <= m < template.Length ==> template[m] == old(template[m])
    {
      template[i] := template[i] / norm;
      i := i + 1;
    }
  }

  /** buildTemplates: for each root, for each quality in table order, build the shape and
      append it under its label. */
  method BuildTemplates(sqrt: real -> real) returns (templates: seq<Template>)
    requires SqrtLike(sqrt)
    ensures templates == Library(sqrt)
  {
    templates := [];
    var root := 0;
    while root < 12
      invariant 0 <= root <= 12
      invariant templates == Library(sqrt)[..12 * root]
    {
      var quality := 0;
      while quality < 12
        invariant 0 <= quality <= 12
        invariant templates == Library(sqrt)[..12 * root + quality]
      {
        var template := BuildShape(root, quality, sqrt);
        LibraryAt(sqrt, root, quality);
        ghost var k := 12 * root + quality;
        assert Library(sqrt)[..k + 1] == Library(sqrt)[..k] + [Library(sqrt)[k]];
        templates := templates + [Template(Chord(root, quality), template[..])];
        quality := quality + 1;
      }
      root := root + 1;
    }
  }
}
