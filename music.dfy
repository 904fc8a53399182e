/** Note names, chord qualities and chord labels of the recogniser
    (renderer/app.js, the NOTE_NAMES and CHORD_TYPES tables and template naming). */
module Music {

  datatype Option<T> = None | Some(value: T)

  /** A pitch class: 0 is C, 11 is B. */
  type PitchClass = i: int | 0 <= i < 12

  /** An index into ChordTypes. */
  type QualityIndex = q: int | 0 <= q < 12

  /** The chromatic note names, indexed by pitch class. */
  const NoteNames: seq<string> :=
    ["C", "C#", "D", "D#", "E", "F", "F#", "G", "G#", "A", "A#", "B"]

  /** A chord quality: the suffix appended to the root name and the semitone offsets from the root. */
  datatype ChordType = ChordType(suffix: string, intervals: seq<nat>)

  const ChordTypes: seq<ChordType> := [
    ChordType("", [0, 4, 7]),
    ChordType("m", [0, 3, 7]),
    ChordType("7", [0, 4, 7, 10]),
    ChordType("maj7", [0, 4, 7, 11]),
    ChordType("m7", [0, 3, 7, 10]),
    ChordType("dim", [0, 3, 6]),
    ChordType("aug", [0, 4, 8]),
    ChordType("sus2", [0, 2, 7]),
    ChordType("sus4", [0, 5, 7]),
    ChordType("dim7", [0, 3, 6, 9]),
    ChordType("m(maj7)", [0, 3, 7, 11]),
    ChordType("aug7", [0, 4, 8, 10])
  ]

  /** The suffix column of ChordTypes. */
  function Suffixes(): (s: seq<string>)
    ensures |s| == 12
  {
    seq(12, q requires 0 <= q < 12 => ChordTypes[q].suffix)
  }

  /** A chord label: a (root, quality) pair, or the "no chord" sentinel. */
  datatype Label = Chord(root: PitchClass, quality: QualityIndex) | NoChord

  const NoChordName: string := "N/C"

  /** The string the application shows for a label. */
  function Name(l: Label): string
  {
    match l
    case NoChord => NoChordName
    case Chord(root, quality) => NoteNames[root] + ChordTypes[quality].suffix
  }

  /** The first index of `x` in `xs`, or -1. */
  function Find(xs: seq<string>, x: string): (r: int)
    ensures -1 <= r < |xs|
    ensures r == -1 <==> x !in xs
    ensures 0 <= r ==> xs[r] == x && forall j :: 0 <= j < r ==> xs[j] != x
  {
    if xs == [] then -1
    else if xs[0] == x then 0
    else
      var r := Find(xs[1..], x);
      if r == -1 then -1 else r + 1
  }

  /** Reads a label back from its name: the root is one letter, or a letter and '#'. */
  function ParseName(s: string): Option<Label>
  {
    if s == NoChordName then Some(NoChord)
    else
      var rootLength := if |s| >= 2 && s[1] == '#' then 2 else 1;
      if |s| < rootLength then None
      else
        var root := Find(NoteNames, s[..rootLength]);
        var quality := Find(Suffixes(), s[rootLength..]);
        if 0 <= root && 0 <= quality then Some(Chord(root, quality)) else None
  }

  lemma NoteNamesShape()
    ensures forall r :: 0 <= r < 12 ==> 1 <= |NoteNames[r]| <= 2 && NoteNames[r][0] != 'N'
    ensures forall r :: 0 <= r < 12 ==> (|NoteNames[r]| == 2 ==> NoteNames[r][1] == '#')
    ensures forall i, j :: 0 <= i < j < 12 ==> NoteNames[i] != NoteNames[j]
  {
  }

  lemma SuffixesShape()
    ensures forall q :: 0 <= q < 12 ==> Suffixes()[q] == [] || Suffixes()[q][0] != '#'
    ensures forall i, j :: 0 <= i < j < 12 ==> Suffixes()[i] != Suffixes()[j]
  {
  }

  /** Every label is recovered from its name, so the name is a faithful key for the label. */
  lemma NameRoundTrip(l: Label)
    ensures ParseName(Name(l)) == Some(l)
  {
    match l
    case NoChord =>
    case Chord(r, q) =>
      var note, suffix := NoteNames[r], ChordTypes[q].suffix;
      var s := note + suffix;
      NoteNamesShape();
      SuffixesShape();
      assert suffix == Suffixes()[q];
      assert s[0] == note[0];
      assert s != NoChordName;
      var rootLength := if |s| >= 2 && s[1] == '#' then 2 else 1;
      assert rootLength == |note| by {
        if |note| == 1 && |s| >= 2 {
          assert s[1] == suffix[0];
        }
      }
      assert s[..rootLength] == note;
      assert s[rootLength..] == suffix;
      var root := Find(NoteNames, note);
      assert root == r;
      var quality := Find(Suffixes(), suffix);
      assert quality == q;
  }

  /** Distinct labels have distinct names. */
  lemma NameInjective(a: Label, b: Label)
    requires Name(a) == Name(b)
    ensures a == b
  {
    NameRoundTrip(a);
    NameRoundTrip(b);
  }
}
