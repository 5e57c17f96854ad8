/** The twelve pitch classes, in semitone order from C (sharps, no flats), and the
    four interval offsets the graph construction takes on them. */
module PitchRing {

  const Notes: seq<string> := ["C", "C#", "D", "D#", "E", "F", "F#", "G", "G#", "A", "A#", "B"]

  /** The position of the first occurrence of `x` in `s` (the source's `list.index`). */
  function IndexOf(s: seq<string>, x: string): (i: nat)
    requires x in s
    ensures i < |s| && s[i] == x
    ensures forall k :: 0 <= k < i ==> s[k] != x
  {
    if s[0] == x then 0 else 1 + IndexOf(s[1..], x)
  }

  /** No note name occurs twice, so a name's index is its position. */
  lemma NotesDistinct()
    ensures |Notes| == 12
    ensures forall i, j :: 0 <= i < j < |Notes| ==> Notes[i] != Notes[j]
  {
  }

  lemma IndexOfNote(k: int)
    requires 0 <= k < 12
    ensures IndexOf(Notes, Notes[k]) == k
  {
    NotesDistinct();
  }

  /** The note index of a root that is one of the twelve names. */
  function Index(root: string): (i: nat)
    requires root in Notes
    ensures i < 12 && Notes[i] == root
  {
    IndexOf(Notes, root)
  }

  /** Python's `% 12` on the offset indices used here (between -12 and 23), written as a
      case split. */
  function Wrap(x: int): (j: int)
    requires -12 <= x < 24
    ensures 0 <= j < 12 && j == x % 12
  {
    if x < 0 then x + 12 else if x < 12 then x else x - 12
  }

  /** The root of the relative minor of a major chord: three semitones down. */
  function RelativeMinor(majorRoot: string): (r: string)
    requires majorRoot in Notes
    ensures r in Notes && Index(r) == if Index(majorRoot) >= 3 then Index(majorRoot) - 3 else Index(majorRoot) + 9
  {
    IndexOfNote(Wrap(Index(majorRoot) - 3));
    Notes[Wrap(Index(majorRoot) - 3)]
  }

  /** The root of the major chord a minor chord's leading-tone exchange reaches:
      three semitones up. */
  function LeadingToneMajor(minorRoot: string): (r: string)
    requires minorRoot in Notes
    ensures r in Notes && Index(r) == if Index(minorRoot) < 9 then Index(minorRoot) + 3 else Index(minorRoot) - 9
  {
    IndexOfNote(Wrap(Index(minorRoot) + 3));
    Notes[Wrap(Index(minorRoot) + 3)]
  }

  /** A fifth up: seven semitones. */
  function Fifth(root: string): (r: string)
    requires root in Notes
    ensures r in Notes && Index(r) == if Index(root) < 5 then Index(root) + 7 else Index(root) - 5
  {
    IndexOfNote(Wrap(Index(root) + 7));
    Notes[Wrap(Index(root) + 7)]
  }

  /** A fourth up: five semitones. */
  function Fourth(root: string): (r: string)
    requires root in Notes
    ensures r in Notes && Index(r) == if Index(root) < 7 then Index(root) + 5 else Index(root) - 7
  {
    IndexOfNote(Wrap(Index(root) + 5));
    Notes[Wrap(Index(root) + 5)]
  }

  /** Two roots of the ring are equal exactly when their indices are. */
  lemma IndexInjective(a: string, b: string)
    requires a in Notes && b in Notes
    ensures Index(a) == Index(b) <==> a == b
  {
    assert Notes[Index(a)] == a && Notes[Index(b)] == b;
  }

  /** A fifth up and a fourth up undo each other. */
  lemma FifthFourthInverse(root: string)
    requires root in Notes
    ensures Fourth(Fifth(root)) == root
    ensures Fifth(Fourth(root)) == root
  {
    IndexInjective(Fourth(Fifth(root)), root);
    IndexInjective(Fifth(Fourth(root)), root);
  }

  /** The relative-minor and leading-tone-major offsets undo each other. */
  lemma RelativeLeadingInverse(root: string)
    requires root in Notes
    ensures LeadingToneMajor(RelativeMinor(root)) == root
    ensures RelativeMinor(LeadingToneMajor(root)) == root
  {
    IndexInjective(LeadingToneMajor(RelativeMinor(root)), root);
    IndexInjective(RelativeMinor(LeadingToneMajor(root)), root);
  }

  /** None of the four offsets maps a root to itself, and the fifth and the fourth of a
      root differ. */
  lemma OffsetsMove(root: string)
    requires root in Notes
    ensures RelativeMinor(root) != root && LeadingToneMajor(root) != root
    ensures Fifth(root) != root && Fourth(root) != root
    ensures Fifth(root) != Fourth(root)
  {
    IndexInjective(RelativeMinor(root), root);
    IndexInjective(LeadingToneMajor(root), root);
    IndexInjective(Fifth(root), root);
    IndexInjective(Fourth(root), root);
    IndexInjective(Fifth(root), Fourth(root));
  }
}
