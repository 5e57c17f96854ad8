/** Chords as values (root name, quality) and their canonical text form. */
module Chords {

  /** A chord quality. The four named ones are the only qualities the parser and the
      graph ever build; `Other` stands for any other quality string a chord may be
      constructed with directly, and is encoded verbatim. The type does not stop
      `Other` from carrying one of the four names (`Other("major")`); such a value is
      not the named quality, and no operation of the model builds one. */
  datatype Quality = Major | Minor | Dim | Aug | Other(name: string)

  /** A triad: the root's note name and its quality. Equality is structural, as it is
      for the source's chord objects (which compare and hash on the same pair). */
  datatype Chord = Chord(root: string, quality: Quality)

  /** The suffix that marks a diminished chord: the degree sign U+00B0. */
  const DimMark: char := '\U{00B0}'

  /** One of the four named qualities: the qualities the parser returns and the
      contracts about the codec speak of. */
  predicate KnownQuality(q: Quality) {
    q == Major || q == Minor || q == Dim || q == Aug
  }

  /** The characters the source's whitespace stripping removes (Unicode white space). */
  predicate IsSpace(ch: char) {
    ch == ' ' || ('\t' <= ch <= '\r') || ('\U{1C}' <= ch <= '\U{1F}')
    || ch == '\U{85}' || ch == '\U{A0}' || ch == '\U{1680}'
    || ('\U{2000}' <= ch <= '\U{200A}') || ch == '\U{2028}' || ch == '\U{2029}'
    || ch == '\U{202F}' || ch == '\U{205F}' || ch == '\U{3000}'
  }

  /** No white space at either end. */
  predicate Trimmed(t: string) {
    t == [] || (!IsSpace(t[0]) && !IsSpace(t[|t| - 1]))
  }

  /** Drops leading white space: the result is a suffix of `s`, everything dropped is
      white space, and the result does not start with white space. */
  function TrimLeft(s: string): (t: string)
    ensures |t| <= |s| && t == s[|s| - |t|..]
    ensures forall i :: 0 <= i < |s| - |t| ==> IsSpace(s[i])
    ensures t == [] || !IsSpace(t[0])
  {
    if s != [] && IsSpace(s[0]) then
      var r := TrimLeft(s[1..]);
      assert r == s[|s| - |r|..] by {
        assert s[1..][|s| - 1 - |r|..] == s[|s| - |r|..];
      }
      assert forall i :: 1 <= i < |s| - |r| ==> s[i] == s[1..][i - 1];
      r
    else s
  }

  /** Drops trailing white space: the result is a prefix of `s`, everything dropped is
      white space, and the result does not end with white space. */
  function TrimRight(s: string): (t: string)
    ensures |t| <= |s| && t == s[..|t|]
    ensures forall i :: |t| <= i < |s| ==> IsSpace(s[i])
    ensures t == [] || !IsSpace(t[|t| - 1])
  {
    if s != [] && IsSpace(s[|s| - 1]) then TrimRight(s[..|s| - 1]) else s
  }

  /** `t` is the slice of `s` starting at `i`, and everything of `s` before and after
      that slice is white space. */
  predicate StrippedAt(s: string, t: string, i: int) {
    && 0 <= i <= |s| - |t|
    && t == s[i..i + |t|]
    && (forall k :: 0 <= k < i ==> IsSpace(s[k]))
    && (forall k :: i + |t| <= k < |s| ==> IsSpace(s[k]))
  }

  /** The source's `str.strip()`: removes white space at both ends. */
  function Strip(s: string): (t: string)
    ensures Trimmed(t)
    ensures |t| <= |s|
  {
    TrimRight(TrimLeft(s))
  }

  /** What `strip()` means: its result is a contiguous part of the input with only
      white space around it, and has no white space at either end itself. */
  lemma StripMeaning(s: string)
    ensures Trimmed(Strip(s))
    ensures exists i :: StrippedAt(s, Strip(s), i)
  {
    var l := TrimLeft(s);
    var t := TrimRight(l);
    var i := |s| - |l|;
    assert t == s[i..i + |t|] by {
      assert l == s[i..] && t == l[..|t|];
    }
    forall k | i + |t| <= k < |s| ensures IsSpace(s[k]) {
      assert s[k] == l[k - i];
    }
    assert StrippedAt(s, t, i);
  }

  /** The suffix each quality is written with. */
  function Suffix(q: Quality): string {
    match q
    case Major => ""
    case Minor => "m"
    case Dim => [DimMark]
    case Aug => "+"
    case Other(name) => name
  }

  /** Text encoding: the root name followed by the quality's suffix. */
  function Encode(c: Chord): string {
    c.root + Suffix(c.quality)
  }

  /** Whether `t` ends with the character `ch`. */
  predicate EndsWith(t: string, ch: char) {
    |t| > 0 && t[|t| - 1] == ch
  }

  /** Text decoding: strip white space, then read a trailing degree sign, `+` or `m` as
      diminished, augmented or minor and the rest as the root; any other ending is major
      with the whole stripped text as root. The root is not validated. */
  function Parse(text: string): (c: Chord)
    ensures KnownQuality(c.quality)
  {
    ParseStripped(Strip(text))
  }

  /** Decoding of text that has already been stripped. */
  function ParseStripped(t: string): (c: Chord)
    ensures KnownQuality(c.quality)
  {
    if EndsWith(t, DimMark) then Chord(t[..|t| - 1], Dim)
    else if EndsWith(t, '+') then Chord(t[..|t| - 1], Aug)
    else if EndsWith(t, 'm') then Chord(t[..|t| - 1], Minor)
    else Chord(t, Major)
  }

  /** A root that the codec can carry unchanged: no white space in it, and it does not
      itself end with one of the quality markers. */
  predicate PlainRoot(root: string) {
    (forall i :: 0 <= i < |root| ==> !IsSpace(root[i]))
    && !EndsWith(root, DimMark) && !EndsWith(root, '+') && !EndsWith(root, 'm')
  }

  lemma StripTrimmed(t: string)
    requires Trimmed(t)
    ensures Strip(t) == t
  {
  }

  /** Decoding inverts encoding for every chord of a known quality over a plain root. */
  lemma ParseEncode(c: Chord)
    requires PlainRoot(c.root) && KnownQuality(c.quality)
    ensures Parse(Encode(c)) == c
  {
    EncodeTrimmed(c);
    StripTrimmed(Encode(c));
    ParseStrippedEncode(c);
  }

  /** The encoding of a chord over a plain root has no surrounding white space. */
  lemma EncodeTrimmed(c: Chord)
    requires PlainRoot(c.root) && KnownQuality(c.quality)
    ensures Trimmed(Encode(c))
  {
    var s := Encode(c);
    if s != [] {
      if c.root != [] {
        assert s[0] == c.root[0];
      } else {
        assert s[0] == Suffix(c.quality)[0];
      }
      assert s[|s| - 1] == (if Suffix(c.quality) == [] then c.root[|c.root| - 1] else Suffix(c.quality)[0]);
    }
  }

  lemma ParseStrippedEncode(c: Chord)
    requires PlainRoot(c.root) && KnownQuality(c.quality)
    ensures ParseStripped(Encode(c)) == c
  {
    var s := Encode(c);
    if c.quality != Major {
      assert s[..|s| - 1] == c.root;
    }
  }

  /** Encoding inverts decoding up to the surrounding white space: every text is the
      encoding of what it parses to, once stripped. */
  lemma EncodeParse(text: string)
    ensures Encode(Parse(text)) == Strip(text)
  {
    EncodeParseStripped(Strip(text));
  }

  /** Encoding inverts decoding on text that has already been stripped. */
  lemma EncodeParseStripped(t: string)
    ensures Encode(ParseStripped(t)) == t
  {
    if EndsWith(t, DimMark) || EndsWith(t, '+') || EndsWith(t, 'm') {
      assert t == t[..|t| - 1] + [t[|t| - 1]];
    }
  }

  /** The encoding is injective on chords of a known quality over plain roots. */
  lemma EncodeInjective(a: Chord, b: Chord)
    requires PlainRoot(a.root) && KnownQuality(a.quality)
    requires PlainRoot(b.root) && KnownQuality(b.quality)
    ensures Encode(a) == Encode(b) <==> a == b
  {
    ParseEncode(a);
    ParseEncode(b);
  }

  lemma {:induction false} TrimLeftSpaces(w: string, s: string)
    requires forall i :: 0 <= i < |w| ==> IsSpace(w[i])
    ensures TrimLeft(w + s) == TrimLeft(s)
  {
    if w != [] {
      assert IsSpace((w + s)[0]) by { assert (w + s)[0] == w[0]; }
      assert (w + s)[1..] == w[1..] + s;
      assert TrimLeft(w + s) == TrimLeft(w[1..] + s);
      TrimLeftSpaces(w[1..], s);
    } else {
      assert w + s == s;
    }
  }

  lemma {:induction false} TrimRightSpaces(s: string, w: string)
    requires forall i :: 0 <= i < |w| ==> IsSpace(w[i])
    ensures TrimRight(s + w) == TrimRight(s)
  {
    if w != [] {
      assert IsSpace((s + w)[|s + w| - 1]) by { assert (s + w)[|s + w| - 1] == w[|w| - 1]; }
      assert (s + w)[..|s + w| - 1] == s + w[..|w| - 1];
      assert TrimRight(s + w) == TrimRight(s + w[..|w| - 1]);
      TrimRightSpaces(s, w[..|w| - 1]);
    } else {
      assert s + w == s;
    }
  }

  lemma {:induction false} TrimLeftAppend(s: string, w: string)
    requires forall i :: 0 <= i < |w| ==> IsSpace(w[i])
    ensures TrimLeft(s + w) == (if TrimLeft(s) == [] then [] else TrimLeft(s) + w)
  {
    if s == [] {
      assert s + w == w;
      TrimLeftSpaces(w, []);
      assert w + [] == w;
    } else if IsSpace(s[0]) {
      assert (s + w)[1..] == s[1..] + w;
      TrimLeftAppend(s[1..], w);
    }
  }

  /** Stripping ignores white space around the text. */
  lemma {:induction false} StripSurroundingSpace(before: string, text: string, after: string)
    requires forall i :: 0 <= i < |before| ==> IsSpace(before[i])
    requires forall i :: 0 <= i < |after| ==> IsSpace(after[i])
    ensures Strip(before + text + after) == Strip(text)
  {
    assert before + text + after == before + (text + after);
    TrimLeftSpaces(before, text + after);
    TrimLeftAppend(text, after);
    var l := TrimLeft(text);
    if l != [] {
      TrimRightSpaces(l, after);
    }
  }

  /** Parsing ignores white space around the chord text. */
  lemma ParseIgnoresSurroundingSpace(before: string, text: string, after: string)
    requires forall i :: 0 <= i < |before| ==> IsSpace(before[i])
    requires forall i :: 0 <= i < |after| ==> IsSpace(after[i])
    ensures Parse(before + text + after) == Parse(text)
  {
    StripSurroundingSpace(before, text, after);
  }
}
