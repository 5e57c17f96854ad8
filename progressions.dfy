/** What the generator and the classifier compute, as values: the genre-weighted score of
    a step to a neighbour, the random draw among neighbours, and the per-genre score of a
    progression. */
module Progressions {
  import opened Chords
  import opened GenreWeights
  import opened EdgeMaps
  import opened Tonnetz

  // ---------------------------------------------------------------------------------
  // Generator

  /** The genre affinity of a step from `a` to `b`: the table's weight for the pair of
      qualities, 0.5 when the table does not list it. */
  function Affinity(t: Table, a: Chord, b: Chord): real {
    Lookup(t, (a.quality, b.quality), 0.5)
  }

  /** The score of stepping from `a` to its neighbour `b`: the edge weight times the
      square of the genre affinity. */
  function NeighborScore(E: EdgeMap, t: Table, a: Chord, b: Chord): real
    requires (a, b) in E
  {
    E[(a, b)].weight * (Affinity(t, a, b) * Affinity(t, a, b))
  }

  /** Every step along an edge of the graph scores in (0, 0.81] under every genre table. */
  lemma ScorePositive(t: Table, a: Chord, b: Chord)
    requires IsGenreTable(t) && Adjacent(TonnetzEdges(), a, b)
    ensures 0.0 < NeighborScore(TonnetzEdges(), t, a, b)
    ensures NeighborScore(TonnetzEdges(), t, a, b) <= 0.81
  {
    TonnetzShape();
    LookupInRange(t, (a.quality, b.quality), 0.5);
    EdgeScoreBounds(TonnetzEdges(), t, a, b);
  }

  lemma EdgeScoreBounds(E: EdgeMap, t: Table, a: Chord, b: Chord)
    requires (a, b) in E && 0.0 < E[(a, b)].weight <= 1.0
    requires 0.1 <= Affinity(t, a, b) <= 0.9
    ensures 0.0 < NeighborScore(E, t, a, b)
    ensures NeighborScore(E, t, a, b) <= 0.81
  {
    ProductBounds(E[(a, b)].weight, Affinity(t, a, b));
    assert NeighborScore(E, t, a, b) == E[(a, b)].weight * (Affinity(t, a, b) * Affinity(t, a, b));
  }

  lemma ProductBounds(w: real, g: real)
    requires 0.0 < w <= 1.0 && 0.1 <= g <= 0.9
    ensures 0.0 < w * (g * g) <= 0.81
  {
    var gg := g * g;
    MulMono(g, 0.9, g);
    MulMono(g, 0.9, 0.9);
    assert gg <= 0.81;
    MulMono(0.1, g, g);
    MulMono(0.1, g, 0.1);
    assert gg >= 0.01;
    MulMono(w, 1.0, gg);
    MulPos(w, gg);
  }

  lemma MulMono(x: real, y: real, z: real)
    requires x <= y && 0.0 <= z
    ensures x * z <= y * z
  {
  }

  lemma MulPos(x: real, y: real)
    requires 0.0 < x && 0.0 < y
    ensures 0.0 < x * y
  {
  }

  function Sum(ws: seq<real>): real {
    if ws == [] then 0.0 else Sum(ws[..|ws| - 1]) + ws[|ws| - 1]
  }

  /** A nonempty list of positive weights has a positive total. */
  lemma {:induction false} SumPositive(ws: seq<real>)
    requires ws != [] && forall k :: 0 <= k < |ws| ==> ws[k] > 0.0
    ensures Sum(ws) > 0.0
  {
    var n := |ws| - 1;
    if n > 0 {
      assert forall k :: 0 <= k < n ==> ws[..n][k] == ws[k];
      SumPositive(ws[..n]);
    }
  }

  /** The random draw: for the step number, the neighbour list and its scores, the index
      of the neighbour drawn. */
  type Draw = (nat, seq<Chord>, seq<real>) -> nat

  /** A weighted draw that, whenever the scores have a positive total, draws an index of
      the list whose score is positive (a zero-probability index is never drawn). */
  ghost predicate FairDraw(draw: Draw) {
    forall step, ns, ws :: |ws| == |ns| && Sum(ws) > 0.0 ==>
      draw(step, ns, ws) < |ns| && ws[draw(step, ns, ws)] > 0.0
  }

  /** What a fair draw returns for one list of scores with a positive total. */
  lemma DrawInRange(draw: Draw, step: nat, ns: seq<Chord>, ws: seq<real>)
    requires FairDraw(draw) && |ws| == |ns| && Sum(ws) > 0.0
    ensures draw(step, ns, ws) < |ns| && ws[draw(step, ns, ws)] > 0.0
  {
  }

  /** The chords a progression names, as the parser reads them. */
  function ChordsOf(p: seq<string>): seq<Chord> {
    seq(|p|, k requires 0 <= k < |p| => Parse(p[k]))
  }

  /** The text names of a sequence of chords. */
  function Spelled(walk: seq<Chord>): seq<string> {
    seq(|walk|, k requires 0 <= k < |walk| => Encode(walk[k]))
  }

  /** `c` has a neighbour in `E`. */
  ghost predicate HasNeighbor(E: EdgeMap, c: Chord) {
    exists b :: (c, b) in E
  }

  /** What the generator relies on of the graph: positive edge weights, edges that lead
      to vertices, and a neighbour for every vertex. */
  ghost predicate Walkable(E: EdgeMap) {
    && WeightsPositive(E)
    && (forall a, b :: (a, b) in E ==> b in Vertices())
    && (forall c {:trigger HasNeighbor(E, c)} :: c in Vertices() ==> HasNeighbor(E, c))
  }

  /** The Tonnetz is walkable. */
  lemma TonnetzWalkable()
    ensures Walkable(TonnetzEdges())
  {
    TonnetzShape();
    forall a, b | (a, b) in TonnetzEdges() ensures b in Vertices() {
      EdgeEndsAreVertices(a, b);
    }
    forall c | c in Vertices() ensures HasNeighbor(TonnetzEdges(), c) {
      FifthAndFourthNeighbours(c);
      assert (c, FifthOf(c)) in TonnetzEdges();
    }
  }

  /** A step of the generator over edge map `E`: to a neighbour, with a positive score
      under table `t`. */
  predicate ScoredStep(E: EdgeMap, t: Table, a: Chord, b: Chord) {
    Adjacent(E, a, b) && 0.0 < NeighborScore(E, t, a, b)
  }

  /** A walk through the vertices of the Tonnetz each of whose steps is a scored step
      over `E` under table `t`. */
  predicate ScoredWalk(E: EdgeMap, t: Table, walk: seq<Chord>) {
    && (forall k :: 0 <= k < |walk| ==> walk[k] in Vertices())
    && (forall k :: 0 <= k < |walk| - 1 ==> ScoredStep(E, t, walk[k], walk[k + 1]))
  }

  /** A walk extends by a scored step from its last chord to a vertex. */
  lemma ScoredWalkExtend(E: EdgeMap, t: Table, walk: seq<Chord>, c: Chord)
    requires ScoredWalk(E, t, walk) && walk != []
    requires ScoredStep(E, t, walk[|walk| - 1], c) && c in Vertices()
    ensures ScoredWalk(E, t, walk + [c])
  {
    var w := walk + [c];
    var n := |walk|;
    forall k | 0 <= k < |w| ensures w[k] in Vertices() {
      if k < n {
        assert w[k] == walk[k];
      }
    }
    forall k | 0 <= k < |w| - 1 ensures ScoredStep(E, t, w[k], w[k + 1]) {
      if k < n - 1 {
        assert w[k] == walk[k] && w[k + 1] == walk[k + 1];
      } else {
        assert w[k] == walk[n - 1] && w[k + 1] == c;
      }
    }
  }

  lemma SpelledOne(c: Chord)
    ensures Spelled([c]) == [Encode(c)]
  {
  }

  lemma SpelledExtend(walk: seq<Chord>, c: Chord)
    ensures Spelled(walk + [c]) == Spelled(walk) + [Encode(c)]
  {
  }

  /** The names of a walk through the vertices parse back to the walk. */
  lemma SpelledParses(walk: seq<Chord>)
    requires forall k :: 0 <= k < |walk| ==> walk[k] in Vertices()
    ensures ChordsOf(Spelled(walk)) == walk
  {
    var names := Spelled(walk);
    assert |ChordsOf(names)| == |walk|;
    forall k | 0 <= k < |walk| ensures ChordsOf(names)[k] == walk[k] {
      ParsesAt(walk, names, k);
    }
  }

  lemma ParsesAt(walk: seq<Chord>, names: seq<string>, k: int)
    requires 0 <= k < |walk| && names == Spelled(walk) && walk[k] in Vertices()
    ensures ChordsOf(names)[k] == walk[k]
  {
    VertexRoundTrip(walk[k]);
  }

  // ---------------------------------------------------------------------------------
  // Classifier

  /** The quality of each chord of a progression, as the parser reads it. */
  function Qualities(p: seq<string>): seq<Quality> {
    seq(|p|, i requires 0 <= i < |p| => Parse(p[i]).quality)
  }

  /** The sum, over the adjacent pairs of `qs`, of the table's weight for the pair (0.1
      when the table does not list it). */
  function TransitionSum(t: Table, qs: seq<Quality>): real {
    if |qs| < 2 then 0.0
    else TransitionSum(t, qs[..|qs| - 1]) + Lookup(t, (qs[|qs| - 2], qs[|qs| - 1]), 0.1)
  }

  /** A genre's score for a progression: 0.0 for fewer than two chords, otherwise the mean
      table weight over its adjacent pairs. */
  function GenreScore(t: Table, p: seq<string>): real {
    if |p| < 2 then 0.0 else TransitionSum(t, Qualities(p)) / (|p| - 1) as real
  }

  /** Extending the qualities by one adds the weight of the new last pair. */
  lemma TransitionSumStep(t: Table, qs: seq<Quality>, i: int)
    requires 0 <= i && i + 1 < |qs|
    ensures TransitionSum(t, qs[..i + 2]) == TransitionSum(t, qs[..i + 1]) + Lookup(t, (qs[i], qs[i + 1]), 0.1)
  {
    assert qs[..i + 2][..i + 1] == qs[..i + 1];
  }

  /** One more pair for every genre at once: per-genre totals over the first `i + 1`
      qualities, each increased by its table's weight for pair `i`, are the totals over
      the first `i + 2`. */
  lemma SumsStep(tables: map<string, Table>, before: map<string, real>, after: map<string, real>,
                 qs: seq<Quality>, i: int)
    requires 0 <= i && i + 1 < |qs|
    requires before.Keys == tables.Keys && after.Keys == tables.Keys
    requires forall g :: g in before ==> before[g] == TransitionSum(tables[g], qs[..i + 1])
    requires forall g :: g in after ==> after[g] == before[g] + Lookup(tables[g], (qs[i], qs[i + 1]), 0.1)
    ensures forall g :: g in after ==> after[g] == TransitionSum(tables[g], qs[..i + 2])
  {
    forall g | g in after ensures after[g] == TransitionSum(tables[g], qs[..i + 2]) {
      TransitionSumStep(tables[g], qs, i);
    }
  }

  /** Over `n` adjacent pairs, a genre table's weights sum to between 0.1 n and 0.9 n. */
  lemma {:induction false} TransitionSumBounds(t: Table, qs: seq<Quality>)
    requires IsGenreTable(t) && qs != []
    ensures 0.1 * (|qs| - 1) as real <= TransitionSum(t, qs) <= 0.9 * (|qs| - 1) as real
  {
    if |qs| >= 2 {
      TransitionSumBounds(t, qs[..|qs| - 1]);
      LookupInRange(t, (qs[|qs| - 2], qs[|qs| - 1]), 0.1);
    }
  }

  /** Every genre scores every progression of two or more chords within [0.1, 0.9]. */
  lemma GenreScoreBounds(t: Table, p: seq<string>)
    requires IsGenreTable(t) && |p| >= 2
    ensures 0.1 <= GenreScore(t, p)
    ensures GenreScore(t, p) <= 0.9
  {
    TransitionSumBounds(t, Qualities(p));
    MeanBounds(TransitionSum(t, Qualities(p)), (|p| - 1) as real);
  }

  /** A total between 0.1 n and 0.9 n has a mean over `n` between 0.1 and 0.9. */
  lemma MeanBounds(s: real, n: real)
    requires n >= 1.0 && 0.1 * n <= s <= 0.9 * n
    ensures 0.1 <= s / n
    ensures s / n <= 0.9
  {
    var q := s / n;
    assert q * n == s;
    if q < 0.1 {
      MulLess(q, 0.1, n);
      assert false;
    }
    if q > 0.9 {
      MulLess(0.9, q, n);
      assert false;
    }
  }

  lemma MulLess(x: real, y: real, z: real)
    requires x < y && 0.0 < z
    ensures x * z < y * z
  {
  }

  /** The score sees only the chords' qualities: two progressions that agree on them score
      alike under every table, whatever their roots. */
  lemma ScoreSeesQualities(t: Table, p: seq<string>, p': seq<string>)
    requires |p| == |p'|
    requires forall i :: 0 <= i < |p| ==> Parse(p[i]).quality == Parse(p'[i]).quality
    ensures GenreScore(t, p) == GenreScore(t, p')
  {
    assert Qualities(p) == Qualities(p');
  }

  /** The progression C, Am, F, G. */
  predicate IsExample(p: seq<string>) {
    |p| == 4 && p[0] == "C" && p[1] == "Am" && p[2] == "F" && p[3] == "G"
  }

  /** C, Am, F, G: rock scores (0.7 + 0.8 + 0.9) / 3 = 0.8, above hip-hop's
      (0.8 + 0.7 + 0.5) / 3. */
  lemma RockOverHipHop(p: seq<string>)
    requires IsExample(p)
    ensures GenreScore(Rock, p) == 0.8
    ensures GenreScore(HipHop, p) == 2.0 / 3.0
    ensures GenreScore(Rock, p) > GenreScore(HipHop, p)
  {
    ExampleQualities(p);
    ExampleSums(Qualities(p));
    MeanOfThree(Rock, p, 2.4);
    MeanOfThree(HipHop, p, 2.0);
  }

  lemma MeanOfThree(t: Table, p: seq<string>, s: real)
    requires |p| == 4 && TransitionSum(t, Qualities(p)) == s
    ensures GenreScore(t, p) == s / 3.0
  {
    SameQuotient(TransitionSum(t, Qualities(p)), s, (|p| - 1) as real);
  }

  lemma SameQuotient(x: real, y: real, n: real)
    requires x == y && n == 3.0
    ensures x / n == y / 3.0
  {
  }

  lemma ExampleQualities(p: seq<string>)
    requires IsExample(p)
    ensures |Qualities(p)| == 4
    ensures Qualities(p)[0] == Major && Qualities(p)[1] == Minor
    ensures Qualities(p)[2] == Major && Qualities(p)[3] == Major
  {
    ParseLetter(p[0], 'C', false);
    ParseLetter(p[1], 'A', true);
    ParseLetter(p[2], 'F', false);
    ParseLetter(p[3], 'G', false);
  }

  /** A note letter, optionally followed by `m`, parses as the major or minor triad on
      that letter. */
  lemma ParseLetter(text: string, letter: char, minor: bool)
    requires 'A' <= letter <= 'G'
    requires text == if minor then [letter, 'm'] else [letter]
    ensures Parse(text) == Chord([letter], if minor then Minor else Major)
  {
    var c := Chord([letter], if minor then Minor else Major);
    assert text == Encode(c);
    ParseEncode(c);
  }

  /** Major, minor, major, major: the pairs (major, minor), (minor, major), (major,
      major) weigh 0.7 + 0.8 + 0.9 under rock and 0.8 + 0.7 + 0.5 under hip-hop. */
  lemma ExampleSums(qs: seq<Quality>)
    requires |qs| == 4 && qs[0] == Major && qs[1] == Minor && qs[2] == Major && qs[3] == Major
    ensures TransitionSum(Rock, qs) == 2.4
    ensures TransitionSum(HipHop, qs) == 2.0
  {
    assert qs[..4] == qs;
    assert Rock[(Major, Minor)] == 0.7 && Rock[(Minor, Major)] == 0.8 && Rock[(Major, Major)] == 0.9;
    assert HipHop[(Major, Minor)] == 0.8 && HipHop[(Minor, Major)] == 0.7 && HipHop[(Major, Major)] == 0.5;
    TransitionSumStep(Rock, qs, 0);
    TransitionSumStep(Rock, qs, 1);
    TransitionSumStep(Rock, qs, 2);
    TransitionSumStep(HipHop, qs, 0);
    TransitionSumStep(HipHop, qs, 1);
    TransitionSumStep(HipHop, qs, 2);
  }
}
