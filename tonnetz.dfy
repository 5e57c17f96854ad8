/** The Tonnetz graph as values: its 36 vertices, the five transform rules, and the edge
    map the construction loop leaves behind. The imperative construction in module
    TonnetzGraphs is proved to produce exactly `Vertices()` and `TonnetzEdges()`. */
module Tonnetz {
  import opened Chords
  import opened PitchRing
  import opened EdgeMaps

  /** The qualities the vertices are built with, in the order the builder loops them. */
  const TriadQualities: seq<Quality> := [Major, Minor, Dim]

  function QualityIndex(q: Quality): (k: nat)
    requires q in TriadQualities
    ensures k < 3 && TriadQualities[k] == q
  {
    if q == Major then 0 else if q == Minor then 1 else 2
  }

  lemma QualityIndexOf(k: int)
    requires 0 <= k < 3
    ensures QualityIndex(TriadQualities[k]) == k
  {
  }

  /** The vertex set: every note with every triad quality. */
  function Vertices(): set<Chord> {
    set r, q | r in Notes && q in TriadQualities :: Chord(r, q)
  }

  /** The order the builder inserts the chords (note index first, then major, minor,
      diminished), which is also the order the edge loop visits them. */
  function BuildOrder(): seq<Chord> {
    seq(36, x requires 0 <= x < 36 => Chord(Notes[NoteOf(x)], TriadQualities[x - 3 * NoteOf(x)]))
  }

  /** The note loop's index at the `x`-th insertion: `x` divided by three. */
  function NoteOf(x: nat): (i: nat)
    ensures 3 * i <= x < 3 * i + 3
  {
    if x < 3 then 0 else 1 + NoteOf(x - 3)
  }

  /** A vertex's position in `BuildOrder()`. */
  function Pos(c: Chord): nat
    requires c.root in Notes && c.quality in TriadQualities
  {
    3 * Index(c.root) + QualityIndex(c.quality)
  }

  function ParallelOf(c: Chord): Chord { Chord(c.root, Minor) }

  function RelativeOf(c: Chord): Chord
    requires c.root in Notes
  {
    Chord(RelativeMinor(c.root), Minor)
  }

  function LeadingOf(c: Chord): Chord
    requires c.root in Notes
  {
    Chord(LeadingToneMajor(c.root), Major)
  }

  function FifthOf(c: Chord): Chord
    requires c.root in Notes
  {
    Chord(Fifth(c.root), c.quality)
  }

  function FourthOf(c: Chord): Chord
    requires c.root in Notes
  {
    Chord(Fourth(c.root), c.quality)
  }

  /** The chords the five rules reach from `c`. */
  function TargetsOf(c: Chord): Targets
    requires c.root in Notes
  {
    Targets(ParallelOf(c), RelativeOf(c), LeadingOf(c), FifthOf(c), FourthOf(c))
  }

  /** The edges the loop body adds for chord `c`, in the source's order; a later addition
      on the same pair overwrites. */
  function AddChordEdges(c: Chord, vs: set<Chord>, E: EdgeMap): EdgeMap
    requires c.root in Notes
  {
    AddRules(E, c, vs, TargetsOf(c))
  }

  /** What chord `c` writes, on its own. */
  function ChordEdges(c: Chord, vs: set<Chord>): EdgeMap
    requires c.root in Notes
  {
    AddChordEdges(c, vs, map[])
  }

  predicate RootsInRing(cs: seq<Chord>) {
    forall k :: 0 <= k < |cs| ==> cs[k].root in Notes
  }

  /** What the loop body writes for each chord on its own (nothing for a chord off the
      ring, which the loop never visits). */
  function Writes(vs: set<Chord>): Chord -> EdgeMap {
    (c: Chord) => if c.root in Notes then ChordEdges(c, vs) else map[]
  }

  /** The edge map after the loop has visited `cs` in order, starting from no edges. */
  function EdgesFrom(cs: seq<Chord>, vs: set<Chord>): EdgeMap {
    Sweep(Writes(vs), cs)
  }

  /** The edge map of the finished graph. */
  function TonnetzEdges(): EdgeMap {
    EdgesFrom(BuildOrder(), Vertices())
  }

  /** Rule(a, b): one of the five rules, applied at `a`, reaches `b`. */
  predicate Rule(a: Chord, b: Chord)
    requires a.root in Notes
  {
    Hits(a, TargetsOf(a), b)
  }

  /** Two chords the rules relate, in either direction. */
  predicate Related(a: Chord, b: Chord)
    requires a.root in Notes && b.root in Notes
  {
    Rule(a, b) || Rule(b, a)
  }

  /** The attributes the last rule of `a` that reaches `b` writes. */
  function RuleEdge(a: Chord, b: Chord): Edge
    requires a.root in Notes
  {
    HitEdge(a, TargetsOf(a), b)
  }

  // ---------------------------------------------------------------------------------
  // Vertices and the build order

  /** Membership in the vertex set, stated on the chord's fields. */
  lemma VertexShape(c: Chord)
    ensures c in Vertices() <==> c.root in Notes && c.quality in TriadQualities
  {
    if c.root in Notes && c.quality in TriadQualities {
      assert c == Chord(c.root, c.quality);
    }
  }

  lemma NoteOfAt(i: int, q: int)
    requires 0 <= i && 0 <= q < 3
    ensures NoteOf(3 * i + q) == i
  {
  }

  /** The `x`-th inserted chord, by note index and quality index. */
  lemma OrderAt(x: int)
    requires 0 <= x < 36
    ensures NoteOf(x) < 12 && 0 <= x - 3 * NoteOf(x) < 3
    ensures BuildOrder()[x] == Chord(Notes[NoteOf(x)], TriadQualities[x - 3 * NoteOf(x)])
  {
  }

  /** The build order lists 36 vertices, each with a ring root. */
  lemma OrderShape()
    ensures |BuildOrder()| == 36 && RootsInRing(BuildOrder())
    ensures forall x :: 0 <= x < 36 ==> BuildOrder()[x] in Vertices()
  {
    forall x | 0 <= x < 36
      ensures BuildOrder()[x].root in Notes && BuildOrder()[x] in Vertices()
    {
      OrderAt(x);
      VertexShape(BuildOrder()[x]);
    }
  }

  /** Every vertex sits in the build order at its position, and only there. */
  lemma OrderPos(c: Chord, x: int)
    requires c in Vertices() && 0 <= x < 36
    ensures c.root in Notes && c.quality in TriadQualities && Pos(c) < 36
    ensures BuildOrder()[Pos(c)] == c
    ensures BuildOrder()[x] == c <==> x == Pos(c)
  {
    VertexShape(c);
    NoteOfAt(Index(c.root), QualityIndex(c.quality));
    OrderAt(Pos(c));
    if BuildOrder()[x] == c {
      OrderOnly(c, x);
    }
  }

  lemma OrderOnly(c: Chord, x: int)
    requires c.root in Notes && c.quality in TriadQualities && 0 <= x < 36
    requires BuildOrder()[x] == c
    ensures x == Pos(c)
  {
    OrderAt(x);
    IndexOfNote(NoteOf(x));
    QualityIndexOf(x - 3 * NoteOf(x));
  }

  /** The 36 vertices are distinct. */
  lemma VertexCount()
    ensures |Vertices()| == 36
  {
    OrderShape();
    OrderCovers();
    OrderDistinct();
    SetFromSeq(BuildOrder(), Vertices());
    SeqDistinctCard(BuildOrder());
  }

  lemma OrderCovers()
    ensures forall c :: c in Vertices() ==> c in BuildOrder()
  {
    forall c | c in Vertices() ensures c in BuildOrder() {
      OrderPos(c, 0);
    }
  }

  /** No chord is inserted twice. */
  lemma OrderDistinct()
    ensures forall i, j :: 0 <= i < j < |BuildOrder()| ==> BuildOrder()[i] != BuildOrder()[j]
  {
    OrderShape();
    forall i, j | 0 <= i < j < 36 ensures BuildOrder()[i] != BuildOrder()[j] {
      PosOfOrder(i);
      PosOfOrder(j);
    }
  }

  /** The chord inserted `x`-th sits at position `x`. */
  lemma PosOfOrder(x: int)
    requires 0 <= x < 36
    ensures BuildOrder()[x].root in Notes && BuildOrder()[x].quality in TriadQualities
    ensures Pos(BuildOrder()[x]) == x
  {
    OrderAt(x);
    OrderOnly(BuildOrder()[x], x);
  }

  /** No note name holds white space or ends with a quality mark. */
  lemma NotesPlain(r: string)
    requires r in Notes
    ensures PlainRoot(r)
  {
  }

  /** Every chord over one of the twelve note names, of any of the four named qualities,
      parses back from its text name. */
  lemma RingRoundTrip(r: string, q: Quality)
    requires r in Notes && KnownQuality(q)
    ensures Parse(Encode(Chord(r, q))) == Chord(r, q)
  {
    NotesPlain(r);
    ParseEncode(Chord(r, q));
  }

  /** A vertex's text name parses back to the vertex. */
  lemma VertexRoundTrip(c: Chord)
    requires c in Vertices()
    ensures Parse(Encode(c)) == c
  {
    VertexShape(c);
    NotesPlain(c.root);
    ParseEncode(c);
  }

  /** Distinct insertions carry distinct text names. */
  lemma OrderNamesDistinct()
    ensures forall i, j :: 0 <= i < j < |BuildOrder()| ==> Encode(BuildOrder()[i]) != Encode(BuildOrder()[j])
  {
    OrderShape();
    OrderDistinct();
    forall i, j | 0 <= i < j < 36 ensures Encode(BuildOrder()[i]) != Encode(BuildOrder()[j]) {
      VertexRoundTrip(BuildOrder()[i]);
      VertexRoundTrip(BuildOrder()[j]);
    }
  }

  lemma SetFromSeq(s: seq<Chord>, vs: set<Chord>)
    requires forall x :: 0 <= x < |s| ==> s[x] in vs
    requires forall c :: c in vs ==> c in s
    ensures vs == set x | x in s
  {
  }

  lemma {:induction false} SeqDistinctCard(s: seq<Chord>)
    requires forall i, j :: 0 <= i < j < |s| ==> s[i] != s[j]
    ensures |set x | x in s| == |s|
  {
    if s != [] {
      var t := s[..|s| - 1];
      SeqDistinctCard(t);
      assert (set x | x in s) == (set x | x in t) + {s[|s| - 1]};
    }
  }

  // ---------------------------------------------------------------------------------
  // What one chord writes

  /** The rules never relate a chord to itself. */
  lemma RuleIrreflexive(a: Chord, b: Chord)
    requires a.root in Notes && Rule(a, b)
    ensures a != b
  {
    OffsetsMove(a.root);
  }

  /** What distinguishes the five targets of a chord: their qualities, and that every
      offset moves the root. */
  lemma TargetFacts(c: Chord)
    requires c.root in Notes
    ensures TargetsOf(c).parallel == Chord(c.root, Minor)
    ensures TargetsOf(c).relative.quality == Minor && TargetsOf(c).relative.root != c.root
    ensures TargetsOf(c).leading.quality == Major && TargetsOf(c).leading.root != c.root
    ensures TargetsOf(c).fifth.quality == c.quality && TargetsOf(c).fifth.root != c.root
    ensures TargetsOf(c).fourth.quality == c.quality && TargetsOf(c).fourth.root != c.root
    ensures TargetsOf(c).fifth.root != TargetsOf(c).fourth.root
  {
    OffsetsMove(c.root);
  }

  lemma NoSelfRule(c: Chord)
    requires c.root in Notes
    ensures !Hits(c, TargetsOf(c), c)
  {
    OffsetsMove(c.root);
  }

  /** Applying one chord's rules to a map overwrites exactly that chord's own writes. */
  lemma StepUnion(c: Chord, vs: set<Chord>, E: EdgeMap)
    requires c.root in Notes
    ensures AddChordEdges(c, vs, E) == E + ChordEdges(c, vs)
  {
    AddRulesUnion(E, c, vs, TargetsOf(c));
  }

  /** Every pair chord `c` writes joins `c`, in one orientation or the other, to a vertex
      of `vs` one of its rules reaches. */
  lemma ChordEdgesKeys(c: Chord, vs: set<Chord>, K: (Chord, Chord))
    requires c.root in Notes && K in ChordEdges(c, vs)
    ensures (K.0 == c && K.1 in vs && Rule(c, K.1)) || (K.1 == c && K.0 in vs && Rule(c, K.0))
  {
    AddRulesKeys(c, vs, TargetsOf(c), K);
  }

  /** Every rule target of `c` in `vs` is joined to `c` in both orientations, with the
      label of the last of its rules that reaches it. */
  lemma ChordEdgesValue(c: Chord, t: Chord, vs: set<Chord>)
    requires c.root in Notes && t in vs && Rule(c, t)
    ensures (c, t) in ChordEdges(c, vs) && ChordEdges(c, vs)[(c, t)] == RuleEdge(c, t)
    ensures (t, c) in ChordEdges(c, vs) && ChordEdges(c, vs)[(t, c)] == RuleEdge(c, t)
  {
    RuleIrreflexive(c, t);
    AddRulesValue(c, vs, TargetsOf(c), t);
  }

  /** One chord's writes are symmetric and weigh in (0, 1]. */
  lemma ChordEdgesShape(c: Chord, vs: set<Chord>)
    requires c.root in Notes
    ensures Symmetric(ChordEdges(c, vs)) && WeightsPositive(ChordEdges(c, vs))
  {
    NoSelfRule(c);
    AddRulesShape(c, vs, TargetsOf(c));
  }

  // ---------------------------------------------------------------------------------
  // The loop over a sequence of chords

  /** What the `j`-th visited chord of the finished graph's loop writes. */
  lemma OrderWrites(j: int)
    requires 0 <= j < 36
    ensures BuildOrder()[j].root in Notes && BuildOrder()[j] in Vertices()
    ensures Writes(Vertices())(BuildOrder()[j]) == ChordEdges(BuildOrder()[j], Vertices())
  {
    OrderShape();
  }

  // ---------------------------------------------------------------------------------
  // The finished graph

  /** Both orientations of every edge carry the same attributes, and every weight lies
      in (0, 1]. */
  lemma TonnetzShape()
    ensures Symmetric(TonnetzEdges()) && WeightsPositive(TonnetzEdges())
  {
    var w, cs := Writes(Vertices()), BuildOrder();
    OrderShape();
    forall i | 0 <= i < |cs| ensures Symmetric(w(cs[i])) && WeightsPositive(w(cs[i])) {
      OrderWrites(i);
      ChordEdgesShape(cs[i], Vertices());
    }
    SweepShape(w, cs);
  }

  /** Every vertex's rule targets that are vertices are connected to it. */
  lemma RuleEdgePresent(a: Chord, b: Chord)
    requires a in Vertices() && b in Vertices()
    requires a.root in Notes && Rule(a, b)
    ensures Adjacent(TonnetzEdges(), a, b) && Adjacent(TonnetzEdges(), b, a)
  {
    OrderPos(a, 0);
    OrderWrites(Pos(a));
    ChordEdgesValue(a, b, Vertices());
    SweepKey(Writes(Vertices()), BuildOrder(), (a, b), Pos(a));
    SweepKey(Writes(Vertices()), BuildOrder(), (b, a), Pos(a));
  }

  /** Every edge of the finished graph joins two distinct vertices the rules relate. */
  lemma EdgeKeysSound(K: (Chord, Chord))
    requires K in TonnetzEdges()
    ensures K.0 in Vertices() && K.1 in Vertices() && K.0 != K.1
    ensures K.0.root in Notes && K.1.root in Notes && Related(K.0, K.1)
  {
    OrderShape();
    SweepWriter(Writes(Vertices()), BuildOrder(), K);
    var j :| 0 <= j < 36 && K in Writes(Vertices())(BuildOrder()[j]);
    OrderWrites(j);
    var d := BuildOrder()[j];
    ChordEdgesKeys(d, Vertices(), K);
    VertexShape(K.0);
    VertexShape(K.1);
    if K.0 == d {
      RuleIrreflexive(d, K.1);
    } else {
      RuleIrreflexive(d, K.0);
    }
  }

  /** Adjacency in the finished graph is exactly relatedness of two vertices; it has no
      self-loops and is symmetric. */
  lemma AdjacencyExact(a: Chord, b: Chord)
    ensures Adjacent(TonnetzEdges(), a, b) <==>
              a in Vertices() && b in Vertices() && a.root in Notes && b.root in Notes
              && Related(a, b)
    ensures Adjacent(TonnetzEdges(), a, b) ==> a != b
    ensures Adjacent(TonnetzEdges(), a, b) == Adjacent(TonnetzEdges(), b, a)
  {
    VertexShape(a);
    VertexShape(b);
    TonnetzShape();
    if Adjacent(TonnetzEdges(), a, b) {
      EdgeKeysSound((a, b));
    } else if a in Vertices() && b in Vertices() && a.root in Notes && b.root in Notes {
      if Rule(a, b) {
        RuleEdgePresent(a, b);
      } else if Rule(b, a) {
        RuleEdgePresent(b, a);
      }
    }
  }

  /** Both ends of an edge are vertices. */
  lemma EdgeEndsAreVertices(a: Chord, b: Chord)
    requires Adjacent(TonnetzEdges(), a, b)
    ensures a in Vertices() && b in Vertices()
  {
    EdgeKeysSound((a, b));
  }

  /** Every vertex has at least two neighbours: the same-quality chords a fifth and a
      fourth above it, which are distinct from it and from each other. */
  lemma FifthAndFourthNeighbours(c: Chord)
    requires c in Vertices()
    ensures c.root in Notes
    ensures Adjacent(TonnetzEdges(), c, FifthOf(c)) && Adjacent(TonnetzEdges(), c, FourthOf(c))
    ensures FifthOf(c) != c && FourthOf(c) != c && FifthOf(c) != FourthOf(c)
  {
    VertexShape(c);
    VertexShape(FifthOf(c));
    VertexShape(FourthOf(c));
    OffsetsMove(c.root);
    RuleEdgePresent(c, FifthOf(c));
    RuleEdgePresent(c, FourthOf(c));
  }

  /** No chord visited after `a` writes (a, b), unless `b` reaches `a` and comes later. */
  lemma NoLaterWriter(a: Chord, b: Chord, i: int)
    requires a in Vertices() && b in Vertices() && 0 <= i < 36
    requires a.root in Notes && a.quality in TriadQualities
    requires b.root in Notes && b.quality in TriadQualities
    requires Pos(a) < i && (Rule(b, a) ==> Pos(b) < Pos(a))
    ensures (a, b) !in Writes(Vertices())(BuildOrder()[i])
  {
    OrderWrites(i);
    var d := BuildOrder()[i];
    if (a, b) in ChordEdges(d, Vertices()) {
      ChordEdgesKeys(d, Vertices(), (a, b));
      OrderPos(a, i);
      OrderPos(b, i);
      assert false;
    }
  }

  /** A pair's final label is that of the rule applied at `a` when `b` either does not
      reach `a` or comes earlier in the build order. */
  lemma FinalEdge(a: Chord, b: Chord)
    requires a in Vertices() && b in Vertices()
    requires a.root in Notes && a.quality in TriadQualities
    requires b.root in Notes && b.quality in TriadQualities
    requires Rule(a, b) && (Rule(b, a) ==> Pos(b) < Pos(a))
    ensures (a, b) in TonnetzEdges() && TonnetzEdges()[(a, b)] == RuleEdge(a, b)
    ensures (b, a) in TonnetzEdges() && TonnetzEdges()[(b, a)] == RuleEdge(a, b)
  {
    OrderPos(a, 0);
    OrderWrites(Pos(a));
    ChordEdgesValue(a, b, Vertices());
    OrderShape();
    forall i | Pos(a) < i < |BuildOrder()|
      ensures (a, b) !in Writes(Vertices())(BuildOrder()[i])
    {
      NoLaterWriter(a, b, i);
    }
    SweepLast(Writes(Vertices()), BuildOrder(), (a, b), Pos(a));
    TonnetzShape();
  }

  /** Each major chord's parallel-minor edge keeps its P label and weight 1.0. */
  lemma ParallelEdges(r: string)
    requires r in Notes
    ensures Adjacent(TonnetzEdges(), Chord(r, Major), Chord(r, Minor))
    ensures TonnetzEdges()[(Chord(r, Major), Chord(r, Minor))] == Edge(P, 1.0)
  {
    var a, b := Chord(r, Major), Chord(r, Minor);
    VertexShape(a);
    VertexShape(b);
    ParallelRules(r);
    FinalEdge(a, b);
  }

  lemma ParallelRules(r: string)
    requires r in Notes
    ensures Rule(Chord(r, Major), Chord(r, Minor)) && !Rule(Chord(r, Minor), Chord(r, Major))
    ensures RuleEdge(Chord(r, Major), Chord(r, Minor)) == Edge(P, 1.0)
  {
    MinorRuleNotMajor(r);
    MajorRuleEdge(r, Chord(r, Minor));
  }

  /** No rule of a minor chord reaches the major chord on the same root. */
  lemma MinorRuleNotMajor(r: string)
    requires r in Notes
    ensures !Rule(Chord(r, Minor), Chord(r, Major))
  {
    TargetFacts(Chord(r, Minor));
  }

  /** A minor chord reached from a major one by a rule other than the relative one is
      reached by the parallel rule. */
  lemma MajorRuleEdge(r: string, b: Chord)
    requires r in Notes && b.quality == Minor
    ensures b != RelativeOf(Chord(r, Major)) ==> RuleEdge(Chord(r, Major), b) == Edge(P, 1.0)
    ensures b == RelativeOf(Chord(r, Major)) ==> RuleEdge(Chord(r, Major), b) == Edge(R, 0.9)
  {
    TargetFacts(Chord(r, Major));
    HitEdgeMajorToMinor(Chord(r, Major), TargetsOf(Chord(r, Major)), b);
  }

  /** A major chord reached from a minor one is reached by the leading-tone rule. */
  lemma MinorRuleEdge(r: string, b: Chord)
    requires r in Notes && b.quality == Major && Rule(Chord(r, Minor), b)
    ensures RuleEdge(Chord(r, Minor), b) == Edge(L, 0.8)
  {
    TargetFacts(Chord(r, Minor));
    HitEdgeMinorToMajor(Chord(r, Minor), TargetsOf(Chord(r, Minor)), b);
  }

  lemma RelativeRules(r: string)
    requires r in Notes
    ensures RelativeMinor(r) in Notes
    ensures Rule(Chord(r, Major), Chord(RelativeMinor(r), Minor))
    ensures Rule(Chord(RelativeMinor(r), Minor), Chord(r, Major))
    ensures RuleEdge(Chord(r, Major), Chord(RelativeMinor(r), Minor)) == Edge(R, 0.9)
    ensures RuleEdge(Chord(RelativeMinor(r), Minor), Chord(r, Major)) == Edge(L, 0.8)
  {
    RelativeLeadingInverse(r);
    MajorRuleEdge(r, Chord(RelativeMinor(r), Minor));
    MinorRuleEdge(RelativeMinor(r), Chord(r, Major));
  }

  /** The relative-minor pair of a major chord is written by the major chord's R rule and
      by the minor chord's L rule; whichever the loop visits last labels it: R 0.9 for the
      majors of D# through B, L 0.8 for C, C# and D (whose relative minors A, A#, B come
      later). */
  lemma RelativeEdges(r: string)
    requires r in Notes
    ensures Adjacent(TonnetzEdges(), Chord(r, Major), Chord(RelativeMinor(r), Minor))
    ensures TonnetzEdges()[(Chord(r, Major), Chord(RelativeMinor(r), Minor))]
              == if Index(r) >= 3 then Edge(R, 0.9) else Edge(L, 0.8)
  {
    var a, b := Chord(r, Major), Chord(RelativeMinor(r), Minor);
    VertexShape(a);
    VertexShape(b);
    RelativeRules(r);
    if Index(r) >= 3 {
      FinalEdge(a, b);
    } else {
      FinalEdge(b, a);
    }
  }

  lemma FifthRules(c: Chord)
    requires c.root in Notes
    ensures FifthOf(c).root in Notes && Rule(c, FifthOf(c)) && Rule(FifthOf(c), c)
    ensures RuleEdge(c, FifthOf(c)) == Edge(V, 0.9)
    ensures RuleEdge(FifthOf(c), c) == Edge(IV, 0.7)
  {
    FifthFourthInverse(c.root);
    TargetFacts(c);
    TargetFacts(FifthOf(c));
    assert c == FourthOf(FifthOf(c));
  }

  /** The fifth pair of a chord is written by its V rule and by the fourth rule of the
      chord a fifth above; the later one labels it: V 0.9 for roots F through B, IV 0.7
      for roots C through E. */
  lemma FifthEdges(c: Chord)
    requires c in Vertices()
    ensures c.root in Notes && Adjacent(TonnetzEdges(), c, FifthOf(c))
    ensures TonnetzEdges()[(c, FifthOf(c))]
              == if Index(c.root) >= 5 then Edge(V, 0.9) else Edge(IV, 0.7)
  {
    var b := FifthOf(c);
    VertexShape(c);
    VertexShape(b);
    FifthRules(c);
    if Index(c.root) >= 5 {
      FinalEdge(c, b);
    } else {
      FinalEdge(b, c);
    }
  }
}
