/** The edge attributes of an undirected chord graph, and what the Tonnetz construction
    loop writes into them, stated for an arbitrary chord and arbitrary rule targets. */
module EdgeMaps {
  import opened Chords

  /** The edge labels: parallel, relative, leading-tone exchange, fifth up, fourth up. */
  datatype Transform = P | R | L | V | IV

  datatype Edge = Edge(transform: Transform, weight: real)

  /** An undirected graph's adjacency, as networkx keeps it: the attributes of edge
      {a, b} are stored under both (a, b) and (b, a). Adding an edge on a pair that
      already has one replaces its attributes. */
  type EdgeMap = map<(Chord, Chord), Edge>

  predicate Adjacent(E: EdgeMap, a: Chord, b: Chord) {
    (a, b) in E
  }

  /** Both orientations of every pair carry the same attributes. */
  predicate Symmetric(E: EdgeMap) {
    forall k :: k in E ==> (k.1, k.0) in E && E[(k.1, k.0)] == E[k]
  }

  /** Every weight lies in (0, 1]. */
  predicate WeightsPositive(E: EdgeMap) {
    forall k :: k in E ==> 0.0 < E[k].weight <= 1.0
  }

  /** networkx's `add_edge(a, b, ...)` on the attribute map. */
  function Join(E: EdgeMap, a: Chord, b: Chord, e: Edge): EdgeMap {
    E[(a, b) := e][(b, a) := e]
  }

  /** One guarded `add_edge` of the construction loop. */
  function Put(E: EdgeMap, when: bool, a: Chord, b: Chord, e: Edge): EdgeMap {
    if when then Join(E, a, b, e) else E
  }

  /** The chords the five rules reach from one chord. */
  datatype Targets = Targets(parallel: Chord, relative: Chord, leading: Chord, fifth: Chord, fourth: Chord)

  /** The loop body for chord `c` whose rules reach `t`: the parallel and relative edges
      for a major chord, the leading-tone edge for a minor one, then the fifth and the
      fourth, each only when its target is a vertex of `vs`. */
  function AddRules(E: EdgeMap, c: Chord, vs: set<Chord>, t: Targets): EdgeMap {
    var e1 := Put(E, c.quality == Major && t.parallel in vs, c, t.parallel, Edge(P, 1.0));
    var e2 := Put(e1, c.quality == Major && t.relative in vs, c, t.relative, Edge(R, 0.9));
    var e3 := Put(e2, c.quality == Minor && t.leading in vs, c, t.leading, Edge(L, 0.8));
    var e4 := Put(e3, t.fifth in vs, c, t.fifth, Edge(V, 0.9));
    Put(e4, t.fourth in vs, c, t.fourth, Edge(IV, 0.7))
  }

  /** One of the rules that apply to `c` reaches `b`. */
  predicate Hits(c: Chord, t: Targets, b: Chord) {
    || (c.quality == Major && b == t.parallel)
    || (c.quality == Major && b == t.relative)
    || (c.quality == Minor && b == t.leading)
    || b == t.fifth
    || b == t.fourth
  }

  /** The attributes of the last rule of `c` that reaches `b` (the fourth is written
      last, the parallel first). */
  function HitEdge(c: Chord, t: Targets, b: Chord): Edge {
    if b == t.fourth then Edge(IV, 0.7)
    else if b == t.fifth then Edge(V, 0.9)
    else if c.quality == Minor && b == t.leading then Edge(L, 0.8)
    else if c.quality == Major && b == t.relative then Edge(R, 0.9)
    else Edge(P, 1.0)
  }

  /** From a major chord, a minor chord the same-quality fifth and fourth cannot be is
      labelled by the relative rule or else the parallel one. */
  lemma HitEdgeMajorToMinor(c: Chord, t: Targets, b: Chord)
    requires c.quality == Major && b.quality == Minor
    requires t.fifth.quality == Major && t.fourth.quality == Major
    ensures HitEdge(c, t, b) == if b == t.relative then Edge(R, 0.9) else Edge(P, 1.0)
  {
  }

  /** From a minor chord, a major chord its rules reach (which the same-quality fifth and
      fourth cannot be) is labelled by the leading-tone rule. */
  lemma HitEdgeMinorToMajor(c: Chord, t: Targets, b: Chord)
    requires c.quality == Minor && b.quality == Major && Hits(c, t, b)
    requires t.fifth.quality == Minor && t.fourth.quality == Minor
    ensures HitEdge(c, t, b) == Edge(L, 0.8)
  {
  }

  // ---------------------------------------------------------------------------------
  // One loop body

  /** A guarded write commutes with earlier contents: it only overwrites its own pair. */
  lemma PutUnion(E: EdgeMap, M: EdgeMap, when: bool, a: Chord, b: Chord, e: Edge)
    ensures Put(E + M, when, a, b, e) == E + Put(M, when, a, b, e)
  {
  }

  /** The loop body overwrites exactly what it would write into an empty map. */
  lemma AddRulesUnion(E: EdgeMap, c: Chord, vs: set<Chord>, t: Targets)
    ensures AddRules(E, c, vs, t) == E + AddRules(map[], c, vs, t)
  {
    var m0: EdgeMap := map[];
    assert E + m0 == E;
    var w0 := c.quality == Major && t.parallel in vs;
    var w1 := c.quality == Major && t.relative in vs;
    var w2 := c.quality == Minor && t.leading in vs;
    PutUnion(E, m0, w0, c, t.parallel, Edge(P, 1.0));
    var m1 := Put(m0, w0, c, t.parallel, Edge(P, 1.0));
    PutUnion(E, m1, w1, c, t.relative, Edge(R, 0.9));
    var m2 := Put(m1, w1, c, t.relative, Edge(R, 0.9));
    PutUnion(E, m2, w2, c, t.leading, Edge(L, 0.8));
    var m3 := Put(m2, w2, c, t.leading, Edge(L, 0.8));
    PutUnion(E, m3, t.fifth in vs, c, t.fifth, Edge(V, 0.9));
    var m4 := Put(m3, t.fifth in vs, c, t.fifth, Edge(V, 0.9));
    PutUnion(E, m4, t.fourth in vs, c, t.fourth, Edge(IV, 0.7));
  }

  /** Every pair the loop body writes joins `c`, in one orientation or the other, to a
      vertex of `vs` that one of its rules reaches. */
  lemma AddRulesKeys(c: Chord, vs: set<Chord>, t: Targets, K: (Chord, Chord))
    requires K in AddRules(map[], c, vs, t)
    ensures (K.0 == c && K.1 in vs && Hits(c, t, K.1)) || (K.1 == c && K.0 in vs && Hits(c, t, K.0))
  {
  }

  /** Every vertex a rule of `c` reaches is joined to `c` in both orientations, with the
      attributes of the last such rule. */
  lemma AddRulesValue(c: Chord, vs: set<Chord>, t: Targets, b: Chord)
    requires b in vs && Hits(c, t, b) && b != c
    ensures (c, b) in AddRules(map[], c, vs, t) && AddRules(map[], c, vs, t)[(c, b)] == HitEdge(c, t, b)
    ensures (b, c) in AddRules(map[], c, vs, t) && AddRules(map[], c, vs, t)[(b, c)] == HitEdge(c, t, b)
  {
  }

  /** When no rule of `c` reaches `c` itself, what the loop body writes is symmetric and
      weighs in (0, 1]. */
  lemma AddRulesShape(c: Chord, vs: set<Chord>, t: Targets)
    requires !Hits(c, t, c)
    ensures Symmetric(AddRules(map[], c, vs, t)) && WeightsPositive(AddRules(map[], c, vs, t))
  {
    var M := AddRules(map[], c, vs, t);
    forall K | K in M
      ensures (K.1, K.0) in M && M[(K.1, K.0)] == M[K] && 0.0 < M[K].weight <= 1.0
    {
      AddRulesKeys(c, vs, t, K);
      AddRulesValue(c, vs, t, if K.0 == c then K.1 else K.0);
    }
  }

  // ---------------------------------------------------------------------------------
  // A sequence of loop bodies: later writes win

  /** The writes `w(cs[0])`, ..., `w(cs[|cs| - 1])` laid over each other in order, each
      overwriting the ones before. */
  function Sweep(w: Chord -> EdgeMap, cs: seq<Chord>): EdgeMap {
    if cs == [] then map[] else Sweep(w, cs[..|cs| - 1]) + w(cs[|cs| - 1])
  }

  /** One more chord: its writes go over everything before. */
  lemma SweepStep(w: Chord -> EdgeMap, cs: seq<Chord>, i: int)
    requires 0 <= i < |cs|
    ensures Sweep(w, cs[..i + 1]) == Sweep(w, cs[..i]) + w(cs[i])
  {
    assert cs[..i + 1][..i] == cs[..i];
  }

  /** A pair written at some visit is present afterwards. */
  lemma {:induction false} SweepKey(w: Chord -> EdgeMap, cs: seq<Chord>, K: (Chord, Chord), j: int)
    requires 0 <= j < |cs| && K in w(cs[j])
    ensures K in Sweep(w, cs)
  {
    if j < |cs| - 1 {
      SweepKey(w, cs[..|cs| - 1], K, j);
    }
  }

  /** Every pair present afterwards was written at some visit, and holds what that visit
      wrote. */
  lemma {:induction false} SweepWriter(w: Chord -> EdgeMap, cs: seq<Chord>, K: (Chord, Chord))
    requires K in Sweep(w, cs)
    ensures exists j :: 0 <= j < |cs| && K in w(cs[j]) && Sweep(w, cs)[K] == w(cs[j])[K]
  {
    var n := |cs| - 1;
    if K !in w(cs[n]) {
      SweepWriter(w, cs[..n], K);
      var j :| 0 <= j < n && K in w(cs[..n][j]) && Sweep(w, cs[..n])[K] == w(cs[..n][j])[K];
      assert cs[..n][j] == cs[j];
    }
  }

  /** A pair holds what the last visit that wrote it wrote. */
  lemma {:induction false} SweepLast(w: Chord -> EdgeMap, cs: seq<Chord>, K: (Chord, Chord), j: int)
    requires 0 <= j < |cs| && K in w(cs[j])
    requires forall i :: j < i < |cs| ==> K !in w(cs[i])
    ensures K in Sweep(w, cs) && Sweep(w, cs)[K] == w(cs[j])[K]
  {
    var n := |cs| - 1;
    if j < n {
      assert K !in w(cs[n]);
      SweepLast(w, cs[..n], K, j);
    }
  }

  lemma SymmetricUnion(E: EdgeMap, M: EdgeMap)
    requires Symmetric(E) && Symmetric(M)
    ensures Symmetric(E + M)
  {
  }

  /** Symmetric writes give a symmetric result, positive weights positive weights. */
  lemma {:induction false} SweepShape(w: Chord -> EdgeMap, cs: seq<Chord>)
    requires forall i :: 0 <= i < |cs| ==> Symmetric(w(cs[i])) && WeightsPositive(w(cs[i]))
    ensures Symmetric(Sweep(w, cs)) && WeightsPositive(Sweep(w, cs))
  {
    if cs != [] {
      var n := |cs| - 1;
      assert forall i :: 0 <= i < n ==> cs[..n][i] == cs[i];
      SweepShape(w, cs[..n]);
      SymmetricUnion(Sweep(w, cs[..n]), w(cs[n]));
    }
  }
}
