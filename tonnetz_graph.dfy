/** The graph object: its vertex set, its edge attributes, the chord directory the builder
    fills and the genre tables, updated in place by the construction methods and read by
    the generator and the classifier. */
module TonnetzGraphs {
  import opened Chords
  import opened PitchRing
  import opened GenreWeights
  import opened EdgeMaps
  import opened Tonnetz
  import opened Progressions

  // ---------------------------------------------------------------------------------
  // The chord directory, as values

  /** The directory's keys, in insertion order, after inserting `cs` in order under their
      text names: a name already present keeps its place. */
  function Names(cs: seq<Chord>): seq<string> {
    if cs == [] then []
    else
      var ks := Names(cs[..|cs| - 1]);
      if Encode(cs[|cs| - 1]) in ks then ks else ks + [Encode(cs[|cs| - 1])]
  }

  /** The directory after inserting `cs` in order under their text names: a later chord
      under the same name replaces the earlier one. */
  function Directory(cs: seq<Chord>): map<string, Chord> {
    if cs == [] then map[] else Directory(cs[..|cs| - 1])[Encode(cs[|cs| - 1]) := cs[|cs| - 1]]
  }

  /** When no two chords share a text name, the directory lists each chord once, in
      insertion order, under its own name. */
  lemma DirectoryDistinct(cs: seq<Chord>)
    requires forall i, j :: 0 <= i < j < |cs| ==> Encode(cs[i]) != Encode(cs[j])
    ensures |Names(cs)| == |cs|
    ensures forall k :: 0 <= k < |cs| ==> Names(cs)[k] == Encode(cs[k])
    ensures forall k :: 0 <= k < |cs| ==> Encode(cs[k]) in Directory(cs) && Directory(cs)[Encode(cs[k])] == cs[k]
  {
    NamesDistinct(cs);
    DirectoryHolds(cs);
  }

  lemma {:induction false} NamesDistinct(cs: seq<Chord>)
    requires forall i, j :: 0 <= i < j < |cs| ==> Encode(cs[i]) != Encode(cs[j])
    ensures |Names(cs)| == |cs|
    ensures forall k :: 0 <= k < |cs| ==> Names(cs)[k] == Encode(cs[k])
  {
    if cs != [] {
      var n := |cs| - 1;
      var pre := cs[..n];
      assert forall k :: 0 <= k < n ==> pre[k] == cs[k];
      NamesDistinct(pre);
      var ks := Names(pre);
      assert Encode(cs[n]) !in ks by {
        forall k | 0 <= k < |ks| ensures ks[k] != Encode(cs[n]) {
          assert ks[k] == Encode(cs[k]);
        }
      }
      assert Names(cs) == ks + [Encode(cs[n])];
    }
  }

  lemma {:induction false} DirectoryHolds(cs: seq<Chord>)
    requires forall i, j :: 0 <= i < j < |cs| ==> Encode(cs[i]) != Encode(cs[j])
    ensures forall k :: 0 <= k < |cs| ==> Encode(cs[k]) in Directory(cs) && Directory(cs)[Encode(cs[k])] == cs[k]
  {
    if cs != [] {
      var n := |cs| - 1;
      var pre := cs[..n];
      assert forall k :: 0 <= k < n ==> pre[k] == cs[k];
      DirectoryHolds(pre);
      assert Directory(cs) == Directory(pre)[Encode(cs[n]) := cs[n]];
      forall k | 0 <= k < |cs|
        ensures Encode(cs[k]) in Directory(cs) && Directory(cs)[Encode(cs[k])] == cs[k]
      {
        if k < n {
          assert Encode(cs[k]) != Encode(cs[n]);
          assert pre[k] == cs[k];
        }
      }
    }
  }

  /** The directory of the Tonnetz build holds 36 names. */
  lemma DirectorySize()
    ensures |Names(BuildOrder())| == 36
  {
    OrderShape();
    OrderNamesDistinct();
    DirectoryDistinct(BuildOrder());
  }

  /** Key `k` of the Tonnetz build's directory is the name of the `k`-th chord built, and
      holds that chord. */
  lemma DirectoryAt(k: int)
    requires 0 <= k < 36
    ensures |Names(BuildOrder())| == 36 && Names(BuildOrder())[k] in Directory(BuildOrder())
    ensures Directory(BuildOrder())[Names(BuildOrder())[k]] == BuildOrder()[k]
  {
    OrderShape();
    OrderNamesDistinct();
    DirectoryDistinct(BuildOrder());
  }

  /** The chords inserted so far, as a set. */
  function Elements(cs: seq<Chord>): set<Chord> {
    set c | c in cs
  }

  /** Inserting one more chord: the directory, its key order and the vertex set each take
      one step. */
  lemma InsertStep(cs: seq<Chord>, k: int)
    requires 0 <= k < |cs|
    ensures Names(cs[..k + 1]) == (if Encode(cs[k]) in Names(cs[..k]) then Names(cs[..k]) else Names(cs[..k]) + [Encode(cs[k])])
    ensures Directory(cs[..k + 1]) == Directory(cs[..k])[Encode(cs[k]) := cs[k]]
    ensures Elements(cs[..k + 1]) == Elements(cs[..k]) + {cs[k]}
  {
    assert cs[..k + 1][..k] == cs[..k];
    assert cs[..k + 1] == cs[..k] + [cs[k]];
  }

  /** The `q`-th quality of the `n`-th note is the next chord of the build order, and
      inserting it takes the directory, its key order and the vertex set one step on. */
  lemma BuildStep(n: int, q: int, keys: seq<string>, dir: map<string, Chord>, vs: set<Chord>)
    requires 0 <= n < 12 && 0 <= q < 3
    requires keys == Names(BuildOrder()[..3 * n + q]) && dir == Directory(BuildOrder()[..3 * n + q])
    requires vs == Elements(BuildOrder()[..3 * n + q])
    ensures (if Encode(Chord(Notes[n], TriadQualities[q])) in keys then keys else keys + [Encode(Chord(Notes[n], TriadQualities[q]))])
            == Names(BuildOrder()[..3 * n + q + 1])
    ensures dir[Encode(Chord(Notes[n], TriadQualities[q])) := Chord(Notes[n], TriadQualities[q])] == Directory(BuildOrder()[..3 * n + q + 1])
    ensures vs + {Chord(Notes[n], TriadQualities[q])} == Elements(BuildOrder()[..3 * n + q + 1])
  {
    NoteOfAt(n, q);
    OrderAt(3 * n + q);
    InsertStep(BuildOrder(), 3 * n + q);
  }

  /** The inserted chords of the whole build are the vertex set. */
  lemma BuiltVertices()
    ensures BuildOrder()[..36] == BuildOrder()
    ensures Elements(BuildOrder()) == Vertices()
  {
    OrderShape();
    OrderCovers();
    SetFromSeq(BuildOrder(), Vertices());
  }

  /** After the edge loop has visited all 36 chords, the edges are the Tonnetz edges. */
  lemma SweptAll()
    ensures EdgesFrom(BuildOrder()[..36], Vertices()) == TonnetzEdges()
  {
    FullSlice(BuildOrder(), 36);
  }

  /** A prefix as long as the whole sequence is the sequence. */
  lemma FullSlice<T>(s: seq<T>, n: int)
    requires n == |s|
    ensures s[..n] == s
  {
  }

  // ---------------------------------------------------------------------------------
  // The graph object

  class TonnetzGraph {
    /** The graph's vertices. */
    var nodes: set<Chord>
    /** The graph's edge attributes, under both orientations of each edge. */
    var edges: EdgeMap
    /** The keys of `chordNodes`, in insertion order (the order the source's dictionary
        iterates them). */
    var chordKeys: seq<string>
    /** The chord directory: each built chord under its text name. */
    var chordNodes: map<string, Chord>
    /** The genre tables by genre name. */
    var genreWeights: map<string, Table>

    /** The state the constructor leaves: the 36 vertices, the Tonnetz edges, the
        directory of the build and the five genre tables. */
    ghost predicate Valid()
      reads this
    {
      && nodes == Vertices()
      && edges == TonnetzEdges()
      && chordKeys == Names(BuildOrder())
      && chordNodes == Directory(BuildOrder())
      && genreWeights == Genres
    }

    constructor ()
      ensures Valid()
    {
      nodes := {};
      edges := map[];
      chordKeys := [];
      chordNodes := map[];
      genreWeights := Genres;
      new;
      BuildTonnetz();
      BuiltValid();
    }

    /** The builder's final state, with the tables assigned, is the valid state. */
    lemma BuiltValid()
      requires nodes == Vertices() && edges == TonnetzEdges()
      requires chordKeys == Names(BuildOrder()) && chordNodes == Directory(BuildOrder())
      requires genreWeights == Genres
      ensures Valid()
    {
    }

    /** The dictionary assignment `chord_nodes[str(c)] = c`. */
    method PutChordNode(c: Chord)
      modifies this
      ensures chordNodes == old(chordNodes)[Encode(c) := c]
      ensures chordKeys == if Encode(c) in old(chordKeys) then old(chordKeys) else old(chordKeys) + [Encode(c)]
      ensures nodes == old(nodes) && edges == old(edges) && genreWeights == old(genreWeights)
    {
      var name := Encode(c);
      if name !in chordKeys {
        chordKeys := chordKeys + [name];
      }
      chordNodes := chordNodes[name := c];
    }

    /** networkx's `add_node(c)`. */
    method AddNode(c: Chord)
      modifies this
      ensures nodes == old(nodes) + {c}
      ensures edges == old(edges) && chordKeys == old(chordKeys) && chordNodes == old(chordNodes)
      ensures genreWeights == old(genreWeights)
    {
      nodes := nodes + {c};
    }

    /** networkx's `add_edge(a, b, ...)`: both endpoints become vertices, and the pair's
        attributes, in both orientations, become `e` (replacing any earlier ones). */
    method AddEdge(a: Chord, b: Chord, e: Edge)
      modifies this
      ensures edges == Join(old(edges), a, b, e)
      ensures nodes == old(nodes) + {a, b}
      ensures chordKeys == old(chordKeys) && chordNodes == old(chordNodes)
      ensures genreWeights == old(genreWeights)
    {
      edges := edges[(a, b) := e];
      edges := edges[(b, a) := e];
      nodes := nodes + {a, b};
    }

    /** The builder: every note with major, minor and diminished, put in the directory and
        added as a vertex, then the edges. */
    method BuildTonnetz()
      requires nodes == {} && edges == map[] && chordKeys == [] && chordNodes == map[]
      modifies this
      ensures nodes == Vertices() && edges == TonnetzEdges()
      ensures chordKeys == Names(BuildOrder()) && chordNodes == Directory(BuildOrder())
      ensures genreWeights == old(genreWeights)
    {
      for n := 0 to |Notes|
        invariant nodes == Elements(BuildOrder()[..3 * n])
        invariant chordKeys == Names(BuildOrder()[..3 * n])
        invariant chordNodes == Directory(BuildOrder()[..3 * n])
        invariant edges == map[] && genreWeights == old(genreWeights)
      {
        for q := 0 to |TriadQualities|
          invariant nodes == Elements(BuildOrder()[..3 * n + q])
          invariant chordKeys == Names(BuildOrder()[..3 * n + q])
          invariant chordNodes == Directory(BuildOrder()[..3 * n + q])
          invariant edges == map[] && genreWeights == old(genreWeights)
        {
          var chord := Chord(Notes[n], TriadQualities[q]);
          BuildStep(n, q, chordKeys, chordNodes, nodes);
          PutChordNode(chord);
          AddNode(chord);
        }
      }
      BuiltVertices();
      AddTonnetzEdges();
    }

    /** The edge loop: for every chord of the directory, in key order, the guarded
        additions of its edges. */
    method AddTonnetzEdges()
      requires nodes == Vertices() && edges == map[]
      requires chordKeys == Names(BuildOrder()) && chordNodes == Directory(BuildOrder())
      modifies this
      ensures edges == TonnetzEdges()
      ensures nodes == old(nodes) && chordKeys == old(chordKeys) && chordNodes == old(chordNodes)
      ensures genreWeights == old(genreWeights)
    {
      DirectorySize();
      var i := 0;
      while i < |chordKeys|
        invariant 0 <= i <= |chordKeys| == 36
        invariant edges == EdgesFrom(BuildOrder()[..i], nodes)
        invariant nodes == old(nodes) && chordKeys == old(chordKeys) && chordNodes == old(chordNodes)
        invariant genreWeights == old(genreWeights)
      {
        AddEdgesAt(i);
        i := i + 1;
      }
      SweptAll();
    }

    /** One pass of the edge loop: the chord under the `i`-th key adds its edges over
        those of the chords before it. */
    method AddEdgesAt(i: int)
      requires 0 <= i < 36 && nodes == Vertices()
      requires chordKeys == Names(BuildOrder()) && chordNodes == Directory(BuildOrder())
      requires edges == EdgesFrom(BuildOrder()[..i], nodes)
      modifies this
      ensures edges == EdgesFrom(BuildOrder()[..i + 1], nodes)
      ensures nodes == old(nodes) && chordKeys == old(chordKeys) && chordNodes == old(chordNodes)
      ensures genreWeights == old(genreWeights)
    {
      DirectoryAt(i);
      OrderWrites(i);
      AddEdgesOf(chordNodes[chordKeys[i]]);
      StepUnion(BuildOrder()[i], nodes, old(edges));
      SweepStep(Writes(nodes), BuildOrder(), i);
    }

    /** The edge loop's body for one chord: the parallel and relative edges of a major
        chord, the leading-tone edge of a minor one, then the fifth and the fourth, each
        added only when its other end is a vertex. */
    method AddEdgesOf(chord: Chord)
      requires chord.root in Notes && chord in nodes
      modifies this
      ensures edges == AddChordEdges(chord, nodes, old(edges))
      ensures nodes == old(nodes) && chordKeys == old(chordKeys) && chordNodes == old(chordNodes)
      ensures genreWeights == old(genreWeights)
    {
      ghost var e0 := edges;
      if chord.quality == Major {
        AddEdgeToVertex(chord, Chord(chord.root, Minor), Edge(P, 1.0));
      }
      ghost var e1 := edges;
      assert e1 == Put(e0, chord.quality == Major && ParallelOf(chord) in nodes, chord, ParallelOf(chord), Edge(P, 1.0));
      if chord.quality == Major {
        AddEdgeToVertex(chord, Chord(RelativeMinor(chord.root), Minor), Edge(R, 0.9));
      }
      ghost var e2 := edges;
      assert e2 == Put(e1, chord.quality == Major && RelativeOf(chord) in nodes, chord, RelativeOf(chord), Edge(R, 0.9));
      if chord.quality == Minor {
        AddEdgeToVertex(chord, Chord(LeadingToneMajor(chord.root), Major), Edge(L, 0.8));
      }
      ghost var e3 := edges;
      assert e3 == Put(e2, chord.quality == Minor && LeadingOf(chord) in nodes, chord, LeadingOf(chord), Edge(L, 0.8));
      AddEdgeToVertex(chord, Chord(Fifth(chord.root), chord.quality), Edge(V, 0.9));
      AddEdgeToVertex(chord, Chord(Fourth(chord.root), chord.quality), Edge(IV, 0.7));
      assert edges == AddRules(e0, chord, nodes, TargetsOf(chord));
    }

    /** One guarded addition: the edge from vertex `a` to `b` when `b` is a vertex. */
    method AddEdgeToVertex(a: Chord, b: Chord, e: Edge)
      requires a in nodes
      modifies this
      ensures edges == Put(old(edges), b in old(nodes), a, b, e)
      ensures nodes == old(nodes) && chordKeys == old(chordKeys) && chordNodes == old(chordNodes)
      ensures genreWeights == old(genreWeights)
    {
      if b in nodes {
        AddEdge(a, b, e);
      }
    }

    /** networkx's `neighbors(c)`: every chord joined to `c`, each once, in some order. */
    method Neighbors(c: Chord) returns (ns: seq<Chord>)
      ensures forall b :: b in ns <==> Adjacent(edges, c, b)
      ensures forall i, j :: 0 <= i < j < |ns| ==> ns[i] != ns[j]
    {
      var rest := set k | k in edges && k.0 == c :: k.1;
      ns := [];
      while rest != {}
        invariant forall b :: b in ns || b in rest <==> Adjacent(edges, c, b)
        invariant forall b :: b in ns ==> b !in rest
        invariant forall i, j :: 0 <= i < j < |ns| ==> ns[i] != ns[j]
        decreases |rest|
      {
        var b :| b in rest;
        ns := ns + [b];
        rest := rest - {b};
      }
    }

    /** The generator. A start chord that is not a vertex yields the start text alone.
        Otherwise the progression has `length` chords (at least one), starts with the
        start chord's name and spells, in canonical names, a walk along the graph's edges
        whose every step scores positively under the genre's table. */
    method GenerateProgression(start: string, length: int, draw: Draw, genre: string := "pop") returns (progression: seq<string>)
      requires Valid() && FairDraw(draw)
      ensures Parse(start) !in Vertices() ==> progression == [start]
      ensures Parse(start) in Vertices() ==>
        && |progression| == (if length > 1 then length else 1)
        && progression[0] == Encode(Parse(start))
        && ScoredWalk(TonnetzEdges(), TableFor(genre), ChordsOf(progression))
        && Spelled(ChordsOf(progression)) == progression
    {
      var current := Parse(start);
      if current !in nodes {
        return [start];
      }
      PopFallback(genre);
      var weights := if genre in genreWeights then genreWeights[genre] else genreWeights["pop"];
      TonnetzWalkable();
      progression := WalkFrom(current, length, weights, draw);
    }

    /** The generator's loop from vertex `current`: `length - 1` further chords (none when
        `length` is below two), each drawn among the neighbours of the one before. */
    method WalkFrom(current: Chord, length: int, t: Table, draw: Draw) returns (progression: seq<string>)
      requires Walkable(edges) && current in Vertices() && IsGenreTable(t) && FairDraw(draw)
      ensures |progression| == (if length > 1 then length else 1)
      ensures progression[0] == Encode(current)
      ensures ScoredWalk(edges, t, ChordsOf(progression))
      ensures Spelled(ChordsOf(progression)) == progression
    {
      var chord := current;
      progression := [Encode(chord)];
      ghost var walk := [chord];
      SpelledOne(chord);
      var step := 0;
      while step < length - 1
        invariant 0 <= step <= (if length > 1 then length - 1 else 0)
        invariant |walk| == step + 1 && walk[0] == current && walk[step] == chord
        invariant ScoredWalk(edges, t, walk) && progression == Spelled(walk)
      {
        chord := NextChord(chord, t, step, draw);
        ScoredWalkExtend(edges, t, walk, chord);
        SpelledExtend(walk, chord);
        walk := walk + [chord];
        progression := progression + [Encode(chord)];
        step := step + 1;
      }
      SpelledParses(walk);
    }

    /** One step of the generator: the neighbours of `current`, their scores under table
        `t`, and the neighbour the draw picks, which is a vertex reached by a scored step.
        (A vertex always has neighbours and its scores a positive total, so the source's
        early exit and its uniform fallback draw are never taken.) */
    method NextChord(current: Chord, t: Table, step: nat, draw: Draw) returns (next: Chord)
      requires Walkable(edges) && current in Vertices()
      requires IsGenreTable(t) && FairDraw(draw)
      ensures ScoredStep(edges, t, current, next) && next in Vertices()
    {
      var neighbors := Neighbors(current);
      assert HasNeighbor(edges, current);
      ghost var some :| (current, some) in edges;
      assert Adjacent(edges, current, some);
      var scores := NeighborScores(current, neighbors, t);
      SumPositive(scores);
      var index := 0;
      if Sum(scores) > 0.0 {
        index := draw(step, neighbors, scores);
        DrawInRange(draw, step, neighbors, scores);
      } else {
        assert false;
      }
      next := neighbors[index];
    }

    /** The generator's weighing of the neighbours of `current`: each neighbour's score
        under table `t`, all of them positive. */
    method NeighborScores(current: Chord, neighbors: seq<Chord>, t: Table) returns (scores: seq<real>)
      requires IsGenreTable(t) && WeightsPositive(edges)
      requires forall k :: 0 <= k < |neighbors| ==> Adjacent(edges, current, neighbors[k])
      ensures |scores| == |neighbors|
      ensures forall k :: 0 <= k < |neighbors| ==>
        Adjacent(edges, current, neighbors[k])
        && scores[k] == NeighborScore(edges, t, current, neighbors[k]) && scores[k] > 0.0
    {
      scores := [];
      for j := 0 to |neighbors|
        invariant |scores| == j
        invariant forall k :: 0 <= k < j ==>
          scores[k] == NeighborScore(edges, t, current, neighbors[k]) && scores[k] > 0.0
      {
        var neighbor := neighbors[j];
        LookupInRange(t, (current.quality, neighbor.quality), 0.5);
        EdgeScoreBounds(edges, t, current, neighbor);
        scores := scores + [NeighborScore(edges, t, current, neighbor)];
      }
    }

    /** The classifier: for every genre, the mean table weight over the progression's
        adjacent pairs of qualities (0.1 for a pair the table does not list), and 0.0 for
        every genre when the progression has fewer than two chords. */
    method ClassifyGenre(progression: seq<string>) returns (scores: map<string, real>)
      requires genreWeights.Keys == Genres.Keys
      ensures scores.Keys == genreWeights.Keys
      ensures forall g :: g in scores ==> scores[g] == GenreScore(genreWeights[g], progression)
    {
      if |progression| < 2 {
        return map g | g in genreWeights :: 0.0;
      }
      var genres := GenreKeys();
      scores := ScoreAll(progression, genres);
    }

    /** The classifier past its early exit: sum every genre's weights over the pairs,
        visiting the genres in the order `genres` lists them, then divide by the number
        of pairs. */
    method ScoreAll(progression: seq<string>, genres: seq<string>) returns (scores: map<string, real>)
      requires |progression| >= 2
      requires forall g :: g in genres <==> g in genreWeights
      requires forall i, j :: 0 <= i < j < |genres| ==> genres[i] != genres[j]
      ensures scores.Keys == genreWeights.Keys
      ensures forall g :: g in scores ==> scores[g] == GenreScore(genreWeights[g], progression)
    {
      var totals := SumTransitions(progression, genres);
      scores := DivideAll(totals, genres, |progression| - 1);
    }

    /** The classifier's loop over adjacent pairs: per genre, the sum of its table's
        weights for the pairs' qualities. */
    method SumTransitions(progression: seq<string>, genres: seq<string>) returns (scores: map<string, real>)
      requires |progression| >= 2
      requires forall g :: g in genres <==> g in genreWeights
      requires forall i, j :: 0 <= i < j < |genres| ==> genres[i] != genres[j]
      ensures scores.Keys == genreWeights.Keys
      ensures forall g :: g in scores ==> scores[g] == TransitionSum(genreWeights[g], Qualities(progression))
    {
      scores := map g | g in genreWeights :: 0.0;
      ghost var qs := Qualities(progression);
      for i := 0 to |progression| - 1
        invariant scores.Keys == genreWeights.Keys
        invariant forall g :: g in scores ==> scores[g] == TransitionSum(genreWeights[g], qs[..i + 1])
      {
        scores := AddPair(scores, progression, genres, i);
      }
      assert qs[..|progression|] == qs;
    }

    /** One pass of the classifier's loop: parse chords `i` and `i + 1` and add the
        weight of their pair of qualities to every genre's total. */
    method AddPair(totals: map<string, real>, progression: seq<string>, genres: seq<string>, i: int)
      returns (scores: map<string, real>)
      requires 0 <= i && i + 1 < |progression|
      requires forall g :: g in genres <==> g in genreWeights
      requires forall i, j :: 0 <= i < j < |genres| ==> genres[i] != genres[j]
      requires totals.Keys == genreWeights.Keys
      requires forall g :: g in totals ==> totals[g] == TransitionSum(genreWeights[g], Qualities(progression)[..i + 1])
      ensures scores.Keys == genreWeights.Keys
      ensures forall g :: g in scores ==> scores[g] == TransitionSum(genreWeights[g], Qualities(progression)[..i + 2])
    {
      var current := Parse(progression[i]);
      var nextChord := Parse(progression[i + 1]);
      ghost var qs := Qualities(progression);
      assert current.quality == qs[i] && nextChord.quality == qs[i + 1];
      scores := AddToAll(totals, genres, (current.quality, nextChord.quality));
      SumsStep(genreWeights, totals, scores, qs, i);
    }

    /** The classifier's inner loop: every genre's running total grows by its table's
        weight for `transition` (0.1 when not listed). */
    method AddToAll(totals: map<string, real>, genres: seq<string>, transition: Transition) returns (scores: map<string, real>)
      requires totals.Keys == genreWeights.Keys
      requires forall g :: g in genres <==> g in genreWeights
      requires forall i, j :: 0 <= i < j < |genres| ==> genres[i] != genres[j]
      ensures scores.Keys == genreWeights.Keys
      ensures forall g :: g in scores ==> scores[g] == totals[g] + Lookup(genreWeights[g], transition, 0.1)
    {
      scores := totals;
      for k := 0 to |genres|
        invariant scores.Keys == genreWeights.Keys
        invariant forall j :: 0 <= j < k ==>
          scores[genres[j]] == totals[genres[j]] + Lookup(genreWeights[genres[j]], transition, 0.1)
        invariant forall j :: k <= j < |genres| ==> scores[genres[j]] == totals[genres[j]]
      {
        var genre := genres[k];
        assert forall j :: 0 <= j < |genres| && j != k ==> genres[j] != genre;
        scores := scores[genre := scores[genre] + Lookup(genreWeights[genre], transition, 0.1)];
      }
      forall g | g in scores ensures scores[g] == totals[g] + Lookup(genreWeights[g], transition, 0.1) {
        var j :| 0 <= j < |genres| && genres[j] == g;
      }
    }

    /** The classifier's last loop: every genre's total divided by the number of adjacent
        pairs. */
    method DivideAll(totals: map<string, real>, genres: seq<string>, count: nat) returns (scores: map<string, real>)
      requires totals.Keys == genreWeights.Keys && count > 0
      requires forall g :: g in genres <==> g in genreWeights
      requires forall i, j :: 0 <= i < j < |genres| ==> genres[i] != genres[j]
      ensures scores.Keys == genreWeights.Keys
      ensures forall g :: g in scores ==> scores[g] == totals[g] / count as real
    {
      scores := totals;
      for k := 0 to |genres|
        invariant scores.Keys == genreWeights.Keys
        invariant forall j :: 0 <= j < k ==> scores[genres[j]] == totals[genres[j]] / count as real
        invariant forall j :: k <= j < |genres| ==> scores[genres[j]] == totals[genres[j]]
      {
        var genre := genres[k];
        assert forall j :: 0 <= j < |genres| && j != k ==> genres[j] != genre;
        scores := scores[genre := scores[genre] / count as real];
      }
      forall g | g in scores ensures scores[g] == totals[g] / count as real {
        var j :| 0 <= j < |genres| && genres[j] == g;
      }
    }

    /** The genre names, each once, in the order the table dictionary lists them (the
        source's iteration over `genre_weights`). */
    method GenreKeys() returns (genres: seq<string>)
      requires genreWeights.Keys == Genres.Keys
      ensures genres == GenreNames
      ensures forall g :: g in genres <==> g in genreWeights
      ensures forall i, j :: 0 <= i < j < |genres| ==> genres[i] != genres[j]
    {
      GenreNamesExact();
      genres := GenreNames;
    }
  }
}
