# Tonnetz chord-progression generator, modelled in Dafny

This project models the core of `generate_chord_progression.py`. That core is the
`ChordNode` value and its text form, and the `TonnetzGraph` object. The graph object:

- builds a Tonnetz graph of 36 triads (12 roots, each major, minor or diminished);
- joins the triads by the five neo-Riemannian-style rules P, R, L, V and IV;
- generates progressions as genre-weighted random walks on the graph;
- classifies a progression by genre, as the mean of genre-table weights over its adjacent
  pairs of chord qualities.

Modules, one per part of the program:

- `Chords` (`chords.dfy`): the chord datatype, `__str__` as `Encode`, `_parse_chord` as
  `Parse`, with Python's `str.strip` written out over Unicode white space.
- `PitchRing` (`pitch_ring.dfy`): the 12 note names, `list.index`, Python's `% 12`, and
  the four offset helpers `_get_relative_minor`, `_get_leading_tone_major`, `_get_fifth`
  and `_get_fourth`.
- `GenreWeights` (`genre_weights.dfy`): the five genre tables, with their decimal
  literals read as exact reals, and the lookups with a default.
- `EdgeMaps` (`edge_maps.dfy`): an undirected graph's edge attributes. They are a map
  from ordered pairs, written in both orientations, where a later `add_edge` on the
  same pair replaces the earlier attributes. The module also holds the body of the edge
  loop for an arbitrary chord, and the loop over a sequence of chords with
  last-write-wins.
- `Tonnetz` (`tonnetz.dfy`): the finished graph as values. `Vertices()` is the vertex
  set, `BuildOrder()` the order in which the builder inserts chords and the edge loop
  visits them, and `TonnetzEdges()` the edge map the loop leaves. It holds the
  structural facts about that graph, including which rule's label survives on each
  pair.
- `Progressions` (`progressions.dfy`): the neighbour score, the random draw and the
  walk predicates for the generator, and the per-genre score of a progression for the
  classifier.
- `TonnetzGraphs` (`tonnetz_graph.dfy`): the `TonnetzGraph` class. Its fields are the
  vertex set, the edge map, the chord directory `chord_nodes` with its key order, and
  the genre tables. The constructor, the builder loops, the generator's walk and the
  classifier's accumulation are imperative methods. Each is proved against the value
  definitions in `Tonnetz` and `Progressions`: the constructor leaves exactly these
  vertices, edges and directory.

The random choice `np.random.choice` is a parameter `draw` of the generator. For a step
number, a neighbour list and its scores, it returns an index. `FairDraw` states the one
fact the model relies on: when the scores have a positive total, it returns an index of
the list whose score is positive. A zero-probability neighbour is never drawn.

Where the source and its design description disagree, the model follows the source:

- An unknown genre name makes the generator fall back to the pop table. The caller
  does not have to substitute one.
- Any `length` is accepted, and the result has `max(length, 1)` chords.
- Every weight in the genre tables lies in [0.1, 0.9], not merely in [0, 1].
- The classifier's "skip a pair that fails to parse" branch cannot be taken. Parsing a
  string never fails: text that does not end in a quality mark reads as major.
- The generator's early exit on a vertex without neighbours and its uniform fallback when
  the scores total zero are both unreachable. Every vertex has at least two neighbours,
  and every score is positive. Both facts are proved.

## Model

| member | source | states |
|---|---|---|
| Chords.Parse | generate_chord_progression.py:136-146 | Parsing strips white space, then reads a trailing degree sign, `+` or `m` as diminished, augmented or minor. Any other text is major. The result always has one of the four named qualities. |
| Chords.StripMeaning | generate_chord_progression.py:137 | `strip()` returns a contiguous part of its input. Everything before and after that part is white space, and the part itself has no white space at either end. So it is the input without its surrounding white space. |
| Chords.TrimLeft | generate_chord_progression.py:137 | Leading-space removal returns a suffix of the input. Everything it drops is white space, and what remains does not start with white space. |
| Chords.TrimRight | generate_chord_progression.py:137 | Trailing-space removal returns a prefix of the input. Everything it drops is white space, and what remains does not end with white space. |
| Chords.ParseEncode | generate_chord_progression.py:10-19 | Decoding inverts `__str__` for every chord of a named quality whose root has no white space and does not end in a quality mark. |
| Chords.EncodeParse | generate_chord_progression.py:136-146 | Re-encoding a parsed text gives back the stripped text: the codec loses only the surrounding white space. |
| Chords.EncodeInjective | generate_chord_progression.py:21-27 | On such chords, two text names are equal exactly when the chords are equal by `__eq__` (same root and quality). So the directory keyed by `str(chord)` and the vertex set keyed by the chord agree. |
| Chords.StripSurroundingSpace | generate_chord_progression.py:137 | Stripping ignores any white space added before or after the text. |
| Chords.ParseIgnoresSurroundingSpace | generate_chord_progression.py:136-146 | Parsing ignores any white space added before or after the chord text. |
| Tonnetz.RingRoundTrip | generate_chord_progression.py:10-19 | Every chord on one of the 12 note names, of any of the four named qualities (for example C#m), parses back from its text name. |
| PitchRing.NotesDistinct | generate_chord_progression.py:32 | The note list has 12 names and no name twice, so `notes.index` gives a name's own position. |
| PitchRing.IndexOf | generate_chord_progression.py:121 | `list.index` returns the first position holding the name. |
| PitchRing.Index | generate_chord_progression.py:129 | A ring root's index lies in 0..11 and names that root. |
| PitchRing.Wrap | generate_chord_progression.py:122 | The helpers' `% 12` on indices from -12 to 23 gives Python's non-negative remainder. |
| PitchRing.RelativeMinor | generate_chord_progression.py:120-122 | The relative minor's root is a ring note three semitones below, wrapping around. |
| PitchRing.LeadingToneMajor | generate_chord_progression.py:124-126 | The leading-tone major's root is a ring note three semitones above, wrapping around. |
| PitchRing.Fifth | generate_chord_progression.py:128-130 | The fifth's root is a ring note seven semitones above, wrapping around. |
| PitchRing.Fourth | generate_chord_progression.py:132-134 | The fourth's root is a ring note five semitones above, wrapping around. |
| PitchRing.IndexInjective | generate_chord_progression.py:121 | Two ring roots have the same index exactly when they are the same root. |
| PitchRing.FifthFourthInverse | generate_chord_progression.py:128-134 | A fifth up and a fourth up undo each other, in both orders. |
| PitchRing.RelativeLeadingInverse | generate_chord_progression.py:120-126 | The relative-minor and leading-tone-major offsets undo each other, in both orders. |
| PitchRing.OffsetsMove | generate_chord_progression.py:120-134 | No offset maps a root to itself, and a root's fifth and fourth differ. |
| GenreWeights.TableFor | generate_chord_progression.py:155 | The generator's table is one of the five. It is the named genre's table when the name is known, and the pop table otherwise. |
| GenreWeights.PopFallback | generate_chord_progression.py:155 | `genre_weights.get(genre, genre_weights['pop'])` selects exactly `TableFor(genre)`. |
| GenreWeights.GenreNamesExact | generate_chord_progression.py:37-85 | Five distinct genre names, which are exactly the tables' keys. |
| GenreWeights.GenresAreTables | generate_chord_progression.py:37-85 | Every genre name maps to one of the five tables. |
| GenreWeights.TableWeightsInRange | generate_chord_progression.py:37-85 | Every listed weight of every genre table lies in [0.1, 0.9]. |
| GenreWeights.LookupInRange | generate_chord_progression.py:210 | A lookup in a genre table with a default in [0.1, 0.9] (0.5 and 0.1 are the ones used) lies in [0.1, 0.9]. |
| EdgeMaps.HitEdgeMajorToMinor | generate_chord_progression.py:97-105 | From a major chord, a minor chord is labelled R when it is the relative minor, and P otherwise. |
| EdgeMaps.HitEdgeMinorToMajor | generate_chord_progression.py:106-110 | From a minor chord, a major chord its rules reach is labelled L. |
| EdgeMaps.PutUnion | generate_chord_progression.py:100 | A guarded `add_edge` only overwrites its own pair. |
| EdgeMaps.AddRulesUnion | generate_chord_progression.py:96-118 | The edge loop's body for one chord overwrites exactly what it would write into an empty graph. |
| EdgeMaps.AddRulesKeys | generate_chord_progression.py:96-118 | Every pair the loop body writes joins the chord, in one orientation or the other, to a vertex one of its applicable rules reaches. |
| EdgeMaps.AddRulesValue | generate_chord_progression.py:96-118 | Every vertex a rule of the chord reaches is joined to it in both orientations. The pair carries the attributes of the last rule, in source order, that reaches it. |
| EdgeMaps.AddRulesShape | generate_chord_progression.py:96-118 | When no rule reaches the chord itself, what the body writes is symmetric, with weights in (0, 1]. |
| EdgeMaps.SweepStep | generate_chord_progression.py:96 | Visiting one more chord lays its writes over everything before. |
| EdgeMaps.SweepKey | generate_chord_progression.py:96 | A pair written at some visit is present after the loop. |
| EdgeMaps.SweepWriter | generate_chord_progression.py:96 | Every pair present after the loop was written at some visit, and holds what that visit wrote. |
| EdgeMaps.SweepLast | generate_chord_progression.py:96 | A pair holds what the last visit that wrote it wrote: last write wins. |
| EdgeMaps.SymmetricUnion | generate_chord_progression.py:96 | Laying a symmetric map over a symmetric map keeps it symmetric. |
| EdgeMaps.SweepShape | generate_chord_progression.py:96-118 | When every visit's writes are symmetric with weights in (0, 1], so is the whole loop's result. |
| Tonnetz.QualityIndex | generate_chord_progression.py:89 | A triad quality's position in the inner loop's list `['major', 'minor', 'dim']`. |
| Tonnetz.QualityIndexOf | generate_chord_progression.py:89 | The position of the `k`-th listed quality is `k`. |
| Tonnetz.NoteOf | generate_chord_progression.py:88 | The outer loop's note index for the `x`-th insertion is `x` divided by three. |
| Tonnetz.NoteOfAt | generate_chord_progression.py:88-89 | The insertion `3 i + q` belongs to note `i`. |
| Tonnetz.VertexShape | generate_chord_progression.py:87-93 | A chord is a vertex exactly when its root is one of the 12 notes and its quality is major, minor or diminished. So no augmented chord is a vertex. |
| Tonnetz.VertexCount | generate_chord_progression.py:87-93 | There are exactly 36 vertices. |
| Tonnetz.OrderAt | generate_chord_progression.py:88-90 | The `x`-th inserted chord is the `x mod 3`-th quality on the `x / 3`-th note. |
| Tonnetz.OrderShape | generate_chord_progression.py:88-90 | The build order lists 36 vertices, each with a ring root. |
| Tonnetz.OrderPos | generate_chord_progression.py:88-90 | Every vertex appears in the build order at position `3 × note index + quality index`, and nowhere else. |
| Tonnetz.OrderOnly | generate_chord_progression.py:88-90 | A chord found at some position of the build order sits at its computed position. |
| Tonnetz.PosOfOrder | generate_chord_progression.py:88-90 | The chord inserted `x`-th has position `x`. |
| Tonnetz.OrderCovers | generate_chord_progression.py:87-93 | Every vertex is inserted. |
| Tonnetz.OrderDistinct | generate_chord_progression.py:87-93 | No chord is inserted twice. |
| Tonnetz.NotesPlain | generate_chord_progression.py:32 | No note name holds white space or ends in a quality mark. |
| Tonnetz.VertexRoundTrip | generate_chord_progression.py:136-146 | Every vertex's text name parses back to the vertex. |
| Tonnetz.OrderNamesDistinct | generate_chord_progression.py:91 | Distinct insertions get distinct directory keys, so no `chord_nodes[str(chord)]` assignment overwrites another. |
| Tonnetz.RuleIrreflexive | generate_chord_progression.py:97-118 | No rule relates a chord to itself. |
| Tonnetz.TargetFacts | generate_chord_progression.py:97-118 | The parallel target keeps the root and becomes minor. The relative and leading targets move the root, to minor and to major respectively. The fifth and fourth keep the quality, move the root, and differ from each other. |
| Tonnetz.NoSelfRule | generate_chord_progression.py:97-118 | No applicable rule of a ring chord reaches that chord. |
| Tonnetz.StepUnion | generate_chord_progression.py:96-118 | Running the loop body for a chord overwrites exactly that chord's own writes. |
| Tonnetz.ChordEdgesKeys | generate_chord_progression.py:96-118 | Every pair a chord writes joins it to a vertex one of its rules reaches. |
| Tonnetz.ChordEdgesValue | generate_chord_progression.py:96-118 | Every rule target of a chord that is a vertex is joined to the chord in both orientations, labelled by the last rule that reaches it. |
| Tonnetz.ChordEdgesShape | generate_chord_progression.py:96-118 | One chord's writes are symmetric, with weights in (0, 1]. |
| Tonnetz.OrderWrites | generate_chord_progression.py:96 | The `j`-th chord the edge loop visits is a vertex, and writes its own rule edges. |
| Tonnetz.TonnetzShape | generate_chord_progression.py:95-118 | In the finished graph, both orientations of every edge carry the same attributes, and every weight lies in (0, 1]. |
| Tonnetz.RuleEdgePresent | generate_chord_progression.py:95-118 | Two vertices one rule relates are adjacent, in both directions. |
| Tonnetz.EdgeKeysSound | generate_chord_progression.py:95-118 | Every edge joins two distinct vertices that the rules relate. |
| Tonnetz.AdjacencyExact | generate_chord_progression.py:95-118 | Two chords are adjacent exactly when both are vertices and a rule relates them, in either direction. Adjacency has no self-loops and is symmetric. |
| Tonnetz.EdgeEndsAreVertices | generate_chord_progression.py:95-118 | Both ends of every edge are vertices. |
| Tonnetz.FifthAndFourthNeighbours | generate_chord_progression.py:111-118 | Every vertex has at least two neighbours, its same-quality chords a fifth and a fourth above, which differ from it and from each other. |
| Tonnetz.NoLaterWriter | generate_chord_progression.py:96-118 | A chord visited after `a` writes (a, b) only when `b` reaches `a` and comes later. |
| Tonnetz.FinalEdge | generate_chord_progression.py:96-118 | A pair ends up with the label of the rule applied at `a` when `b` does not reach back, or is visited earlier. Both orientations carry that label. |
| Tonnetz.ParallelEdges | generate_chord_progression.py:97-100 | Every major chord's edge to the minor chord on the same root keeps its P label and weight 1.0. |
| Tonnetz.ParallelRules | generate_chord_progression.py:97-110 | A major chord's rules reach its parallel minor with label P. No rule of the minor chord reaches back. |
| Tonnetz.MinorRuleNotMajor | generate_chord_progression.py:106-118 | No rule of a minor chord reaches the major chord on the same root. |
| Tonnetz.MajorRuleEdge | generate_chord_progression.py:97-118 | A minor chord reached from a major one is labelled R when it is the relative minor, and P otherwise. |
| Tonnetz.MinorRuleEdge | generate_chord_progression.py:106-118 | A major chord reached from a minor one is labelled L. |
| Tonnetz.RelativeRules | generate_chord_progression.py:101-110 | A major chord and its relative minor reach each other, by R (0.9) from the major and by L (0.8) from the minor. |
| Tonnetz.RelativeEdges | generate_chord_progression.py:101-110 | The relative-minor pair of a major chord ends up R 0.9 for the majors D# through B. For C, C# and D it ends up L 0.8, because their relative minors are visited later and overwrite it. |
| Tonnetz.FifthRules | generate_chord_progression.py:111-118 | A chord and its fifth reach each other: by V (0.9) from the chord, and by IV (0.7) from the fifth. |
| Tonnetz.FifthEdges | generate_chord_progression.py:111-118 | The pair of a chord and its fifth ends up V 0.9 for roots F through B, and IV 0.7 for roots C through E. |
| Progressions.ScorePositive | generate_chord_progression.py:165-171 | Every step along an edge scores edge weight × affinity², in (0, 0.81], under every genre table, with the affinity defaulting to 0.5. |
| Progressions.EdgeScoreBounds | generate_chord_progression.py:171 | With weight in (0, 1] and affinity in [0.1, 0.9], the score lies in (0, 0.81]. |
| Progressions.ProductBounds | generate_chord_progression.py:171 | The arithmetic behind the score bounds. |
| Progressions.SumPositive | generate_chord_progression.py:178-179 | A nonempty list of positive scores has a positive total, so `total_weight > 0` always holds. |
| Progressions.DrawInRange | generate_chord_progression.py:181 | A fair draw over scores with a positive total returns an index of the list with a positive score. |
| Progressions.TonnetzWalkable | generate_chord_progression.py:158-160 | The finished graph's weights are positive, and its edges lead to vertices. Every vertex has a neighbour, so `if not neighbors: break` is never taken. |
| Progressions.ScoredWalkExtend | generate_chord_progression.py:182-186 | A walk extended by a scored step to a vertex is still a scored walk. |
| Progressions.SpelledOne | generate_chord_progression.py:154 | One chord is spelled by its text name alone. |
| Progressions.SpelledExtend | generate_chord_progression.py:186 | Appending a chord appends its text name. |
| Progressions.SpelledParses | generate_chord_progression.py:154-186 | The text names of a walk through the vertices parse back to the walk. |
| Progressions.ParsesAt | generate_chord_progression.py:186 | Entry `k` of a walk's names parses back to entry `k` of the walk. |
| Progressions.TransitionSumStep | generate_chord_progression.py:202-210 | One more adjacent pair adds that pair's table weight, defaulting to 0.1, to the sum. |
| Progressions.SumsStep | generate_chord_progression.py:209-210 | One pass of the pair loop takes every genre's total from the first `i + 1` chords to the first `i + 2`. |
| Progressions.TransitionSumBounds | generate_chord_progression.py:202-210 | Over `n` adjacent pairs, a genre's sum lies between 0.1 n and 0.9 n. |
| Progressions.GenreScoreBounds | generate_chord_progression.py:194-220 | For every progression of two or more chords, every genre's score lies in [0.1, 0.9]. |
| Progressions.MeanBounds | generate_chord_progression.py:218 | A total between 0.1 n and 0.9 n has a mean between 0.1 and 0.9. |
| Progressions.ScoreSeesQualities | generate_chord_progression.py:202-210 | Two progressions whose chords parse to the same qualities score alike under every table, whatever their roots. |
| Progressions.RockOverHipHop | generate_chord_progression.py:194-220 | C, Am, F, G scores 0.8 for rock and 2/3 for hip-hop, so rock ranks above hip-hop. |
| Progressions.MeanOfThree | generate_chord_progression.py:215-218 | A four-chord progression's score is its sum divided by three. |
| Progressions.ExampleQualities | generate_chord_progression.py:204-207 | C, Am, F, G parse to major, minor, major, major. |
| Progressions.ParseLetter | generate_chord_progression.py:143-146 | A note letter, optionally followed by `m`, parses as the major or minor triad on that letter. |
| Progressions.ExampleSums | generate_chord_progression.py:50-74 | The pairs of major, minor, major, major sum to 2.4 under the rock table and to 2.0 under the hip-hop table. |
| TonnetzGraphs.DirectoryDistinct | generate_chord_progression.py:91 | When no two inserted chords share a text name, the directory lists each chord once, in insertion order, under its own name. |
| TonnetzGraphs.NamesDistinct | generate_chord_progression.py:91 | With distinct names, the directory's keys in insertion order are the chords' names in order. |
| TonnetzGraphs.DirectoryHolds | generate_chord_progression.py:91 | With distinct names, each chord's name maps to that chord. |
| TonnetzGraphs.DirectorySize | generate_chord_progression.py:87-93 | The builder's directory holds 36 keys. |
| TonnetzGraphs.DirectoryAt | generate_chord_progression.py:96 | The `k`-th value the edge loop reads from `chord_nodes.values()` is the `k`-th chord built. |
| TonnetzGraphs.InsertStep | generate_chord_progression.py:90-92 | Inserting one more chord takes the directory, its key order and the vertex set one step. |
| TonnetzGraphs.BuildStep | generate_chord_progression.py:88-92 | The inner loop's chord for note `n` and quality `q` is the next chord of the build order, and inserting it takes every part of the state one step on. |
| TonnetzGraphs.BuiltVertices | generate_chord_progression.py:87-93 | The builder's vertex set is exactly the 36 vertices. |
| TonnetzGraphs.SweptAll | generate_chord_progression.py:95-118 | After visiting all 36 chords, the edge map is the Tonnetz edge map. |
| TonnetzGraphs.TonnetzGraph.constructor | generate_chord_progression.py:30-35 | A new graph holds exactly the 36 vertices, the Tonnetz edges, the directory of the build and the five genre tables. |
| TonnetzGraphs.TonnetzGraph.PutChordNode | generate_chord_progression.py:91 | `chord_nodes[str(c)] = c` maps the name to the chord. A new key goes to the end of the key order, and an existing key keeps its place. Nothing else changes. |
| TonnetzGraphs.TonnetzGraph.AddNode | generate_chord_progression.py:92 | `add_node` adds the chord to the vertex set. Nothing else changes. |
| TonnetzGraphs.TonnetzGraph.AddEdge | generate_chord_progression.py:100 | `add_edge` replaces the pair's attributes in both orientations and adds both ends as vertices. Nothing else changes. |
| TonnetzGraphs.TonnetzGraph.BuildTonnetz | generate_chord_progression.py:87-93 | The builder leaves exactly the 36 vertices, the directory of the build in insertion order, and the Tonnetz edges. |
| TonnetzGraphs.TonnetzGraph.AddTonnetzEdges | generate_chord_progression.py:95-118 | The edge loop over the directory, starting from no edges, leaves exactly the Tonnetz edge map. Nothing else changes. |
| TonnetzGraphs.TonnetzGraph.AddEdgesAt | generate_chord_progression.py:96-118 | One pass of the edge loop takes the edge map from the first `i` chords' writes to the first `i + 1` chords'. |
| TonnetzGraphs.TonnetzGraph.AddEdgesOf | generate_chord_progression.py:97-118 | The loop body for one chord performs exactly the guarded P, R, L, V and IV additions, in source order. |
| TonnetzGraphs.TonnetzGraph.AddEdgeToVertex | generate_chord_progression.py:99-100 | An `add_edge` guarded by `in self.graph.nodes` adds the edge exactly when the target is a vertex. |
| TonnetzGraphs.TonnetzGraph.Neighbors | generate_chord_progression.py:158 | The neighbour list holds each chord adjacent to the current one exactly once, and nothing else. |
| TonnetzGraphs.TonnetzGraph.GenerateProgression | generate_chord_progression.py:148-192 | The genre defaults to `"pop"`. A start text that does not parse to a vertex yields `[start]`. Otherwise the result has `max(length, 1)` chords and starts with the parsed start's name. It spells, in canonical names that parse back, a walk along the graph's edges. Every step of the walk scores positively under `TableFor(genre)`. |
| TonnetzGraphs.TonnetzGraph.WalkFrom | generate_chord_progression.py:154-186 | The walk loop from a vertex appends `length - 1` chords, none when `length` is below two. Each is a scored step from the one before. |
| TonnetzGraphs.TonnetzGraph.NextChord | generate_chord_progression.py:158-184 | One step draws a neighbour reached by a step with a positive score. The empty-neighbour exit and the zero-total fallback are unreachable. |
| TonnetzGraphs.TonnetzGraph.NeighborScores | generate_chord_progression.py:163-172 | Every neighbour's score is edge weight × (table weight, default 0.5)², and is positive. |
| TonnetzGraphs.TonnetzGraph.ClassifyGenre | generate_chord_progression.py:194-220 | On a graph holding the five genre tables, as the constructor leaves it, every genre gets a score. With fewer than two chords every score is 0.0; otherwise a genre's score is its table's mean weight, default 0.1, over the adjacent pairs of qualities (`GenreScore`). |
| TonnetzGraphs.TonnetzGraph.ScoreAll | generate_chord_progression.py:202-218 | Past the early exit, every genre's score is its table's mean weight, default 0.1, over the adjacent pairs, whatever order the genres are visited in. |
| TonnetzGraphs.TonnetzGraph.SumTransitions | generate_chord_progression.py:198-213 | The pair loop leaves every genre's total at its table's weight sum over all adjacent pairs. |
| TonnetzGraphs.TonnetzGraph.AddPair | generate_chord_progression.py:204-210 | One pass parses chords `i` and `i + 1` and extends every genre's total by one pair. |
| TonnetzGraphs.TonnetzGraph.AddToAll | generate_chord_progression.py:209-210 | Every genre's total grows by its table's weight for the transition, default 0.1. |
| TonnetzGraphs.TonnetzGraph.DivideAll | generate_chord_progression.py:215-218 | Every genre's total is divided by the number of adjacent pairs. |
| TonnetzGraphs.TonnetzGraph.GenreKeys | generate_chord_progression.py:199 | The genre names come in the order the tables were inserted (jazz, rock, pop, hiphop, classical, lines 41-77). Each is listed once, and they are exactly the table keys. |

## Left out

- `visualize_graph`, `analyze_progression` and `main`: drawing, console output and the
  interactive input loop. They contain no logic beyond calls to the modelled operations.
- `representing_as_planar.py` is not part of this model. It is a fixed dataset handed to
  a planarity check and then drawn.
- `np.random.choice` and `np.random.randint`: the draw is the oracle parameter `draw`.
  The model does not represent the probability distribution or the normalisation
  `w / total_weight`, and proves nothing about sampling.
- Floating point: weights, scores and means are exact reals. Rounding in the source's
  float arithmetic is not modelled.
- The `except Exception` blocks: only the not-found branch of the generator is modelled,
  as the early return of `[start]`. No other exception can arise for string inputs over
  this graph, so the message printing and the classifier's skip branch are not modelled.
- networkx internals: the graph is a vertex set plus a pair-keyed attribute map.
  `.get('weight', 0.5)` always finds the weight, since every edge is added with one.
- TonnetzGraphs.TonnetzGraph.Neighbors: networkx returns neighbours in adjacency
  insertion order. The model promises only the set of neighbours, each listed once.
  So which chord a given draw index selects is not tied to the source's order.
