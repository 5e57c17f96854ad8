/** The five genre tables: per genre, an affinity for selected (source quality, target
    quality) transitions. Weights are the source's decimal literals, read as exact reals. */
module GenreWeights {
  import opened Chords

  type Transition = (Quality, Quality)
  type Table = map<Transition, real>

  const Jazz: Table := map[
    (Major, Minor) := 0.8, (Minor, Major) := 0.7,
    (Major, Dim) := 0.9, (Dim, Major) := 0.8,
    (Minor, Minor) := 0.6, (Major, Major) := 0.4,
    (Dim, Minor) := 0.7, (Minor, Dim) := 0.8,
    (Major, Aug) := 0.3, (Aug, Minor) := 0.5]

  const Rock: Table := map[
    (Major, Major) := 0.9, (Minor, Major) := 0.8,
    (Major, Minor) := 0.7, (Minor, Minor) := 0.6,
    (Major, Dim) := 0.3, (Dim, Major) := 0.4,
    (Dim, Minor) := 0.2, (Minor, Dim) := 0.2,
    (Major, Aug) := 0.1, (Aug, Minor) := 0.2]

  const Pop: Table := map[
    (Major, Major) := 0.8, (Major, Minor) := 0.9,
    (Minor, Major) := 0.8, (Minor, Minor) := 0.5,
    (Major, Dim) := 0.4, (Dim, Major) := 0.5,
    (Dim, Minor) := 0.3, (Minor, Dim) := 0.3,
    (Major, Aug) := 0.2, (Aug, Minor) := 0.3]

  const HipHop: Table := map[
    (Minor, Minor) := 0.9, (Minor, Major) := 0.7,
    (Major, Minor) := 0.8, (Major, Major) := 0.5,
    (Minor, Dim) := 0.4, (Dim, Minor) := 0.6,
    (Major, Dim) := 0.3, (Dim, Major) := 0.3,
    (Major, Aug) := 0.1, (Aug, Minor) := 0.2]

  const Classical: Table := map[
    (Major, Major) := 0.7, (Major, Minor) := 0.8,
    (Minor, Major) := 0.8, (Minor, Minor) := 0.6,
    (Major, Dim) := 0.9, (Dim, Major) := 0.8,
    (Dim, Minor) := 0.9, (Minor, Dim) := 0.8,
    (Major, Aug) := 0.4, (Aug, Minor) := 0.5]

  /** The genre names in the order the tables are declared (the order the source's
      dictionary iterates them). */
  const GenreNames: seq<string> := ["jazz", "rock", "pop", "hiphop", "classical"]

  const Genres: map<string, Table> := map[
    "jazz" := Jazz, "rock" := Rock, "pop" := Pop, "hiphop" := HipHop, "classical" := Classical]

  /** One of the five genre tables. */
  predicate IsGenreTable(t: Table) {
    t == Jazz || t == Rock || t == Pop || t == HipHop || t == Classical
  }

  /** All listed weights of a table lie in [0.1, 0.9]. */
  predicate WeightsInRange(t: Table) {
    forall key :: key in t ==> 0.1 <= t[key] <= 0.9
  }

  /** A table lookup with a default for transitions the table does not list. */
  function Lookup(t: Table, key: Transition, default: real): real
  {
    if key in t then t[key] else default
  }

  /** The table the generator uses for a genre name: an unknown name falls back to pop. */
  function TableFor(genre: string): (t: Table)
    ensures IsGenreTable(t)
    ensures genre in Genres ==> t == Genres[genre]
    ensures genre !in Genres ==> t == Pop
  {
    if genre in Genres then Genres[genre] else Pop
  }

  /** The generator's lookup `get(genre, tables["pop"])` picks `TableFor(genre)`. */
  lemma PopFallback(genre: string)
    ensures "pop" in Genres
    ensures (if genre in Genres then Genres[genre] else Genres["pop"]) == TableFor(genre)
  {
  }

  /** Every genre name is listed once, and the listed names are exactly the table keys. */
  lemma GenreNamesExact()
    ensures |GenreNames| == 5
    ensures forall i, j :: 0 <= i < j < |GenreNames| ==> GenreNames[i] != GenreNames[j]
    ensures forall g :: g in Genres <==> g in GenreNames
  {
  }

  /** Every table the genre names map to is one of the five. */
  lemma GenresAreTables(genre: string)
    requires genre in Genres
    ensures IsGenreTable(Genres[genre])
  {
    GenreNamesExact();
    if genre == "jazz" {
      assert Genres[genre] == Jazz;
    } else if genre == "rock" {
      assert Genres[genre] == Rock;
    } else if genre == "pop" {
      assert Genres[genre] == Pop;
    } else if genre == "hiphop" {
      assert Genres[genre] == HipHop;
    } else {
      assert Genres[genre] == Classical;
    }
  }

  /** Every listed weight of every genre lies in [0.1, 0.9]. */
  lemma TableWeightsInRange(t: Table)
    requires IsGenreTable(t)
    ensures WeightsInRange(t)
  {
    if t == Jazz {
      JazzInRange();
    } else if t == Rock {
      RockInRange();
    } else if t == Pop {
      PopInRange();
    } else if t == HipHop {
      HipHopInRange();
    }  else {
      ClassicalInRange();
    }
  }

  lemma JazzInRange() ensures WeightsInRange(Jazz) {}
  lemma RockInRange() ensures WeightsInRange(Rock) {}
  lemma PopInRange() ensures WeightsInRange(Pop) {}
  lemma HipHopInRange() ensures WeightsInRange(HipHop) {}
  lemma ClassicalInRange() ensures WeightsInRange(Classical) {}

  /** Every lookup in a genre table, under any default in [0.1, 0.9], lies in [0.1, 0.9]. */
  lemma LookupInRange(t: Table, key: Transition, default: real)
    requires IsGenreTable(t) && 0.1 <= default <= 0.9
    ensures 0.1 <= Lookup(t, key, default) <= 0.9
  {
    TableWeightsInRange(t);
  }
}
