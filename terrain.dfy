/** The wild-spot finder of terrain_service.py: a grid of locations over the island's
    bounding box, elevations fetched for it in batches, and the samples above the lake
    ranked by height and by distance from the island's centre.

    The elevation service and the cache file are outside the model: the service is a
    parameter `lookup` answering one batch at a time, and the cached samples are an
    argument. The square root is a parameter `sqrt` with non-negative values. */
module Terrain {
  import opened Options
  import opened Seqs
  import opened Rounding
  import Angles

  // ------------------------------------------------------------------ constants

  /** The island's bounding box. */
  const LAT_MIN: real := 31.015
  const LAT_MAX: real := 31.045
  const LON_MIN: real := 120.275
  const LON_MAX: real := 120.315

  /** Samples at or below this elevation (metres) are lake level and are discarded. */
  const MIN_ELEVATION: real := 5.0

  /** Locations per request to the elevation service. */
  const BATCH_SIZE: nat := 50

  /** How many spots are recommended at most. */
  const TOP_COUNT: nat := 10

  /** Centre of the bounding box, from which the distance score is measured. */
  const CENTER_LAT: real := (LAT_MIN + LAT_MAX) / 2.0
  const CENTER_LON: real := (LON_MIN + LON_MAX) / 2.0

  // ------------------------------------------------------------------ data

  datatype Location = Location(latitude: real, longitude: real)

  /** One answer of the elevation service. */
  datatype ElevationSample = ElevationSample(latitude: real, longitude: real, elevation: real)

  /** A recommended wild spot. */
  datatype TerrainSpot = TerrainSpot(latitude: real, longitude: real, elevation: real, score: real)

  type NonNegReal = r: real | r >= 0.0

  /** The square root, supplied by the caller. */
  type SqrtFn = real -> NonNegReal

  /** What the elevation service does with one batch: answers with results (status
      200), answers with another status (the batch is skipped), or raises (a timeout,
      a refused connection, an unreadable body), which abandons the whole fetch. */
  datatype LookupResponse = Answered(results: seq<ElevationSample>) | Rejected | Raised

  type LookupFn = seq<Location> -> LookupResponse

  // ------------------------------------------------------------------ the grid

  /** The `k`-th of `n` equal steps across [lo, hi). */
  function GridCoordinate(lo: real, hi: real, k: int, n: int): real
    requires n > 0
  {
    lo + (k as real) * ((hi - lo) / (n as real))
  }

  /** Grid cell (i, j): row i runs north along the latitudes, column j east along the
      longitudes, both rounded to four decimal places. */
  function GridLocation(i: int, j: int, n: int): Location
    requires n > 0
  {
    Location(RoundDigits(GridCoordinate(LAT_MIN, LAT_MAX, i, n), 4),
             RoundDigits(GridCoordinate(LON_MIN, LON_MAX, j, n), 4))
  }

  /** Row `i` of the grid: its `n` cells from west to east. */
  function GridRow(i: int, n: int): (row: seq<Location>)
    requires n > 0
    ensures |row| == n
    ensures forall j :: 0 <= j < n ==> row[j] == GridLocation(i, j, n)
  {
    seq(n, j requires 0 <= j < n => GridLocation(i, j, n))
  }

  /** The first `rows` rows of an `n` by `n` grid, in row-major order. */
  function GridPrefix(n: int, rows: nat): seq<Location>
    requires n > 0
  {
    if rows == 0 then [] else GridPrefix(n, rows - 1) + GridRow(rows - 1, n)
  }

  /** The whole grid for `gridSize`; a negative size gives no locations. */
  function Grid(gridSize: int): seq<Location>
  {
    if gridSize > 0 then GridPrefix(gridSize, gridSize) else []
  }

  /** Every step of the grid stays within the span it divides, short of its far end. */
  lemma StepWithinSpan(span: real, k: int, n: int)
    requires span > 0.0 && 0 <= k < n
    ensures 0.0 <= (k as real) * (span / (n as real)) < span
  {
    var step := span / (n as real);
    assert step * (n as real) == span;
    assert step > 0.0;
    Angles.MulMonotone(k as real, n as real, step);
    Angles.MulMonotone(0.0, k as real, step);
  }

  /** Before rounding, the `k`-th coordinate of `n` lies in [lo, hi). */
  lemma GridCoordinateInSpan(lo: real, hi: real, k: int, n: int)
    requires lo < hi && 0 <= k < n
    ensures lo <= GridCoordinate(lo, hi, k, n) < hi
  {
    StepWithinSpan(hi - lo, k, n);
  }

  /** A value inside a box side whose ends are multiples of 0.0001 stays inside after
      rounding to four places. */
  lemma RoundedStaysInside(x: real, lo: real, hi: real, loUnits: int, hiUnits: int)
    requires loUnits as real == lo * 10000.0 && hiUnits as real == hi * 10000.0
    requires lo <= x <= hi
    ensures lo <= RoundDigits(x, 4) <= hi
  {
    assert Pow10(4) == 10000;
    ScaleMonotone(lo, x, 10000.0);
    ScaleMonotone(x, hi, 10000.0);
    RoundScaledBetween(x, 10000.0, loUnits, hiUnits);
  }

  /** Whether a location lies in the island's bounding box. */
  predicate InBox(loc: Location)
  {
    LAT_MIN <= loc.latitude <= LAT_MAX && LON_MIN <= loc.longitude <= LON_MAX
  }

  /** Every grid cell lies in the bounding box, even after rounding. */
  lemma GridLocationInBox(i: int, j: int, n: int)
    requires 0 <= i < n && 0 <= j < n
    ensures InBox(GridLocation(i, j, n))
  {
    GridCoordinateInSpan(LAT_MIN, LAT_MAX, i, n);
    GridCoordinateInSpan(LON_MIN, LON_MAX, j, n);
    RoundedStaysInside(GridCoordinate(LAT_MIN, LAT_MAX, i, n), LAT_MIN, LAT_MAX, 310150, 310450);
    RoundedStaysInside(GridCoordinate(LON_MIN, LON_MAX, j, n), LON_MIN, LON_MAX, 1202750, 1203150);
  }

  /** The grid has `n * n` locations, all inside the bounding box. */
  lemma {:induction false} GridPrefixShape(n: int, rows: nat)
    requires n > 0 && rows <= n
    ensures |GridPrefix(n, rows)| == rows * n
    ensures forall k :: 0 <= k < |GridPrefix(n, rows)| ==> InBox(GridPrefix(n, rows)[k])
  {
    if rows > 0 {
      GridPrefixShape(n, rows - 1);
      var row := GridRow(rows - 1, n);
      forall j | 0 <= j < n ensures InBox(row[j]) {
        GridLocationInBox(rows - 1, j, n);
      }
      assert rows * n == (rows - 1) * n + n;
    }
  }

  lemma GridShape(gridSize: int)
    ensures gridSize > 0 ==> |Grid(gridSize)| == gridSize * gridSize
    ensures forall k :: 0 <= k < |Grid(gridSize)| ==> InBox(Grid(gridSize)[k])
  {
    if gridSize > 0 {
      GridPrefixShape(gridSize, gridSize);
    }
  }

  /** The grid of step 2 of `get_wild_spots`: `gridSize` rows of `gridSize` cells.
      A size of zero divides by zero (None); a negative size gives no locations. */
  method GridLocations(gridSize: int) returns (locations: Option<seq<Location>>)
    ensures locations.None? <==> gridSize == 0
    ensures locations.Some? ==> locations.value == Grid(gridSize)
  {
    if gridSize == 0 {
      return None;
    }
    var locs: seq<Location> := [];
    var i := 0;
    while i < gridSize
      invariant gridSize > 0 ==> 0 <= i <= gridSize && locs == GridPrefix(gridSize, i)
      invariant gridSize < 0 ==> locs == []
    {
      var j := 0;
      while j < gridSize
        invariant 0 <= j <= gridSize
        invariant locs == GridPrefix(gridSize, i) + GridRow(i, gridSize)[..j]
      {
        assert GridRow(i, gridSize)[..j + 1] == GridRow(i, gridSize)[..j] + [GridLocation(i, j, gridSize)];
        locs := locs + [GridLocation(i, j, gridSize)];
        j := j + 1;
      }
      assert GridRow(i, gridSize)[..gridSize] == GridRow(i, gridSize);
      i := i + 1;
    }
    return Some(locs);
  }

  // ------------------------------------------------------------------ batched lookup

  /** `Some(prefix + rest)` unless the rest was abandoned. */
  function Prepend(prefix: seq<ElevationSample>, rest: Option<seq<ElevationSample>>): Option<seq<ElevationSample>>
  {
    match rest
    case None => None
    case Some(r) => Some(prefix + r)
  }

  /** The results of asking the service for each batch in turn: a rejected batch adds
      nothing, a raised one abandons the fetch. */
  function Gather(batches: seq<seq<Location>>, lookup: LookupFn): Option<seq<ElevationSample>>
  {
    if batches == [] then Some([])
    else match lookup(batches[0])
      case Raised => None
      case Rejected => Gather(batches[1..], lookup)
      case Answered(results) => Prepend(results, Gather(batches[1..], lookup))
  }

  /** `locations[i:]`, empty once `i` has run past the end. */
  function Rest<T>(s: seq<T>, i: nat): seq<T>
  {
    if i < |s| then s[i..] else []
  }

  /** Step 3 of `get_wild_spots`: asks for the elevations 50 locations at a time and
      collects the answers in order; None when a request raised. */
  method FetchElevations(locations: seq<Location>, lookup: LookupFn) returns (results: Option<seq<ElevationSample>>)
    ensures results == Gather(Chunks(locations, BATCH_SIZE), lookup)
  {
    var allResults: seq<ElevationSample> := [];
    var i: nat := 0;
    assert Rest(locations, 0) == locations;
    PrependNothing(Gather(Chunks(locations, BATCH_SIZE), lookup));
    while i < |locations|
      invariant Gather(Chunks(locations, BATCH_SIZE), lookup)
             == Prepend(allResults, Gather(Chunks(Rest(locations, i), BATCH_SIZE), lookup))
      decreases |locations| - i
    {
      var batch := if i + BATCH_SIZE <= |locations| then locations[i..i + BATCH_SIZE] else locations[i..];
      ChunksStep(locations, i);
      var response := lookup(batch);
      match response {
        case Raised =>
          return None;
        case Rejected =>
        case Answered(data) =>
          PrependTwice(allResults, data, Gather(Chunks(Rest(locations, i + BATCH_SIZE), BATCH_SIZE), lookup));
          allResults := allResults + data;
      }
      i := i + BATCH_SIZE;
    }
    assert allResults + [] == allResults;
    return Some(allResults);
  }

  /** The batch at offset `i` is `locations[i:i+50]`, and the batches after it start at `i + 50`. */
  lemma ChunksStep<T>(locations: seq<T>, i: nat)
    requires i < |locations|
    ensures Chunks(Rest(locations, i), BATCH_SIZE)
         == [if i + BATCH_SIZE <= |locations| then locations[i..i + BATCH_SIZE] else locations[i..]]
            + Chunks(Rest(locations, i + BATCH_SIZE), BATCH_SIZE)
  {
    var rest := locations[i..];
    if |rest| > BATCH_SIZE {
      assert rest[..BATCH_SIZE] == locations[i..i + BATCH_SIZE];
      assert rest[BATCH_SIZE..] == Rest(locations, i + BATCH_SIZE);
    } else if |rest| == BATCH_SIZE {
      assert rest == locations[i..i + BATCH_SIZE];
    }
  }

  lemma PrependTwice(a: seq<ElevationSample>, b: seq<ElevationSample>, rest: Option<seq<ElevationSample>>)
    ensures Prepend(a, Prepend(b, rest)) == Prepend(a + b, rest)
  {
    if rest.Some? {
      assert a + (b + rest.value) == (a + b) + rest.value;
    }
  }

  lemma PrependNothing(rest: Option<seq<ElevationSample>>)
    ensures Prepend([], rest) == rest
  {
    if rest.Some? {
      assert [] + rest.value == rest.value;
    }
  }

  /** When the service answers every batch with one sample per location, the fetch
      returns one sample per grid location. */
  lemma {:induction false} GatherComplete(batches: seq<seq<Location>>, lookup: LookupFn)
    requires forall k :: 0 <= k < |batches| ==>
      lookup(batches[k]).Answered? && |lookup(batches[k]).results| == |batches[k]|
    ensures Gather(batches, lookup).Some?
    ensures |Gather(batches, lookup).value| == |Flatten(batches)|
  {
    if batches != [] {
      GatherComplete(batches[1..], lookup);
    }
  }

  /** Every location is requested exactly once, in order, in batches of at most 50. */
  lemma BatchesCoverLocations(locations: seq<Location>)
    ensures Flatten(Chunks(locations, BATCH_SIZE)) == locations
    ensures forall k :: 0 <= k < |Chunks(locations, BATCH_SIZE)| ==> |Chunks(locations, BATCH_SIZE)[k]| <= BATCH_SIZE
  {
    FlattenChunks(locations, BATCH_SIZE);
  }

  // ------------------------------------------------------------------ scoring

  /** Samples above the lake. */
  function AboveLake(): ElevationSample -> bool
  {
    (p: ElevationSample) => p.elevation > MIN_ELEVATION
  }

  function Elevations(points: seq<ElevationSample>): (r: seq<real>)
    ensures |r| == |points| && forall k :: 0 <= k < |r| ==> r[k] == points[k].elevation
  {
    seq(|points|, k requires 0 <= k < |points| => points[k].elevation)
  }

  /** Height score: the elevation as a percentage of the highest one. */
  function ElevationScore(elevation: real, maxEle: real): real
  {
    if maxEle > 0.0 then (elevation / maxEle) * 100.0 else 0.0
  }

  /** Distance score: the distance from the box centre, in degrees, times 1000, capped at 100. */
  function DistanceScore(p: ElevationSample, sqrt: SqrtFn): real
  {
    Angles.MinReal(sqrt((p.latitude - CENTER_LAT) * (p.latitude - CENTER_LAT)
               + (p.longitude - CENTER_LON) * (p.longitude - CENTER_LON)) * 1000.0, 100.0)
  }

  /** The weighted score before rounding: 80% height, 20% distance. */
  function TotalScore(p: ElevationSample, maxEle: real, sqrt: SqrtFn): real
  {
    0.8 * ElevationScore(p.elevation, maxEle) + 0.2 * DistanceScore(p, sqrt)
  }

  /** A sample turned into a spot, its score rounded to one decimal place. */
  function ScoreSpot(p: ElevationSample, maxEle: real, sqrt: SqrtFn): TerrainSpot
  {
    TerrainSpot(p.latitude, p.longitude, p.elevation, RoundDigits(TotalScore(p, maxEle, sqrt), 1))
  }

  function ScoredSpots(points: seq<ElevationSample>, maxEle: real, sqrt: SqrtFn): (r: seq<TerrainSpot>)
    ensures |r| == |points|
    ensures forall k :: 0 <= k < |r| ==> r[k] == ScoreSpot(points[k], maxEle, sqrt)
  {
    seq(|points|, k requires 0 <= k < |points| => ScoreSpot(points[k], maxEle, sqrt))
  }

  function BySpotScore(s: TerrainSpot): real { s.score }

  /** The sample a spot was made from. */
  function SampleOf(s: TerrainSpot): ElevationSample
  {
    ElevationSample(s.latitude, s.longitude, s.elevation)
  }

  /** The height score of a sample no higher than the maximum lies in (0, 100]; the
      highest sample gets 100. */
  lemma ElevationScoreBounds(elevation: real, maxEle: real)
    requires 0.0 < elevation <= maxEle
    ensures 0.0 < ElevationScore(elevation, maxEle) <= 100.0
    ensures elevation == maxEle ==> ElevationScore(elevation, maxEle) == 100.0
  {
    DivideMonotone(elevation, maxEle, maxEle);
    assert elevation / maxEle > 0.0;
  }

  lemma DistanceScoreBounds(p: ElevationSample, sqrt: SqrtFn)
    ensures 0.0 <= DistanceScore(p, sqrt) <= 100.0
  {
  }

  /** The weighted score lies in [0, 100]; the highest sample's is at least 80. */
  lemma TotalScoreBounds(p: ElevationSample, maxEle: real, sqrt: SqrtFn)
    requires 0.0 < p.elevation <= maxEle
    ensures 0.0 <= TotalScore(p, maxEle, sqrt) <= 100.0
    ensures p.elevation == maxEle ==> TotalScore(p, maxEle, sqrt) >= 80.0
  {
    ElevationScoreBounds(p.elevation, maxEle);
    DistanceScoreBounds(p, sqrt);
  }

  /** Rounding to one decimal keeps a value in [lo, 100] when lo is a multiple of 0.1. */
  lemma RoundedScoreBetween(total: real, loTenths: int)
    requires 0 <= loTenths <= 1000
    requires (loTenths as real) / 10.0 <= total <= 100.0
    ensures (loTenths as real) / 10.0 <= RoundDigits(total, 1) <= 100.0
  {
    assert Pow10(1) == 10;
    ScaleMonotone((loTenths as real) / 10.0, total, 10.0);
    ScaleMonotone(total, 100.0, 10.0);
    RoundScaledBetween(total, 10.0, loTenths, 1000);
  }

  /** For a sample no higher than the maximum (and above 0), the rounded score lies in
      [0, 100], and the highest sample scores at least 80. */
  lemma ScoreBounds(p: ElevationSample, maxEle: real, sqrt: SqrtFn)
    requires 0.0 < p.elevation <= maxEle
    ensures 0.0 <= ScoreSpot(p, maxEle, sqrt).score <= 100.0
    ensures p.elevation == maxEle ==> ScoreSpot(p, maxEle, sqrt).score >= 80.0
  {
    TotalScoreBounds(p, maxEle, sqrt);
    RoundedScoreBetween(TotalScore(p, maxEle, sqrt), 0);
    if p.elevation == maxEle {
      RoundedScoreBetween(TotalScore(p, maxEle, sqrt), 800);
    }
  }

  /** The full ranking of the samples above the lake, best first. */
  function Ranking(valid: seq<ElevationSample>, sqrt: SqrtFn): (ranked: seq<TerrainSpot>)
    requires |valid| > 0
    ensures |ranked| == |valid|
  {
    SortDescCorrect(ScoredSpots(valid, Max(Elevations(valid)), sqrt), BySpotScore);
    SortDesc(ScoredSpots(valid, Max(Elevations(valid)), sqrt), BySpotScore)
  }

  /** The ranking is ordered by score, every entry comes from a sample with its score
      in [0, 100], and the first entry scores at least 80. */
  lemma RankingProperties(valid: seq<ElevationSample>, sqrt: SqrtFn)
    requires |valid| > 0
    requires forall k :: 0 <= k < |valid| ==> valid[k].elevation > MIN_ELEVATION
    ensures SortedDesc(Ranking(valid, sqrt), BySpotScore)
    ensures forall k :: 0 <= k < |valid| ==>
      && SampleOf(Ranking(valid, sqrt)[k]) in valid
      && Ranking(valid, sqrt)[k].elevation > MIN_ELEVATION
      && 0.0 <= Ranking(valid, sqrt)[k].score <= 100.0
    ensures Ranking(valid, sqrt)[0].score >= 80.0
  {
    var maxEle := Max(Elevations(valid));
    var scored := ScoredSpots(valid, maxEle, sqrt);
    var ranked := Ranking(valid, sqrt);
    SortDescCorrect(scored, BySpotScore);
    forall k | 0 <= k < |ranked|
      ensures SampleOf(ranked[k]) in valid && ranked[k].elevation > MIN_ELEVATION
      ensures 0.0 <= ranked[k].score <= 100.0
    {
      assert ranked[k] in multiset(scored);
      var j :| 0 <= j < |scored| && scored[j] == ranked[k];
      ScoreBounds(valid[j], maxEle, sqrt);
    }
    // the highest sample scores at least 80, and nothing ranks above the first entry
    var top :| 0 <= top < |valid| && Elevations(valid)[top] == maxEle;
    ScoreBounds(valid[top], maxEle, sqrt);
    assert scored[top] in multiset(ranked);
  }

  /** The first `m` entries of the ranking: ordered by score, each from a sample above
      the lake with its score in [0, 100], the first at least 80. */
  lemma TopSpots(valid: seq<ElevationSample>, sqrt: SqrtFn, m: nat)
    requires 0 < m <= |valid|
    requires forall k :: 0 <= k < |valid| ==> valid[k].elevation > MIN_ELEVATION
    ensures var top := Ranking(valid, sqrt)[..m];
      && SortedDesc(top, BySpotScore)
      && (forall k :: 0 <= k < m ==>
            && SampleOf(top[k]) in valid
            && top[k].elevation > MIN_ELEVATION
            && 0.0 <= top[k].score <= 100.0)
      && top[0].score >= 80.0
  {
    RankingProperties(valid, sqrt);
    var ranked := Ranking(valid, sqrt);
    assert forall k :: 0 <= k < m ==> ranked[..m][k] == ranked[k];
  }

  /** The result `_analyze_spots` is specified by: the ten best entries of the ranking of
      the samples above the lake, or all of them when there are fewer, and nothing when
      no sample is above the lake. */
  function TopRanking(points: seq<ElevationSample>, sqrt: SqrtFn): seq<TerrainSpot>
  {
    var valid := Filter(points, AboveLake());
    if valid == [] then [] else Ranking(valid, sqrt)[..if |valid| < TOP_COUNT then |valid| else TOP_COUNT]
  }

  /** The scoring loop of `_analyze_spots`: one spot per sample, in order. */
  method ScoreEach(valid: seq<ElevationSample>, maxEle: real, sqrt: SqrtFn) returns (scoredSpots: seq<TerrainSpot>)
    ensures scoredSpots == ScoredSpots(valid, maxEle, sqrt)
  {
    scoredSpots := [];
    for i := 0 to |valid|
      invariant scoredSpots == ScoredSpots(valid[..i], maxEle, sqrt)
    {
      scoredSpots := scoredSpots + [ScoreSpot(valid[i], maxEle, sqrt)];
    }
    assert valid[..|valid|] == valid;
  }

  /** `_analyze_spots`: scores every sample above the lake and returns the ten best,
      highest score first (equal scores in input order), each with a score in [0, 100];
      the first scores at least 80, since the highest sample is among them. */
  method AnalyzeSpots(points: seq<ElevationSample>, sqrt: SqrtFn) returns (spots: seq<TerrainSpot>)
    ensures spots == TopRanking(points, sqrt)
    ensures var valid := Filter(points, AboveLake());
      && |spots| == (if |valid| < TOP_COUNT then |valid| else TOP_COUNT)
      && (valid != [] ==> spots == Ranking(valid, sqrt)[..|spots|])
    ensures SortedDesc(spots, BySpotScore)
    ensures forall k :: 0 <= k < |spots| ==>
      && SampleOf(spots[k]) in points
      && spots[k].elevation > MIN_ELEVATION
      && 0.0 <= spots[k].score <= 100.0
    ensures spots != [] ==> spots[0].score >= 80.0
  {
    var validSpots := Filter(points, AboveLake());
    if validSpots == [] {
      return [];
    }
    var maxEle := Max(Elevations(validSpots));
    var scoredSpots := ScoreEach(validSpots, maxEle, sqrt);
    var ranked := SortDesc(scoredSpots, BySpotScore);
    assert ranked == Ranking(validSpots, sqrt);
    spots := if |ranked| <= TOP_COUNT then ranked else ranked[..TOP_COUNT];
    assert spots == ranked[..|spots|];
    TopSpots(validSpots, sqrt, |spots|);
    forall k | 0 <= k < |spots| ensures SampleOf(spots[k]) in points {
      var j :| 0 <= j < |validSpots| && validSpots[j] == SampleOf(spots[k]);
    }
  }

  /** `get_wild_spots`: the analysis of the cached samples when there are any;
      otherwise of the elevations fetched for the grid, or no spots at all when a
      request raised. A grid size of zero raises a division by zero (None). */
  method GetWildSpots(gridSize: int, cached: seq<ElevationSample>, lookup: LookupFn, sqrt: SqrtFn)
    returns (spots: Option<seq<TerrainSpot>>)
    ensures spots.None? <==> cached == [] && gridSize == 0
    ensures cached != [] ==> spots == Some(TopRanking(cached, sqrt))
    ensures cached != [] ==> spots.Some? && forall k :: 0 <= k < |spots.value| ==> SampleOf(spots.value[k]) in cached
    ensures cached == [] && gridSize != 0 && Gather(Chunks(Grid(gridSize), BATCH_SIZE), lookup).Some?
            ==> spots == Some(TopRanking(Gather(Chunks(Grid(gridSize), BATCH_SIZE), lookup).value, sqrt))
    ensures cached == [] && gridSize != 0 && Gather(Chunks(Grid(gridSize), BATCH_SIZE), lookup).None?
            ==> spots == Some([])
    ensures spots.Some? ==> SortedDesc(spots.value, BySpotScore) && |spots.value| <= TOP_COUNT
    ensures spots.Some? ==> forall k :: 0 <= k < |spots.value| ==> 0.0 <= spots.value[k].score <= 100.0
  {
    if cached != [] {
      var analysed := AnalyzeSpots(cached, sqrt);
      return Some(analysed);
    }
    var locations := GridLocations(gridSize);
    if locations.None? {
      return None;
    }
    var allResults := FetchElevations(locations.value, lookup);
    if allResults.None? {
      return Some([]);
    }
    var analysed := AnalyzeSpots(allResults.value, sqrt);
    return Some(analysed);
  }
}
