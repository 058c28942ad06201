# San Shan Island stargazing recommender, modelled in Dafny

This project models the decision logic of a stargazing-site recommender for San Shan
Island in Lake Tai. For a target's azimuth, the selector does four things:

- it finds the observation points whose view window covers that azimuth;
- it scores each one on three fixed-weight parts: the match between the point's
  bearing from the island centroid and the target (40), how central the target is in
  the point's window (40), and ease of access (20);
- it ranks the points with a stable descending sort;
- it recommends the best point, or nothing.

Around the selector sit four smaller services:

- a terrain analysis that grids the island, fetches elevations in batches of 50, and
  keeps the ten best spots above lake level;
- a stargazing index computed from cloud cover and moon phase, with its two label
  tables;
- a simulated sky-brightness reading (SQM) with its Bortle class;
- a one-off migration that rewrites numeric difficulties as labels.

Modules, one per source file plus five helpers:

- `StarObservation` (star_observation.py). `ObservationPoint` is a datatype.
  `StarObservationSelector` is a class: its fields are the loaded points and the
  centroid, which `LoadData` updates.
- `Terrain` (terrain_service.py). The nested grid loop, the batch loop and the scoring
  loop are methods proved against the functions `Grid`, `Gather` and `ScoredSpots`;
  `AnalyzeSpots` is proved against `TopRanking`, the top of `Ranking`.
- `Weather` (weather_service.py) and `LightPollution` (light_pollution_service.py):
  pure functions.
- `MigrateCsv` (migrate_csv.py): the rewrite loop is the method `MigrateLines`.
- Helpers:
  - `Angles`: Python's `%` on floats, and `abs`, `max` and `min` of floats.
  - `Rounding`: Python's `round`, ties to even.
  - `Text`: `str.split()`, `' '.join`, and `in` on strings.
  - `Seqs`: filtering, `list.sort(reverse=True)` as a stable insertion sort, `sum`,
    `max`, and batch slicing.
  - `Options`: the Option type.

Python floats are exact `real`s here.

Some outside facts enter as parameters:

- the great-circle bearing, a function whose values lie in [0, 360);
- the square root, with non-negative values;
- `float()` and `int()`, which answer None where Python raises;
- the elevation service, which answers, rejects or raises for each batch;
- what the astronomy library resolves for a target name (its names, azimuth, altitude,
  equatorial coordinates and magnitude, or nothing), cloud cover and moon phase, which
  arrive as arguments.

A view window is the clockwise arc from `view_start` to `view_end` while both ends lie
below 360. The azimuth is reduced into [0, 360) but the ends are not, so a window that
ends at 360 misses north itself, and the window 0-360 covers every direction.

## Model

| member | source | states |
|---|---|---|
| Angles.FloorMod | star_observation.py:103 | Python's float `%` with a positive divisor lies in [0, m) and differs from x by a whole multiple of m |
| Angles.FloorModUnique | light_pollution_service.py:35 | the remainder is the only value in [0, m) that differs from x by a whole multiple of m |
| Angles.Mod360Periodic | star_observation.py:103 | reducing an azimuth mod 360 forgets whole turns |
| StarObservation.CanObserveIgnoresTurns | star_observation.py:100-110 | visibility is unchanged by adding any multiple of 360 to the azimuth |
| StarObservation.CanObserveIsClockwiseArc | star_observation.py:106-110 | for window ends in [0, 360), both branches together mean exactly: the reduced azimuth is no further clockwise from view_start than view_end is |
| StarObservation.CanObserveWithinCircle | star_observation.py:100-110 | for window ends in [0, 360], visibility exactly: the clockwise arc when both ends are below 360; [start, 360) when only the end is 360; [0, end] when only the start is 360; nothing when both are 360 |
| StarObservation.WindowEndAt360 | star_observation.py:103-110 | the window 240-360 rejects azimuths 0 and 360 though north lies on its arc, and the window 0-360 accepts 90 though its arc has length 0 |
| StarObservation.WindowExamples | star_observation.py:106-110 | windows 350-10 and 330-30 accept north and reject 180, ends included; 30-90 accepts 60 and rejects 10 and 100 |
| StarObservation.AngularDistance | star_observation.py:370-373 | the folded difference is \|a-b\| or 360-\|a-b\|, in [0, 180] when \|a-b\| <= 360 |
| StarObservation.LocationScore | star_observation.py:365-377 | the geographic part is never negative, and at most 40 when the azimuth and the bearing differ by at most 360; it is 40 when the azimuth equals the point's bearing and 0 at 180 degrees off |
| StarObservation.LocationScoreFallsWithDistance | star_observation.py:370-377 | a target closer (by folded angular distance) to the point's bearing never gets a lower geographic part |
| StarObservation.ViewWindowIsArc | star_observation.py:380-386 | the window width (end+360-start when wrapped) is the clockwise distance from start to end, and the centre is half that width clockwise from the start |
| StarObservation.ViewScore | star_observation.py:388-400 | the centrality part is never negative, and at most 40 when the azimuth is within 360 of the window centre; it is 40 for a zero-width window and at the window centre |
| StarObservation.ViewScoreFallsWithDistance | star_observation.py:388-400 | a target closer (by folded angular distance) to the window centre never gets a lower centrality part |
| StarObservation.DifficultyCost | star_observation.py:405-411 | the cost is 20 exactly for 简单 and 80 exactly for 困难; every other label costs 50 |
| StarObservation.DifficultyScore | star_observation.py:405-413 | the access part is 16 exactly for 简单 and 4 exactly for 困难, otherwise 10 |
| StarObservation.CalculateScore | star_observation.py:356-418 | the total is at least 4 always, and at most 96 for an azimuth in [0, 360) and window ends in [0, 360] |
| StarObservation.ScoreUnboundedBeyondOneTurn | star_observation.py:370-377 | a target given as 720 against a bearing of 0 earns 120 for the geographic part alone |
| StarObservation.ScoreMaximum | star_observation.py:356-418 | a target at the point's bearing and at the window centre, with easy access, scores 96 |
| StarObservation.SectorExample | star_observation.py:338-346 | with sectors 0-120, 120-240 and 240-360, only the middle point covers azimuth 200 |
| StarObservation.EquipmentRecommendation | star_observation.py:241-267 | only the Sun gets the solar filter; the Moon gets naked eye / binoculars / telescope, the five bright planets naked eye or binoculars, Uranus and Neptune a telescope; for bodies outside the solar system, below magnitude 2 means naked eye, [2, 5) binoculars, and 5 or more or unknown a telescope, each exactly |
| StarObservation.EquipmentMonotoneInMagnitude | star_observation.py:257-264 | a fainter star never calls for less optical aid |
| StarObservation.ParseRecordFields | star_observation.py:137-152 | a line is skipped exactly when it has fewer than six fields, is malformed exactly when a number field fails to parse, and otherwise yields the parsed fields with the name = fields 6.. joined by single spaces, which splits back into those fields |
| StarObservation.ParseFieldsFacts | star_observation.py:143-151 | given the fields of a line: fewer than six are skipped, a failed number parse is malformed, and otherwise the point holds the parsed numbers, the third field as difficulty and the rest as name |
| StarObservation.ParseAllStep | star_observation.py:136-152 | a skipped line adds nothing, a malformed one ends loading, a parsed one adds its point in front of the rest |
| StarObservation.CentroidInsideBox | star_observation.py:155-157 | the mean latitude and longitude lie within the bounds of the loaded points |
| StarObservation.StarObservationSelector.constructor | star_observation.py:123-124 | a new selector has no points and the island's default position as centroid |
| StarObservation.StarObservationSelector.LoadData | star_observation.py:132-165 | appends the points of the parsed lines in order; on success, sets the centroid to the mean position, or the island defaults when no point is loaded; a malformed number stops loading and leaves the centroid as it was |
| StarObservation.StarObservationSelector.FindSuitablePoints | star_observation.py:338-346 | returns exactly the loaded points that can see the azimuth, in load order |
| StarObservation.StarObservationSelector.RankPoints | star_observation.py:420-429 | a permutation of the points paired with their own scores, non-increasing by score, with tied scores in input order |
| StarObservation.StarObservationSelector.RecommendForStar | star_observation.py:431-510 | None exactly when the target cannot be resolved, its altitude is at most 0, or no point covers its azimuth; otherwise the star information is the target's, observable, with the equipment advice for its name and magnitude, all_points is the ranking of the covering points, and best_point its first entry, with the highest score |
| StarObservation.StarObservationSelector.GetPointByName | star_observation.py:526-531 | None exactly when no point has the name; otherwise the first point with it |
| StarObservation.StarObservationSelector.GetVisibleStarsFromPoint | star_observation.py:533-560 | None for an unknown point; otherwise the first point of that name, the bodies inside its window in list order, and count = their number |
| Seqs.Filter | star_observation.py:341-344 | the result holds only elements that pass and every passing element |
| Seqs.FilterAppend | star_observation.py:341-344 | filtering keeps input order: it distributes over concatenation |
| Seqs.SortDescCorrect | star_observation.py:428 | the sort yields a non-increasing permutation of its input |
| Seqs.SortDescStable | star_observation.py:428 | among elements with equal keys, input order is kept |
| Seqs.MeanBounds | star_observation.py:156-157 | the mean of values in [lo, hi] lies in [lo, hi] |
| Seqs.Max | terrain_service.py:90 | `max` of a non-empty list is an element at least as large as every element |
| Seqs.Chunks | terrain_service.py:55-56 | every batch has between 1 and size elements, and all but the last have exactly size |
| Seqs.FlattenChunks | terrain_service.py:55-56 | the batches, concatenated in order, give back the whole list |
| Text.SplitWords | star_observation.py:142 | every field of `split()` is non-empty and free of whitespace |
| Text.TrimStartBlank | star_observation.py:137-139 | stripping a whitespace-only line leaves nothing |
| Text.SplitJoin | star_observation.py:150 | joining fields with single spaces and splitting again returns the fields |
| Text.SplitBlank | star_observation.py:137-139 | a whitespace-only line has no fields |
| Text.Contains | light_pollution_service.py:20-30 | `sub in s` holds exactly when sub occurs at some offset of s |
| Rounding.RoundHalfEven | weather_service.py:57 | `round` is within 0.5 of its argument, and exact ties go to the even neighbour |
| Rounding.RoundHalfEvenMonotone | terrain_service.py:110 | rounding never reverses an order |
| Rounding.RoundScaledError | terrain_service.py:110 | rounding to 1/scale moves the value by at most half a unit in the last place kept |
| Rounding.RoundScaledBetween | terrain_service.py:43 | rounding keeps a value between bounds that are multiples of the unit |
| Rounding.RoundScaledMonotone | terrain_service.py:110 | rounding to a fixed number of places never reverses an order |
| Terrain.GridCoordinateInSpan | terrain_service.py:36-42 | before rounding, the k-th of n coordinates lies in [MIN, MAX) |
| Terrain.GridLocationInBox | terrain_service.py:39-43 | every grid cell, rounded to 4 places, lies in the island's bounding box |
| Terrain.GridPrefixShape | terrain_service.py:39-43 | the first r rows hold r*n locations, all in the bounding box |
| Terrain.GridShape | terrain_service.py:36-43 | a positive grid size gives gridSize^2 locations, all in the bounding box |
| Terrain.GridLocations | terrain_service.py:36-43 | grid size 0 divides by zero (None) and nothing else does; otherwise the result is the row-major grid, latitude outer, whose shape `GridShape` states |
| Terrain.FetchElevations | terrain_service.py:52-75 | asks for batches of 50 in order and concatenates the answers; a rejected batch adds nothing and a raised request abandons the fetch |
| Terrain.GatherComplete | terrain_service.py:55-64 | if every batch is answered with one sample per location, the fetch succeeds with as many samples as locations |
| Terrain.BatchesCoverLocations | terrain_service.py:55-56 | every location is requested exactly once, in order, in batches of at most 50 |
| Terrain.ElevationScoreBounds | terrain_service.py:97 | the height score lies in (0, 100] and is 100 for the highest sample |
| Terrain.DistanceScoreBounds | terrain_service.py:100-101 | the distance score lies in [0, 100] |
| Terrain.TotalScoreBounds | terrain_service.py:104 | the weighted 0.8/0.2 total lies in [0, 100], and is at least 80 for the highest sample |
| Terrain.ScoreBounds | terrain_service.py:104-110 | the score rounded to one place stays in [0, 100], and at least 80 for the highest sample |
| Terrain.Ranking | terrain_service.py:115 | the full ranking has one entry per sample above the lake |
| Terrain.RankingProperties | terrain_service.py:94-115 | the ranking is non-increasing; each entry comes from a valid sample with score in [0, 100]; the first scores at least 80 |
| Terrain.TopSpots | terrain_service.py:115-116 | the first m entries of the ranking are ordered by score, come from samples above the lake, score in [0, 100], and the first scores at least 80 |
| Terrain.ScoreEach | terrain_service.py:95-112 | the scoring loop makes one spot per sample, in order |
| Terrain.AnalyzeSpots | terrain_service.py:77-116 | returns exactly the ten best entries of the ranking of the samples above 5 m (all of them when fewer, none when there are none); sorted by score, each from an input sample above 5 m, scores in [0, 100], the first at least 80 |
| Terrain.GetWildSpots | terrain_service.py:22-75 | no result exactly when there is no cache and the grid size is 0 (division by zero); a non-empty cache gives the analysis of the cached samples; otherwise a successful fetch gives the analysis of the fetched samples; a failed fetch gives an empty list; any result holds at most 10 spots, sorted by score, scores in [0, 100] |
| Weather.CloudScore | weather_service.py:46 | the sky score is never negative, at most 100 for non-negative cover, and 0 from full cover on |
| Weather.MoonFactor | weather_service.py:50-52 | the factor lies in [0, 1] for a phase in [0, 1]; it is 0 at full moon and 1 at new moon |
| Weather.StargazingScore | weather_service.py:55 | the index lies in [0, 100] for non-negative cover and a phase in [0, 1] |
| Weather.ScoreFallsWithCloud | weather_service.py:46-55 | more cloud never raises the index |
| Weather.ScoreSymmetricInPhase | weather_service.py:51-55 | phases at the same distance from full moon score alike |
| Weather.ScoreExtremes | weather_service.py:46-55 | a clear new-moon sky scores 100; an overcast full-moon sky scores 0 |
| Weather.ConditionText | weather_service.py:67-72 | each of the five labels holds exactly on its band: [80,∞), [60,80), [40,60), [20,40), below 20 |
| Weather.ConditionMonotone | weather_service.py:67-72 | a higher index never gets a worse label |
| Weather.MoonPhaseText | weather_service.py:74-82 | each of the eight labels holds exactly on its band: new below 0.03 or above 0.97, full in [0.48, 0.52), and so on |
| Weather.MoonBandsAroundNewAndFull | weather_service.py:75-79 | the new-moon band is symmetric about 0; the full-moon band includes 0.48 but not 0.52 |
| Weather.Report | weather_service.py:41-59 | no report without a cloud cover; a missing phase counts as 0; the shown score is the index rounded, within 0.5, and in [0, 100] for readings in range; the label comes from the unrounded index |
| Weather.LabelCanDisagreeWithShownScore | weather_service.py:57-58 | a clear sky at phase 0.34 shows score 80 but is labelled 良好 rather than 极佳 |
| LightPollution.NameAdjustment | light_pollution_service.py:20-31 | the first matching keyword group decides: 山顶 +0.15, then 山腰 +0.08, then 居民/村/宿 -0.45 (exactly), then 码头/游客中心 -0.35, then 湖边/湿地 -0.15, then 观景台 -0.05; 0 exactly when no keyword occurs; always in [-0.45, 0.15] |
| LightPollution.GeoHash | light_pollution_service.py:35 | the hash lies in [0, 10) |
| LightPollution.Perturbation | light_pollution_service.py:36 | the perturbation lies in [-0.05, 0.05) |
| LightPollution.Clamp | light_pollution_service.py:39 | the result lies in [18, 22] and equals its input when that is already in range |
| LightPollution.RawSqm | light_pollution_service.py:11-36 | before clamping, the reading lies in [19.95, 20.65) |
| LightPollution.SqmToBortle | light_pollution_service.py:50-60 | the class lies in 1..9, each band exactly: 1 from 21.99, 2 on [21.89, 21.99), 3 on [21.69, 21.89), 4 on [20.49, 21.69), 5 on [19.50, 20.49), 6 on [18.94, 19.50), 7 on [18.38, 18.94), 8 on [17.80, 18.38), 9 below 17.80 |
| LightPollution.BortleMonotone | light_pollution_service.py:50-60 | a darker sky never gets a worse class |
| LightPollution.ClampedNeverClassNine | light_pollution_service.py:39-42 | a clamped reading is never class 9 |
| LightPollution.GetPollutionData | light_pollution_service.py:13-48 | the clamp never changes the reading; the reported SQM is a whole number of hundredths within half a hundredth of the reading, and lies in [19.95, 20.65]; the class is 4 or 5, from the unrounded reading |
| LightPollution.SummitIsDarkest | light_pollution_service.py:20-42 | at the same position a summit point is at least as dark as any other, with a class no worse |
| LightPollution.PlainNameKeepsBase | light_pollution_service.py:17-36 | a name without keywords keeps the base reading up to the perturbation |
| MigrateCsv.DifficultyText | migrate_csv.py:7-14 | 简单 exactly up to 30, 中等 exactly on 31..60, 困难 exactly above 60 |
| MigrateCsv.DifficultyTextMonotone | migrate_csv.py:7-14 | a higher score never maps to a label with a lower access cost |
| MigrateCsv.LabelsAreWords | migrate_csv.py:30-31 | each label is a single whitespace-free field |
| MigrateCsv.MigrateLineFields | migrate_csv.py:21-31 | a line is dropped exactly when it has fewer than six fields and fails exactly when its third field is not an integer; otherwise its output splits into the input fields with only the third replaced by the label |
| MigrateCsv.MigratedRecordLoads | migrate_csv.py:28-31 | a migrated line loads as the same point with the label as difficulty, and is malformed exactly when the original is |
| MigrateCsv.MigrateCount | migrate_csv.py:20-31 | a completed run writes exactly one line per input line with at least six fields |
| MigrateCsv.MigrateLines | migrate_csv.py:20-31 | the loop writes the rewritten record lines in order and stops at the first non-integer difficulty; when it completes, it writes one line per record line |

## Left out

- The astronomy library: star catalogue lookup, solar-system body positions and the transformation to azimuth and altitude (`get_visible_stars`, and the lookup inside `get_star_info`). What the lookup resolves for a target name, and the visible-star list, arrive as inputs, and the observer `EarthLocation` is not modelled.
- `_calculate_bearing`: its trigonometry is not modelled. The bearing is a parameter with values in [0, 360), so the location-score bounds hold for any bearing function.
- The square root in the terrain distance score is a parameter with non-negative values.
- `_sqm_to_radiance` and the `radiance` field: `math.pow` on floats is not modelled.
- Floating point: numbers are exact reals. Binary rounding of decimal literals, and `round` on binary floats, are not modelled. `round` is modelled as exact half-even rounding.
- `float()` and `int()`: these are parameters. Their failure (None) stands for the ValueError that ends `load_data` and the migration script.
- The `altitude` argument of `calculate_score` and `rank_points`: the source never uses it, so the model drops it.
- Console output: the prints in `recommend_for_star` and the interactive `main` loop.
- `get_all_points`: it only copies point fields into dictionaries.
- app.py: it is HTTP routing and templating over these services, and is not part of this model.
- Network and files:
  - the Open-Elevation and Open-Meteo requests;
  - the reading and writing of the terrain cache file;
  - opening and writing the CSV files;
  - the `'type': 'wild'` tag of each spot.
- The weather service's temperature, humidity, wind, weather code, sunrise and sunset fields: they are passed through unchanged and enter no computation.
- Terrain weights: the `_analyze_spots` doc comment says 0.7/0.3, but the code uses 0.8/0.2, and the model follows the code.
- MigrateCsv.MigrateLines: output lines are modelled without their trailing newline.
- StarObservation.StarObservationSelector.LoadData: in the source a ValueError propagates out of `__init__`, so no selector exists. The model instead returns `ok = false` and leaves the centroid as it was.
- StarObservation.StarObservationSelector.constructor: `__init__` loads the file itself. In the model the constructor only sets the empty state, and `LoadData` is called next.
- StarObservation.CalculateScore: the upper bound of 96 is stated only for an azimuth in [0, 360) and window ends in [0, 360]. Outside those ranges each part stays at or above 0, but the source folds an angular difference only once, so a part can exceed 40 when the difference is more than 360 (`ScoreUnboundedBeyondOneTurn`).
- StarObservation.CanObserveIsClockwiseArc: the arc reading holds only for window ends below 360; for an end of 360 the source departs from it, and `CanObserveWithinCircle` states the exact behaviour for every window with ends in [0, 360].
