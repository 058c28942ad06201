/** The observation-site selector of star_observation.py: which observation points
    can see a given azimuth, how each is scored for a target, how the candidates are
    ranked and recommended, and how the point list is read from its text records.

    The astronomy library (star catalogue lookup and the transformation to local
    azimuth and altitude) is outside the model: star information arrives as input.
    The great-circle bearing from the centroid to a point is a parameter `bearing`
    whose values lie in [0, 360). */
module StarObservation {
  import opened Options
  import opened Angles
  import opened Text
  import opened Seqs
  import Rounding

  // ------------------------------------------------------------------ constants

  /** The island's default position, used as the centroid when no point is loaded. */
  const ISLAND_LON: real := 120.45
  const ISLAND_LAT: real := 31.22

  /** The three difficulty labels a point record carries. */
  const EASY: string := "简单"
  const MEDIUM: string := "中等"
  const HARD: string := "困难"

  // ------------------------------------------------------------------ observation points

  /** One observation site. Its view window runs clockwise from `viewStart` to
      `viewEnd` (degrees, north = 0); when `viewStart > viewEnd` it wraps through north. */
  datatype ObservationPoint = ObservationPoint(
    longitude: real,
    latitude: real,
    difficulty: string,
    viewStart: real,
    viewEnd: real,
    name: string)
  {
    /** Whether a body at `azimuth` lies inside the view window, both ends included. */
    predicate CanObserveAzimuth(azimuth: real)
    {
      var a := Mod360(azimuth);
      if viewStart <= viewEnd then viewStart <= a <= viewEnd
      else a >= viewStart || a <= viewEnd
    }

    /** View window bounds given as proper angles in [0, 360). */
    predicate HasProperWindow()
    {
      0.0 <= viewStart < 360.0 && 0.0 <= viewEnd < 360.0
    }

    /** View window bounds within [0, 360], the range the data uses. */
    predicate HasWindowWithinCircle()
    {
      0.0 <= viewStart <= 360.0 && 0.0 <= viewEnd <= 360.0
    }
  }

  /** Clockwise angle from `from` to `to`, in [0, 360). */
  function ClockwiseDistance(from: real, to: real): (d: real)
    ensures 0.0 <= d < 360.0
  {
    Mod360(to - from)
  }

  /** Visibility ignores whole turns: azimuths that differ by a multiple of 360 agree. */
  lemma CanObserveIgnoresTurns(p: ObservationPoint, azimuth: real, turns: int)
    ensures p.CanObserveAzimuth(azimuth + (turns as real) * 360.0) == p.CanObserveAzimuth(azimuth)
  {
    Mod360Periodic(azimuth, turns);
  }

  /** Visibility is membership in the clockwise arc from `viewStart` to `viewEnd`:
      the body is seen exactly when it is no further clockwise from the start than
      the end is. This holds for direct and wrapping windows alike. */
  lemma {:induction false} CanObserveIsClockwiseArc(p: ObservationPoint, azimuth: real)
    requires p.HasProperWindow()
    ensures p.CanObserveAzimuth(azimuth)
        <==> ClockwiseDistance(p.viewStart, Mod360(azimuth)) <= ClockwiseDistance(p.viewStart, p.viewEnd)
  {
    var a, s, e := Mod360(azimuth), p.viewStart, p.viewEnd;
    ReducedDifference(a, s);
    ReducedDifference(e, s);
  }

  /** Visibility for every window whose ends lie in [0, 360], the range the data uses.
      Ends below 360 give the clockwise arc. An end written as 360 is not reduced, while
      the azimuth is: a window ending at 360 covers [start, 360) and so misses north
      itself, a window starting at 360 covers [0, end], and a window 360-360 covers
      nothing. */
  lemma CanObserveWithinCircle(p: ObservationPoint, azimuth: real)
    requires p.HasWindowWithinCircle()
    ensures p.HasProperWindow() ==>
      (p.CanObserveAzimuth(azimuth) <==>
        ClockwiseDistance(p.viewStart, Mod360(azimuth)) <= ClockwiseDistance(p.viewStart, p.viewEnd))
    ensures p.viewStart < 360.0 && p.viewEnd == 360.0 ==>
      (p.CanObserveAzimuth(azimuth) <==> p.viewStart <= Mod360(azimuth))
    ensures p.viewStart == 360.0 && p.viewEnd < 360.0 ==>
      (p.CanObserveAzimuth(azimuth) <==> Mod360(azimuth) <= p.viewEnd)
    ensures p.viewStart == 360.0 && p.viewEnd == 360.0 ==> !p.CanObserveAzimuth(azimuth)
  {
    if p.HasProperWindow() {
      CanObserveIsClockwiseArc(p, azimuth);
    }
  }

  /** Where an end of 360 parts from the clockwise-arc reading: the window 240-360 is the
      arc from 240 round to north, yet it rejects azimuths 0 and 360; the window 0-360 is
      a zero-length arc, yet it accepts every direction. */
  lemma WindowEndAt360()
    ensures var c := ObservationPoint(0.0, 0.0, HARD, 240.0, 360.0, "C");
      && ClockwiseDistance(240.0, Mod360(0.0)) <= ClockwiseDistance(240.0, 360.0)
      && !c.CanObserveAzimuth(0.0) && !c.CanObserveAzimuth(360.0) && c.CanObserveAzimuth(359.0)
    ensures var full := ObservationPoint(0.0, 0.0, EASY, 0.0, 360.0, "full");
      && ClockwiseDistance(0.0, 90.0) > ClockwiseDistance(0.0, 360.0)
      && full.CanObserveAzimuth(90.0)
  {
  }

  /** The difference of two proper angles, reduced mod 360. */
  lemma ReducedDifference(x: real, y: real)
    requires 0.0 <= x < 360.0 && 0.0 <= y < 360.0
    ensures Mod360(x - y) == if x >= y then x - y else x - y + 360.0
  {
    if x < y {
      Mod360Periodic(x - y, 1);
    }
  }

  /** Examples: wrapping windows 350-10 and 330-30, and a direct window 30-90. */
  lemma WindowExamples()
    ensures var wrap := ObservationPoint(0.0, 0.0, EASY, 350.0, 10.0, "wrap");
      wrap.CanObserveAzimuth(0.0) && wrap.CanObserveAzimuth(355.0) && wrap.CanObserveAzimuth(5.0)
      && !wrap.CanObserveAzimuth(180.0) && wrap.CanObserveAzimuth(-5.0) && wrap.CanObserveAzimuth(365.0)
    ensures var direct := ObservationPoint(0.0, 0.0, EASY, 30.0, 90.0, "direct");
      direct.CanObserveAzimuth(60.0) && !direct.CanObserveAzimuth(10.0) && !direct.CanObserveAzimuth(100.0)
    ensures var north := ObservationPoint(0.0, 0.0, EASY, 330.0, 30.0, "north");
      north.CanObserveAzimuth(0.0) && !north.CanObserveAzimuth(180.0)
      && north.CanObserveAzimuth(330.0) && north.CanObserveAzimuth(30.0) && !north.CanObserveAzimuth(31.0)
  {
    CanObserveIgnoresTurns(ObservationPoint(0.0, 0.0, EASY, 350.0, 10.0, "wrap"), -5.0, 1);
    CanObserveIgnoresTurns(ObservationPoint(0.0, 0.0, EASY, 350.0, 10.0, "wrap"), 5.0, 1);
  }

  // ------------------------------------------------------------------ scoring

  /** Angle between two directions, folded into [0, 180] once it exceeds 180. */
  function AngularDistance(a: real, b: real): (d: real)
    ensures Abs(a - b) <= 360.0 ==> 0.0 <= d <= 180.0
    ensures d == Abs(a - b) || d == 360.0 - Abs(a - b)
    ensures a == b ==> d == 0.0
  {
    var diff := Abs(a - b);
    if diff > 180.0 then 360.0 - diff else diff
  }

  /** Geographic match (weight 40): how well the point's bearing from the centroid of
      all points agrees with the target's azimuth. */
  function LocationScore(azimuth: real, pointBearing: real): (r: real)
    ensures r >= 0.0
    ensures Abs(azimuth - pointBearing) <= 360.0 ==> r <= 40.0
    ensures azimuth == pointBearing ==> r == 40.0
    ensures Abs(azimuth - pointBearing) == 180.0 ==> r == 0.0
  {
    MaxReal(0.0, 40.0 * (1.0 - AngularDistance(azimuth, pointBearing) / 180.0))
  }

  /** The smaller the difference between the target and the point's bearing, the higher
      the geographic part: a smaller folded distance never scores lower. */
  lemma LocationScoreFallsWithDistance(azimuth: real, b1: real, b2: real)
    requires AngularDistance(azimuth, b1) <= AngularDistance(azimuth, b2)
    ensures LocationScore(azimuth, b2) <= LocationScore(azimuth, b1)
  {
  }

  /** Middle direction of the view window. */
  function ViewCenter(p: ObservationPoint): real
  {
    if p.viewStart <= p.viewEnd then (p.viewStart + p.viewEnd) / 2.0
    else Mod360((p.viewStart + p.viewEnd + 360.0) / 2.0)
  }

  /** Angular width of the view window. */
  function ViewRange(p: ObservationPoint): real
  {
    if p.viewStart <= p.viewEnd then p.viewEnd - p.viewStart
    else p.viewEnd + 360.0 - p.viewStart
  }

  /** The window's width is the clockwise distance from its start to its end, and its
      centre lies half that width clockwise from the start: the arc's true midpoint,
      for direct and wrapping windows alike. */
  lemma {:induction false} ViewWindowIsArc(p: ObservationPoint)
    requires p.HasProperWindow()
    ensures ViewRange(p) == ClockwiseDistance(p.viewStart, p.viewEnd)
    ensures 0.0 <= ViewRange(p) < 360.0
    ensures ViewCenter(p) == Mod360(p.viewStart + ViewRange(p) / 2.0)
  {
    var s, e := p.viewStart, p.viewEnd;
    ReducedDifference(e, s);
    if s <= e {
      assert s + (e - s) / 2.0 == (s + e) / 2.0;
    } else {
      assert s + (e + 360.0 - s) / 2.0 == (s + e + 360.0) / 2.0;
    }
  }

  /** View centrality (weight 40): full marks at the window's centre, falling linearly
      to nothing at its edges; a window of zero width always gives full marks. */
  function ViewScore(p: ObservationPoint, azimuth: real): (r: real)
    ensures r >= 0.0
    ensures Abs(azimuth - ViewCenter(p)) <= 360.0 ==> r <= 40.0
    ensures ViewRange(p) == 0.0 ==> r == 40.0
    ensures azimuth == ViewCenter(p) ==> r == 40.0
  {
    var range := ViewRange(p);
    var d := AngularDistance(azimuth, ViewCenter(p));
    var centrality := if range > 0.0 then MaxReal(0.0, 1.0 - d / (range / 2.0)) else 1.0;
    assert range > 0.0 && d >= 0.0 ==> d / (range / 2.0) >= 0.0;
    centrality * 40.0
  }

  /** The closer the target is to the window centre, the higher the centrality part:
      a smaller folded distance from the centre never scores lower. */
  lemma ViewScoreFallsWithDistance(p: ObservationPoint, a1: real, a2: real)
    requires AngularDistance(a1, ViewCenter(p)) <= AngularDistance(a2, ViewCenter(p))
    ensures ViewScore(p, a2) <= ViewScore(p, a1)
  {
    if ViewRange(p) > 0.0 {
      Rounding.DivideMonotone(AngularDistance(a1, ViewCenter(p)), AngularDistance(a2, ViewCenter(p)),
                              ViewRange(p) / 2.0);
    }
  }

  /** The centre of a window whose bounds lie in [0, 360] is itself in [0, 360]. */
  lemma ViewCenterBound(p: ObservationPoint)
    ensures p.HasWindowWithinCircle() ==> 0.0 <= ViewCenter(p) <= 360.0
  {
  }

  /** Numeric cost of a difficulty label; an unknown label costs as much as medium. */
  function DifficultyCost(difficulty: string): (cost: int)
    ensures cost == 20 || cost == 50 || cost == 80
    ensures cost == 20 <==> difficulty == EASY
    ensures cost == 80 <==> difficulty == HARD
  {
    if difficulty == EASY then 20
    else if difficulty == MEDIUM then 50
    else if difficulty == HARD then 80
    else 50
  }

  /** Accessibility (weight 20): the easier to reach, the higher. */
  function DifficultyScore(difficulty: string): (r: real)
    ensures r == 16.0 || r == 10.0 || r == 4.0
    ensures r == 16.0 <==> difficulty == EASY
    ensures r == 4.0 <==> difficulty == HARD
  {
    ((100 - DifficultyCost(difficulty)) as real) * 0.2
  }

  /** `calculate_score`: geographic match + view centrality + accessibility, for a point
      whose bearing from the centroid is `pointBearing`. For a target azimuth in [0, 360)
      and a window within [0, 360] the total lies in [4, 96]. */
  function CalculateScore(p: ObservationPoint, azimuth: real, pointBearing: Angle): (r: real)
    ensures r >= 4.0
    ensures 0.0 <= azimuth < 360.0 && p.HasWindowWithinCircle() ==> r <= 96.0
  {
    ViewCenterBound(p);
    LocationScore(azimuth, pointBearing) + ViewScore(p, azimuth) + DifficultyScore(p.difficulty)
  }

  /** The best case: target at the point's bearing, at the window's centre, easy access. */
  lemma ScoreMaximum(p: ObservationPoint, azimuth: real, pointBearing: Angle)
    requires azimuth == pointBearing && azimuth == ViewCenter(p) && p.difficulty == EASY
    ensures CalculateScore(p, azimuth, pointBearing) == 96.0
  {
  }

  /** Why the upper bounds need angles within one turn: the folding of the difference
      assumes it is at most 360, and a target given as 720 against a bearing of 0
      earns 120 for the geographic part alone. */
  lemma ScoreUnboundedBeyondOneTurn()
    ensures LocationScore(720.0, 0.0) == 120.0
  {
  }

  /** The bearing from the centroid (first two arguments) to a point (last two). */
  type BearingFn = (real, real, real, real) -> Angle

  /** The score of `p` for a target at `azimuth`, the centroid being (centerLat, centerLon). */
  function PointScore(p: ObservationPoint, azimuth: real, centerLat: real, centerLon: real, bearing: BearingFn): real
  {
    CalculateScore(p, azimuth, bearing(centerLat, centerLon, p.latitude, p.longitude))
  }

  // ------------------------------------------------------------------ ranking

  /** A candidate paired with its score, as `rank_points` returns them. */
  datatype ScoredPoint = ScoredPoint(point: ObservationPoint, score: real)

  function ByScore(sp: ScoredPoint): real { sp.score }

  /** Every point paired with its own score, in input order. */
  function ScoredPoints(points: seq<ObservationPoint>, azimuth: real, centerLat: real, centerLon: real,
                        bearing: BearingFn): (r: seq<ScoredPoint>)
    ensures |r| == |points|
    ensures forall k :: 0 <= k < |r| ==> r[k].point == points[k]
  {
    seq(|points|, k requires 0 <= k < |points| =>
      ScoredPoint(points[k], PointScore(points[k], azimuth, centerLat, centerLon, bearing)))
  }

  /** The points whose window covers `azimuth`. */
  function Covers(azimuth: real): ObservationPoint -> bool
  {
    (p: ObservationPoint) => p.CanObserveAzimuth(azimuth)
  }

  /** The worked example: three points on sectors 0-120, 120-240 and 240-360 and a target
      at azimuth 200; only the middle point covers it. */
  lemma SectorExample()
    ensures var a := ObservationPoint(120.28, 31.02, EASY, 0.0, 120.0, "A");
      var b := ObservationPoint(120.29, 31.03, MEDIUM, 120.0, 240.0, "B");
      var c := ObservationPoint(120.30, 31.04, HARD, 240.0, 360.0, "C");
      Filter([a, b, c], Covers(200.0)) == [b]
  {
    var a := ObservationPoint(120.28, 31.02, EASY, 0.0, 120.0, "A");
    var b := ObservationPoint(120.29, 31.03, MEDIUM, 120.0, 240.0, "B");
    var c := ObservationPoint(120.30, 31.04, HARD, 240.0, 360.0, "C");
    assert !a.CanObserveAzimuth(200.0) && b.CanObserveAzimuth(200.0) && !c.CanObserveAzimuth(200.0);
    assert [a, b, c][..2] == [a, b] && [a, b][..1] == [a] && [a][..0] == [];
    assert Filter([a], Covers(200.0)) == [];
    assert Filter([a, b], Covers(200.0)) == [b];
  }

  // ------------------------------------------------------------------ star information

  /** Labels of the equipment advice. */
  const SOLAR_FILTER: string := "专业滤镜 (Solar Filter)"
  const EYE_BINOCULARS_TELESCOPE: string := "肉眼 / 双筒 / 天文望远镜"
  const EYE_OR_BINOCULARS: string := "肉眼可见 / 双筒望远镜"
  const TELESCOPE: string := "天文望远镜"
  const NAKED_EYE: string := "肉眼可见"
  const BINOCULARS: string := "双筒望远镜"

  const SUN: string := "太阳"
  const MOON: string := "月亮"
  const BRIGHT_PLANETS: seq<string> := ["水星", "金星", "火星", "木星", "土星"]
  const DIM_PLANETS: seq<string> := ["天王星", "海王星"]

  /** The Chinese names of the Sun, the Moon and the planets. */
  predicate IsSolarSystemName(nameCn: string)
  {
    nameCn == SUN || nameCn == MOON || nameCn in BRIGHT_PLANETS || nameCn in DIM_PLANETS
  }

  /** `_get_equipment_recommendation`: fixed advice for the Sun, Moon and planets; for
      anything else, by apparent magnitude (brighter than 2: naked eye; brighter than 5:
      binoculars; otherwise, or when unknown, a telescope). */
  function EquipmentRecommendation(nameCn: string, magnitude: Option<real>): (r: string)
    ensures r in [SOLAR_FILTER, EYE_BINOCULARS_TELESCOPE, EYE_OR_BINOCULARS, TELESCOPE, NAKED_EYE, BINOCULARS]
    ensures !IsSolarSystemName(nameCn) ==>
      (r == NAKED_EYE <==> magnitude.Some? && magnitude.value < 2.0)
      && (r == BINOCULARS <==> magnitude.Some? && 2.0 <= magnitude.value < 5.0)
      && (r == TELESCOPE <==> magnitude.None? || magnitude.value >= 5.0)
    ensures r == SOLAR_FILTER <==> nameCn == SUN
    ensures nameCn == MOON ==> r == EYE_BINOCULARS_TELESCOPE
    ensures nameCn in BRIGHT_PLANETS ==> r == EYE_OR_BINOCULARS
    ensures nameCn in DIM_PLANETS ==> r == TELESCOPE
  {
    if nameCn == SUN then SOLAR_FILTER
    else if nameCn == MOON then EYE_BINOCULARS_TELESCOPE
    else if nameCn in BRIGHT_PLANETS then EYE_OR_BINOCULARS
    else if nameCn in DIM_PLANETS then TELESCOPE
    else if magnitude.Some? then
      if magnitude.value < 2.0 then NAKED_EYE
      else if magnitude.value < 5.0 then BINOCULARS
      else TELESCOPE
    else TELESCOPE
  }

  /** How much optical aid a piece of stellar advice calls for. */
  function AidLevel(advice: string): nat
  {
    if advice == NAKED_EYE then 0 else if advice == BINOCULARS then 1 else 2
  }

  /** For a star, a fainter magnitude never calls for less optical aid. */
  lemma EquipmentMonotoneInMagnitude(nameCn: string, brighter: real, fainter: real)
    requires !IsSolarSystemName(nameCn)
    requires brighter <= fainter
    ensures AidLevel(EquipmentRecommendation(nameCn, Some(brighter)))
         <= AidLevel(EquipmentRecommendation(nameCn, Some(fainter)))
  {
  }

  /** What `get_star_info` reports for a resolved target. */
  datatype StarInfo = StarInfo(
    name: string,
    nameCn: string,
    azimuth: real,
    altitude: real,
    ra: real,
    dec: real,
    observable: bool,
    magnitude: Option<real>,
    equipment: string)

  /** What the astronomy library resolves for a target at the observing time and place:
      its names, local azimuth and altitude, equatorial coordinates and catalogue
      magnitude (absent for bodies without one). */
  datatype ResolvedTarget = ResolvedTarget(
    name: string,
    nameCn: string,
    azimuth: real,
    altitude: real,
    ra: real,
    dec: real,
    magnitude: Option<real>)

  /** The star information `get_star_info` builds from a resolved target: the target is
      observable exactly when it is above the horizon. */
  function MakeStarInfo(t: ResolvedTarget): (info: StarInfo)
    ensures info.observable <==> t.altitude > 0.0
    ensures info.name == t.name && info.nameCn == t.nameCn && info.magnitude == t.magnitude
    ensures info.azimuth == t.azimuth && info.altitude == t.altitude
    ensures info.equipment == EquipmentRecommendation(t.nameCn, t.magnitude)
  {
    StarInfo(t.name, t.nameCn, t.azimuth, t.altitude, t.ra, t.dec, t.altitude > 0.0, t.magnitude,
             EquipmentRecommendation(t.nameCn, t.magnitude))
  }

  datatype Recommendation = Recommendation(starInfo: StarInfo, bestPoint: ScoredPoint, allPoints: seq<ScoredPoint>)

  /** A body from the visible-sky list (`get_visible_stars`). */
  datatype VisibleStar = VisibleStar(name: string, nameCn: string, azimuth: real, altitude: real, magnitude: real)

  /** The stars whose azimuth falls in `point`'s view window. */
  function InViewOf(point: ObservationPoint): VisibleStar -> bool
  {
    (s: VisibleStar) => point.CanObserveAzimuth(s.azimuth)
  }

  /** What `get_visible_stars_from_point` returns. */
  datatype PointView = PointView(point: ObservationPoint, stars: seq<VisibleStar>, count: int)

  // ------------------------------------------------------------------ loading records

  /** What one text line contributes when the points are loaded. */
  datatype RecordOutcome = Skipped | Parsed(point: ObservationPoint) | Malformed

  /** A line's whitespace-separated fields `longitude latitude difficulty view_start
      view_end name...`; fewer than six fields are skipped. */
  function ParseFields(parts: seq<string>, parseReal: string -> Option<real>): RecordOutcome
  {
    if |parts| >= 6 then
      var lon, lat := parseReal(parts[0]), parseReal(parts[1]);
      var start, end := parseReal(parts[3]), parseReal(parts[4]);
      if lon.Some? && lat.Some? && start.Some? && end.Some? then
        Parsed(ObservationPoint(lon.value, lat.value, parts[2], start.value, end.value, Join(parts[5..])))
      else Malformed
    else Skipped
  }

  /** One line of the points file: blank lines are skipped, the others are split into fields. */
  function ParseRecord(line: string, parseReal: string -> Option<real>): RecordOutcome
  {
    if IsBlank(line) then Skipped else ParseFields(Split(line), parseReal)
  }

  /** What a list of fields yields; see `ParseRecordFields`. */
  lemma ParseFieldsFacts(parts: seq<string>, parseReal: string -> Option<real>)
    requires forall k :: 0 <= k < |parts| ==> IsWord(parts[k])
    ensures ParseFields(parts, parseReal).Skipped? <==> |parts| < 6
    ensures var r := ParseFields(parts, parseReal);
      r.Parsed? ==>
      && r.point.difficulty == parts[2]
      && r.point.name == Join(parts[5..])
      && Split(r.point.name) == parts[5..]
      && parseReal(parts[0]) == Some(r.point.longitude)
      && parseReal(parts[1]) == Some(r.point.latitude)
      && parseReal(parts[3]) == Some(r.point.viewStart)
      && parseReal(parts[4]) == Some(r.point.viewEnd)
    ensures ParseFields(parts, parseReal).Malformed? <==>
      (|parts| >= 6 &&
       (parseReal(parts[0]).None? || parseReal(parts[1]).None? || parseReal(parts[3]).None? || parseReal(parts[4]).None?))
  {
    if |parts| >= 6 {
      SplitJoin(parts[5..]);
    }
  }

  /** What a record line yields: blank lines and lines with fewer than six fields are
      skipped; the name is every field from the sixth on, joined by single spaces, so
      that splitting it again gives those fields back; a number field `parseReal`
      rejects (a `float()` that raises) makes the line malformed. */
  lemma ParseRecordFields(line: string, parseReal: string -> Option<real>)
    ensures ParseRecord(line, parseReal).Skipped? <==> |Split(line)| < 6
    ensures var r := ParseRecord(line, parseReal);
      r.Parsed? ==> var parts := Split(line);
      && r.point.difficulty == parts[2]
      && r.point.name == Join(parts[5..])
      && Split(r.point.name) == parts[5..]
      && parseReal(parts[0]) == Some(r.point.longitude)
      && parseReal(parts[1]) == Some(r.point.latitude)
      && parseReal(parts[3]) == Some(r.point.viewStart)
      && parseReal(parts[4]) == Some(r.point.viewEnd)
    ensures ParseRecord(line, parseReal).Malformed? <==>
      (|Split(line)| >= 6 &&
       var parts := Split(line);
       (parseReal(parts[0]).None? || parseReal(parts[1]).None? || parseReal(parts[3]).None? || parseReal(parts[4]).None?))
  {
    if IsBlank(line) {
      SplitBlank(line);
    } else {
      SplitWords(line);
      ParseFieldsFacts(Split(line), parseReal);
    }
  }

  /** The points loaded from `lines`, and whether every line parsed; loading stops at
      the first malformed line. */
  function ParseAll(lines: seq<string>, parseReal: string -> Option<real>): (seq<ObservationPoint>, bool)
  {
    if lines == [] then ([], true)
    else match ParseRecord(lines[0], parseReal)
      case Skipped => ParseAll(lines[1..], parseReal)
      case Malformed => ([], false)
      case Parsed(p) =>
        var rest := ParseAll(lines[1..], parseReal);
        ([p] + rest.0, rest.1)
  }

  /** One line of `ParseAll`: what the first line contributes, then the rest. */
  lemma ParseAllStep(lines: seq<string>, parseReal: string -> Option<real>)
    requires lines != []
    ensures ParseRecord(lines[0], parseReal).Skipped? ==> ParseAll(lines, parseReal) == ParseAll(lines[1..], parseReal)
    ensures ParseRecord(lines[0], parseReal).Malformed? ==> ParseAll(lines, parseReal) == ([], false)
    ensures ParseRecord(lines[0], parseReal).Parsed? ==>
      ParseAll(lines, parseReal).0 == [ParseRecord(lines[0], parseReal).point] + ParseAll(lines[1..], parseReal).0
      && ParseAll(lines, parseReal).1 == ParseAll(lines[1..], parseReal).1
  {
  }

  /** Latitudes and longitudes of a list of points. */
  function Latitudes(points: seq<ObservationPoint>): (r: seq<real>)
    ensures |r| == |points| && forall k :: 0 <= k < |r| ==> r[k] == points[k].latitude
  {
    seq(|points|, k requires 0 <= k < |points| => points[k].latitude)
  }

  function Longitudes(points: seq<ObservationPoint>): (r: seq<real>)
    ensures |r| == |points| && forall k :: 0 <= k < |r| ==> r[k] == points[k].longitude
  {
    seq(|points|, k requires 0 <= k < |points| => points[k].longitude)
  }

  /** The centroid lies inside the bounding box of the loaded points. */
  lemma CentroidInsideBox(points: seq<ObservationPoint>, latLo: real, latHi: real, lonLo: real, lonHi: real)
    requires |points| > 0
    requires forall k :: 0 <= k < |points| ==> latLo <= points[k].latitude <= latHi
    requires forall k :: 0 <= k < |points| ==> lonLo <= points[k].longitude <= lonHi
    ensures latLo <= Sum(Latitudes(points)) / (|points| as real) <= latHi
    ensures lonLo <= Sum(Longitudes(points)) / (|points| as real) <= lonHi
  {
    MeanBounds(Latitudes(points), latLo, latHi);
    MeanBounds(Longitudes(points), lonLo, lonHi);
  }

  // ------------------------------------------------------------------ the selector

  /** `StarObservationSelector`: the loaded observation points and their centroid. */
  class StarObservationSelector {
    var observationPoints: seq<ObservationPoint>
    var avgLat: real
    var avgLon: real

    /** A selector with no points yet; the centroid starts at the island's position. */
    constructor ()
      ensures observationPoints == [] && avgLat == ISLAND_LAT && avgLon == ISLAND_LON
    {
      observationPoints := [];
      avgLat, avgLon := ISLAND_LAT, ISLAND_LON;
    }

    /** `load_data`: appends a point for every well-formed record line, then sets the
        centroid to the mean position of all points (the island's position when there
        are none). A malformed number aborts the load: the points read before it stay,
        and the centroid is not updated. */
    method LoadData(lines: seq<string>, parseReal: string -> Option<real>) returns (ok: bool)
      modifies this
      ensures ok == ParseAll(lines, parseReal).1
      ensures observationPoints == old(observationPoints) + ParseAll(lines, parseReal).0
      ensures ok && |observationPoints| > 0 ==>
        avgLat == Sum(Latitudes(observationPoints)) / (|observationPoints| as real)
        && avgLon == Sum(Longitudes(observationPoints)) / (|observationPoints| as real)
      ensures ok && |observationPoints| == 0 ==> avgLat == ISLAND_LAT && avgLon == ISLAND_LON
      ensures !ok ==> avgLat == old(avgLat) && avgLon == old(avgLon)
    {
      var i := 0;
      while i < |lines|
        invariant 0 <= i <= |lines|
        invariant observationPoints + ParseAll(lines[i..], parseReal).0
               == old(observationPoints) + ParseAll(lines, parseReal).0
        invariant ParseAll(lines[i..], parseReal).1 == ParseAll(lines, parseReal).1
        invariant avgLat == old(avgLat) && avgLon == old(avgLon)
      {
        ParseAllStep(lines[i..], parseReal);
        assert lines[i..][1..] == lines[i + 1..];
        match ParseRecord(lines[i], parseReal) {
          case Skipped =>
          case Malformed =>
            assert observationPoints + [] == observationPoints;
            return false;
          case Parsed(point) =>
            assert (observationPoints + [point]) + ParseAll(lines[i + 1..], parseReal).0
                == observationPoints + ([point] + ParseAll(lines[i + 1..], parseReal).0);
            observationPoints := observationPoints + [point];
        }
        i := i + 1;
      }
      assert lines[i..] == [];
      ok := true;
      if |observationPoints| > 0 {
        avgLat := Sum(Latitudes(observationPoints)) / (|observationPoints| as real);
        avgLon := Sum(Longitudes(observationPoints)) / (|observationPoints| as real);
      } else {
        avgLat, avgLon := ISLAND_LAT, ISLAND_LON;
      }
    }

    /** `find_suitable_points`: the loaded points that can see `azimuth`, in load order. */
    method FindSuitablePoints(azimuth: real) returns (suitable: seq<ObservationPoint>)
      ensures suitable == Filter(observationPoints, Covers(azimuth))
      ensures forall k :: 0 <= k < |suitable| ==> suitable[k] in observationPoints && suitable[k].CanObserveAzimuth(azimuth)
      ensures forall k :: 0 <= k < |observationPoints| && observationPoints[k].CanObserveAzimuth(azimuth)
                ==> observationPoints[k] in suitable
    {
      suitable := [];
      for i := 0 to |observationPoints|
        invariant suitable == Filter(observationPoints[..i], Covers(azimuth))
      {
        assert observationPoints[..i + 1][..i] == observationPoints[..i];
        var point := observationPoints[i];
        if point.CanObserveAzimuth(azimuth) {
          suitable := suitable + [point];
        }
      }
      assert observationPoints[..|observationPoints|] == observationPoints;
    }

    /** `rank_points`: every candidate with its own score, highest score first, equal
        scores keeping their input order (the sort is stable). */
    method RankPoints(points: seq<ObservationPoint>, azimuth: real, bearing: BearingFn)
      returns (ranked: seq<ScoredPoint>)
      ensures ranked == SortDesc(ScoredPoints(points, azimuth, avgLat, avgLon, bearing), ByScore)
      ensures |ranked| == |points|
      ensures multiset(ranked) == multiset(ScoredPoints(points, azimuth, avgLat, avgLon, bearing))
      ensures SortedDesc(ranked, ByScore)
      ensures forall k :: 0 <= k < |ranked| ==>
        ranked[k].point in points && ranked[k].score == PointScore(ranked[k].point, azimuth, avgLat, avgLon, bearing)
      ensures forall v :: Filter(ranked, HasKey(ByScore, v))
                       == Filter(ScoredPoints(points, azimuth, avgLat, avgLon, bearing), HasKey(ByScore, v))
    {
      var scored: seq<ScoredPoint> := [];
      for i := 0 to |points|
        invariant scored == ScoredPoints(points[..i], azimuth, avgLat, avgLon, bearing)
      {
        var score := CalculateScore(points[i], azimuth, bearing(avgLat, avgLon, points[i].latitude, points[i].longitude));
        scored := scored + [ScoredPoint(points[i], score)];
      }
      assert points[..|points|] == points;
      ranked := SortDesc(scored, ByScore);
      SortDescCorrect(scored, ByScore);
      forall v ensures Filter(ranked, HasKey(ByScore, v)) == Filter(scored, HasKey(ByScore, v)) {
        SortDescStable(scored, ByScore, v);
      }
      forall k | 0 <= k < |ranked|
        ensures ranked[k].point in points && ranked[k].score == PointScore(ranked[k].point, azimuth, avgLat, avgLon, bearing)
      {
        assert ranked[k] in multiset(scored);
        var j :| 0 <= j < |scored| && scored[j] == ranked[k];
      }
    }

    /** `recommend_for_star`, given what the astronomy library resolves for the target
        name (None when it cannot resolve it): nothing when the target is unknown, at or
        below the horizon, or seen by no point; otherwise the target's information, and
        the ranking of the points that see it, whose first entry is the best point. */
    method RecommendForStar(target: Option<ResolvedTarget>, bearing: BearingFn) returns (r: Option<Recommendation>)
      ensures r.None? <==>
        || target.None?
        || target.value.altitude <= 0.0
        || Filter(observationPoints, Covers(target.value.azimuth)) == []
      ensures r.Some? ==>
        var t := target.value;
        var candidates := Filter(observationPoints, Covers(t.azimuth));
        && r.value.starInfo == MakeStarInfo(t)
        && r.value.starInfo.observable
        && r.value.starInfo.equipment == EquipmentRecommendation(t.nameCn, t.magnitude)
        && r.value.allPoints == SortDesc(ScoredPoints(candidates, t.azimuth, avgLat, avgLon, bearing), ByScore)
        && |r.value.allPoints| == |candidates| > 0
        && r.value.bestPoint == r.value.allPoints[0]
        && (forall k :: 0 <= k < |r.value.allPoints| ==>
              r.value.allPoints[k].score <= r.value.bestPoint.score
              && r.value.allPoints[k].point.CanObserveAzimuth(t.azimuth))
    {
      if target.None? {
        return None;
      }
      var info := MakeStarInfo(target.value);
      if !info.observable {
        return None;
      }
      var suitable := FindSuitablePoints(info.azimuth);
      if |suitable| == 0 {
        return None;
      }
      var ranked := RankPoints(suitable, info.azimuth, bearing);
      r := Some(Recommendation(info, ranked[0], ranked));
    }

    /** `get_point_by_name`: the first loaded point with that name, if any. */
    method GetPointByName(name: string) returns (found: Option<ObservationPoint>)
      ensures found.None? <==> forall k :: 0 <= k < |observationPoints| ==> observationPoints[k].name != name
      ensures found.Some? ==> found.value.name == name
      ensures found.Some? ==>
        exists k :: 0 <= k < |observationPoints| && observationPoints[k] == found.value
          && forall j :: 0 <= j < k ==> observationPoints[j].name != name
    {
      for i := 0 to |observationPoints|
        invariant forall j :: 0 <= j < i ==> observationPoints[j].name != name
      {
        if observationPoints[i].name == name {
          return Some(observationPoints[i]);
        }
      }
      return None;
    }

    /** `get_visible_stars_from_point`, given the list of bodies above the horizon:
        nothing for an unknown point name; otherwise the bodies inside that point's view
        window, in list order, and their number. */
    method GetVisibleStarsFromPoint(pointName: string, allVisible: seq<VisibleStar>) returns (r: Option<PointView>)
      ensures r.None? <==> forall k :: 0 <= k < |observationPoints| ==> observationPoints[k].name != pointName
      ensures r.Some? ==>
        && r.value.point.name == pointName
        && (exists k :: 0 <= k < |observationPoints| && observationPoints[k] == r.value.point
              && forall j :: 0 <= j < k ==> observationPoints[j].name != pointName)
        && r.value.stars == Filter(allVisible, InViewOf(r.value.point))
        && r.value.count == |r.value.stars|
    {
      var point := GetPointByName(pointName);
      if point.None? {
        return None;
      }
      var p := point.value;
      var pointVisibleStars: seq<VisibleStar> := [];
      for i := 0 to |allVisible|
        invariant pointVisibleStars == Filter(allVisible[..i], InViewOf(p))
      {
        assert allVisible[..i + 1][..i] == allVisible[..i];
        if p.CanObserveAzimuth(allVisible[i].azimuth) {
          pointVisibleStars := pointVisibleStars + [allVisible[i]];
        }
      }
      assert allVisible[..|allVisible|] == allVisible;
      r := Some(PointView(p, pointVisibleStars, |pointVisibleStars|));
    }
  }
}
