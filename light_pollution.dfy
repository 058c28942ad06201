/** The simulated sky brightness of light_pollution_service.py: a base SQM reading
    (magnitudes per square arcsecond; larger is darker) adjusted by keywords in the
    point's name and by a small position-dependent perturbation, and the Bortle class
    estimated from it. */
module LightPollution {
  import opened Text
  import opened Angles
  import opened Rounding

  /** The island's base reading, a Bortle 4 sky. */
  const BASE_SQM: real := 20.45

  /** The readings are kept within [MIN_SQM, MAX_SQM]. */
  const MIN_SQM: real := 18.0
  const MAX_SQM: real := 22.0

  /** The name keywords, tested in this order; the first group that matches decides. */
  const SUMMIT: string := "山顶"
  const HILLSIDE: string := "山腰"
  const RESIDENTS: string := "居民"
  const VILLAGE: string := "村"
  const LODGING: string := "宿"
  const PIER: string := "码头"
  const VISITOR_CENTRE: string := "游客中心"
  const LAKESIDE: string := "湖边"
  const WETLAND: string := "湿地"
  const VIEWING_DECK: string := "观景台"

  /** The adjustment the point's name earns: darker on a summit or hillside, brighter
      near houses, the pier, the lake or a viewing deck, none otherwise. */
  function NameAdjustment(name: string): (adj: real)
    ensures Contains(name, SUMMIT) ==> adj == 0.15
    ensures !Contains(name, SUMMIT) && Contains(name, HILLSIDE) ==> adj == 0.08
    ensures adj == -0.45 <==>
      !Contains(name, SUMMIT) && !Contains(name, HILLSIDE)
      && (Contains(name, RESIDENTS) || Contains(name, VILLAGE) || Contains(name, LODGING))
    ensures (!Contains(name, SUMMIT) && !Contains(name, HILLSIDE) && !Contains(name, RESIDENTS)
       && !Contains(name, VILLAGE) && !Contains(name, LODGING)
       && (Contains(name, PIER) || Contains(name, VISITOR_CENTRE)))
      ==> adj == -0.35
    ensures (!Contains(name, SUMMIT) && !Contains(name, HILLSIDE) && !Contains(name, RESIDENTS)
       && !Contains(name, VILLAGE) && !Contains(name, LODGING) && !Contains(name, PIER)
       && !Contains(name, VISITOR_CENTRE)
       && (Contains(name, LAKESIDE) || Contains(name, WETLAND)))
      ==> adj == -0.15
    ensures (!Contains(name, SUMMIT) && !Contains(name, HILLSIDE) && !Contains(name, RESIDENTS)
       && !Contains(name, VILLAGE) && !Contains(name, LODGING) && !Contains(name, PIER)
       && !Contains(name, VISITOR_CENTRE) && !Contains(name, LAKESIDE) && !Contains(name, WETLAND)
       && Contains(name, VIEWING_DECK))
      ==> adj == -0.05
    ensures adj == 0.0 <==>
      !Contains(name, SUMMIT) && !Contains(name, HILLSIDE) && !Contains(name, RESIDENTS)
      && !Contains(name, VILLAGE) && !Contains(name, LODGING) && !Contains(name, PIER)
      && !Contains(name, VISITOR_CENTRE) && !Contains(name, LAKESIDE) && !Contains(name, WETLAND)
      && !Contains(name, VIEWING_DECK)
    ensures -0.45 <= adj <= 0.15
  {
    if Contains(name, SUMMIT) then 0.15
    else if Contains(name, HILLSIDE) then 0.08
    else if Contains(name, RESIDENTS) || Contains(name, VILLAGE) || Contains(name, LODGING) then -0.45
    else if Contains(name, PIER) || Contains(name, VISITOR_CENTRE) then -0.35
    else if Contains(name, LAKESIDE) || Contains(name, WETLAND) then -0.15
    else if Contains(name, VIEWING_DECK) then -0.05
    else 0.0
  }

  /** A fixed pseudo-random digit from the position: `(lat * 1000 + lon * 1000) % 10`. */
  function GeoHash(lat: real, lon: real): (h: real)
    ensures 0.0 <= h < 10.0
  {
    FloorMod(lat * 1000.0 + lon * 1000.0, 10.0)
  }

  /** The position's perturbation, `(hash - 5) * 0.01`, within [-0.05, 0.05). */
  function Perturbation(lat: real, lon: real): (d: real)
    ensures -0.05 <= d < 0.05
  {
    (GeoHash(lat, lon) - 5.0) * 0.01
  }

  /** `max(18.0, min(22.0, sqm))`. */
  function Clamp(sqm: real): (c: real)
    ensures MIN_SQM <= c <= MAX_SQM
    ensures MIN_SQM <= sqm <= MAX_SQM ==> c == sqm
  {
    if sqm > MAX_SQM then MAX_SQM else if sqm < MIN_SQM then MIN_SQM else sqm
  }

  /** `_sqm_to_bortle`: the Bortle class (1 darkest, 9 brightest) by SQM threshold. */
  function SqmToBortle(sqm: real): (bortle: int)
    ensures 1 <= bortle <= 9
    ensures bortle == 1 <==> sqm >= 21.99
    ensures bortle == 2 <==> 21.89 <= sqm < 21.99
    ensures bortle == 3 <==> 21.69 <= sqm < 21.89
    ensures bortle == 4 <==> 20.49 <= sqm < 21.69
    ensures bortle == 5 <==> 19.50 <= sqm < 20.49
    ensures bortle == 6 <==> 18.94 <= sqm < 19.50
    ensures bortle == 7 <==> 18.38 <= sqm < 18.94
    ensures bortle == 8 <==> 17.80 <= sqm < 18.38
    ensures bortle == 9 <==> sqm < 17.80
  {
    if sqm >= 21.99 then 1
    else if sqm >= 21.89 then 2
    else if sqm >= 21.69 then 3
    else if sqm >= 20.49 then 4
    else if sqm >= 19.50 then 5
    else if sqm >= 18.94 then 6
    else if sqm >= 18.38 then 7
    else if sqm >= 17.80 then 8
    else 9
  }

  /** A darker sky never gets a worse class. */
  lemma BortleMonotone(darker: real, brighter: real)
    requires brighter <= darker
    ensures SqmToBortle(darker) <= SqmToBortle(brighter)
  {
  }

  /** A clamped reading is never in class 9: the lowest it can be, 18.0, is class 8. */
  lemma ClampedNeverClassNine(sqm: real)
    ensures SqmToBortle(Clamp(sqm)) <= 8
  {
  }

  /** The reading before clamping. */
  function RawSqm(name: string, lat: real, lon: real): (sqm: real)
    ensures 19.95 <= sqm < 20.65
  {
    BASE_SQM + NameAdjustment(name) + Perturbation(lat, lon)
  }

  /** What `get_pollution_data` returns, apart from the radiance. */
  datatype PollutionData = PollutionData(sqm: real, bortle: int)

  /** `get_pollution_data`: the reading rounded to two decimals, and the class of the
      unrounded reading. Every point of the island comes out between 19.95 and 20.65,
      so the clamp never acts and the class is always 4 or 5. */
  function GetPollutionData(name: string, lat: real, lon: real): (d: PollutionData)
    ensures (d.sqm * 100.0).Floor as real == d.sqm * 100.0
    ensures -0.5 <= (d.sqm - RawSqm(name, lat, lon)) * 100.0 <= 0.5
    ensures 19.95 <= d.sqm <= 20.65
    ensures d.bortle == 4 || d.bortle == 5
    ensures Clamp(RawSqm(name, lat, lon)) == RawSqm(name, lat, lon)
    ensures d.bortle == SqmToBortle(RawSqm(name, lat, lon))
  {
    var sqm := Clamp(RawSqm(name, lat, lon));
    RoundedReadingBounds(sqm);
    RoundScaledError(sqm, 100.0);
    assert Pow10(2) == 100;
    PollutionData(RoundDigits(sqm, 2), SqmToBortle(sqm))
  }

  lemma RoundedReadingBounds(sqm: real)
    requires 19.95 <= sqm <= 20.65
    ensures 19.95 <= RoundDigits(sqm, 2) <= 20.65
  {
    assert Pow10(2) == 100;
    ScaleMonotone(19.95, sqm, 100.0);
    ScaleMonotone(sqm, 20.65, 100.0);
    RoundScaledBetween(sqm, 100.0, 1995, 2065);
  }

  /** At the same position, a summit point is at least as dark as any other point, and
      its class is no worse. */
  lemma SummitIsDarkest(summit: string, other: string, lat: real, lon: real)
    requires Contains(summit, SUMMIT)
    ensures RawSqm(other, lat, lon) <= RawSqm(summit, lat, lon)
    ensures GetPollutionData(summit, lat, lon).bortle <= GetPollutionData(other, lat, lon).bortle
  {
    BortleMonotone(RawSqm(summit, lat, lon), RawSqm(other, lat, lon));
  }

  /** A name with no keyword keeps the base reading up to the perturbation. */
  lemma PlainNameKeepsBase(name: string, lat: real, lon: real)
    requires !Contains(name, SUMMIT) && !Contains(name, HILLSIDE) && !Contains(name, RESIDENTS)
    requires !Contains(name, VILLAGE) && !Contains(name, LODGING) && !Contains(name, PIER)
    requires !Contains(name, VISITOR_CENTRE) && !Contains(name, LAKESIDE) && !Contains(name, WETLAND)
    requires !Contains(name, VIEWING_DECK)
    ensures RawSqm(name, lat, lon) == BASE_SQM + Perturbation(lat, lon)
  {
  }
}
