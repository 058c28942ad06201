/** The stargazing index of weather_service.py: a 0-100 score from the cloud cover and
    the moon phase, and the labels shown for the score and for the phase.

    The forecast request itself is outside the model: the two readings it supplies
    arrive as arguments. */
module Weather {
  import opened Options
  import opened Rounding
  import opened Angles

  // ------------------------------------------------------------------ the index

  /** Sky score: the clear share of the sky, never below 0. */
  function CloudScore(cloudCover: real): (r: real)
    ensures r >= 0.0
    ensures 0.0 <= cloudCover ==> r <= 100.0
    ensures cloudCover >= 100.0 ==> r == 0.0
  {
    MaxReal(0.0, 100.0 - cloudCover)
  }

  /** Moon factor: 0 at full moon (phase 0.5), rising linearly to 1 at new moon (0 or 1). */
  function MoonFactor(phase: real): (f: real)
    ensures 0.0 <= phase <= 1.0 ==> 0.0 <= f <= 1.0
    ensures phase == 0.5 ==> f == 0.0
    ensures phase == 0.0 || phase == 1.0 ==> f == 1.0
  {
    Abs(phase - 0.5) * 2.0
  }

  /** The index: 70% sky score, 30% moon score (the moon factor as a percentage). */
  function StargazingScore(cloudCover: real, phase: real): (s: real)
    ensures 0.0 <= cloudCover && 0.0 <= phase <= 1.0 ==> 0.0 <= s <= 100.0
  {
    CloudScore(cloudCover) * 0.7 + (MoonFactor(phase) * 100.0) * 0.3
  }

  /** More cloud never raises the index. */
  lemma ScoreFallsWithCloud(cover1: real, cover2: real, phase: real)
    requires cover1 <= cover2
    ensures StargazingScore(cover2, phase) <= StargazingScore(cover1, phase)
  {
  }

  /** The moon's effect is symmetric about full moon: waxing and waning phases at the
      same distance from 0.5 score alike. */
  lemma ScoreSymmetricInPhase(cloudCover: real, phase: real)
    ensures StargazingScore(cloudCover, phase) == StargazingScore(cloudCover, 1.0 - phase)
  {
  }

  /** A clear sky at new moon is the best case, an overcast sky at full moon the worst. */
  lemma ScoreExtremes()
    ensures StargazingScore(0.0, 0.0) == 100.0 && StargazingScore(0.0, 1.0) == 100.0
    ensures StargazingScore(100.0, 0.5) == 0.0
  {
    assert CloudScore(0.0) == 100.0 && CloudScore(100.0) == 0.0;
    assert MoonFactor(0.0) == 1.0 && MoonFactor(1.0) == 1.0 && MoonFactor(0.5) == 0.0;
  }

  // ------------------------------------------------------------------ labels

  const EXCELLENT: string := "极佳"
  const GOOD: string := "良好"
  const FAIR: string := "一般"
  const POOR: string := "较差"
  const UNSUITABLE: string := "不宜"

  /** `_get_condition_text`: bands of width 20 from 80 down. */
  function ConditionText(score: real): (t: string)
    ensures t == EXCELLENT <==> score >= 80.0
    ensures t == GOOD <==> 60.0 <= score < 80.0
    ensures t == FAIR <==> 40.0 <= score < 60.0
    ensures t == POOR <==> 20.0 <= score < 40.0
    ensures t == UNSUITABLE <==> score < 20.0
  {
    if score >= 80.0 then EXCELLENT
    else if score >= 60.0 then GOOD
    else if score >= 40.0 then FAIR
    else if score >= 20.0 then POOR
    else UNSUITABLE
  }

  /** The position of a condition label on the scale, worst first. */
  function ConditionRank(t: string): nat
  {
    if t == EXCELLENT then 4 else if t == GOOD then 3 else if t == FAIR then 2
    else if t == POOR then 1 else 0
  }

  /** A higher index never gets a worse label. */
  lemma ConditionMonotone(s1: real, s2: real)
    requires s1 <= s2
    ensures ConditionRank(ConditionText(s1)) <= ConditionRank(ConditionText(s2))
  {
  }

  const NEW_MOON: string := "新月"
  const WAXING_CRESCENT: string := "蛾眉月"
  const FIRST_QUARTER: string := "上弦月"
  const WAXING_GIBBOUS: string := "盈凸月"
  const FULL_MOON: string := "满月"
  const WANING_GIBBOUS: string := "亏凸月"
  const LAST_QUARTER: string := "下弦月"
  const WANING_CRESCENT: string := "残月"

  /** `_get_moon_phase_text`: the phase (0 and 1 new, 0.5 full) named by band. */
  function MoonPhaseText(phase: real): (t: string)
    ensures t == NEW_MOON <==> phase < 0.03 || phase > 0.97
    ensures t == WAXING_CRESCENT <==> 0.03 <= phase < 0.25
    ensures t == FIRST_QUARTER <==> 0.25 <= phase < 0.27
    ensures t == WAXING_GIBBOUS <==> 0.27 <= phase < 0.48
    ensures t == FULL_MOON <==> 0.48 <= phase < 0.52
    ensures t == WANING_GIBBOUS <==> 0.52 <= phase < 0.73
    ensures t == LAST_QUARTER <==> 0.73 <= phase < 0.77
    ensures t == WANING_CRESCENT <==> 0.77 <= phase <= 0.97
  {
    if phase < 0.03 || phase > 0.97 then NEW_MOON
    else if phase < 0.25 then WAXING_CRESCENT
    else if phase < 0.27 then FIRST_QUARTER
    else if phase < 0.48 then WAXING_GIBBOUS
    else if phase < 0.52 then FULL_MOON
    else if phase < 0.73 then WANING_GIBBOUS
    else if phase < 0.77 then LAST_QUARTER
    else WANING_CRESCENT
  }

  /** The new-moon band is symmetric about 0 (and 1), whereas the full-moon band
      includes 0.48 but not 0.52. */
  lemma MoonBandsAroundNewAndFull(phase: real)
    ensures MoonPhaseText(phase) == NEW_MOON <==> MoonPhaseText(1.0 - phase) == NEW_MOON
    ensures MoonPhaseText(0.48) == FULL_MOON && MoonPhaseText(0.52) == WANING_GIBBOUS
  {
  }

  // ------------------------------------------------------------------ the report

  /** The stargazing part of what `get_current_weather` returns. */
  datatype StargazingReport = StargazingReport(
    cloudCover: real,
    moonPhase: real,
    stargazingScore: int,
    conditionText: string,
    moonPhaseText: string)

  /** The report for the forecast's current cloud cover and first daily moon phase. A
      missing moon phase counts as 0; a missing cloud cover makes the computation fail,
      which yields no report. The label is taken from the unrounded index. */
  function Report(cloudCover: Option<real>, moonPhase: Option<real>): (r: Option<StargazingReport>)
    ensures r.None? <==> cloudCover.None?
    ensures r.Some? ==> r.value.moonPhase == (if moonPhase.Some? then moonPhase.value else 0.0)
    ensures r.Some? && 0.0 <= cloudCover.value && 0.0 <= r.value.moonPhase <= 1.0 ==>
      0 <= r.value.stargazingScore <= 100
    ensures r.Some? ==>
      -0.5 <= (r.value.stargazingScore as real) - StargazingScore(cloudCover.value, r.value.moonPhase) <= 0.5
    ensures r.Some? ==> r.value.conditionText == ConditionText(StargazingScore(cloudCover.value, r.value.moonPhase))
    ensures r.Some? ==> r.value.moonPhaseText == MoonPhaseText(r.value.moonPhase)
  {
    match cloudCover
    case None => None
    case Some(cover) =>
      var phase := if moonPhase.Some? then moonPhase.value else 0.0;
      var score := StargazingScore(cover, phase);
      RoundedIndexBounds(cover, phase);
      Some(StargazingReport(cover, phase, RoundHalfEven(score), ConditionText(score), MoonPhaseText(phase)))
  }

  /** The rounded index stays in [0, 100] when the readings are in range. */
  lemma RoundedIndexBounds(cover: real, phase: real)
    ensures 0.0 <= cover && 0.0 <= phase <= 1.0 ==> 0 <= RoundHalfEven(StargazingScore(cover, phase)) <= 100
  {
    if 0.0 <= cover && 0.0 <= phase <= 1.0 {
      RoundHalfEvenBetween(StargazingScore(cover, phase), 0, 100);
    }
  }

  /** Because the label is read off the unrounded index, a report can show the score 80
      labelled "good" rather than "excellent": a clear sky at phase 0.34 gives 79.6. */
  lemma LabelCanDisagreeWithShownScore()
    ensures var r := Report(Some(0.0), Some(0.34));
      r.Some? && r.value.stargazingScore == 80 && r.value.conditionText == GOOD
      && ConditionText(r.value.stargazingScore as real) == EXCELLENT
  {
    assert StargazingScore(0.0, 0.34) == 79.6;
  }
}
