/**
 * The river-level simulator: one step of a station's water-level series.
 *
 * A step starts from the station's previous reading (or a seeded one), adds a
 * weather impact and seasonal, daily, tidal, human, geological and momentum
 * terms, subtracts a natural decline, adds measurement noise, and clamps the
 * result to [0.2 * normal level, 1.3 * alert level 3].  The trend is read off
 * the clamped change with strict thresholds of +3 and -3 cm.
 *
 * The clock (month, hour, the value of the tidal sine) and every random draw
 * are parameters; `level_ratio ** 1.8` in the flow rate is the function
 * parameter `pow18`.
 */
module RiverLevelCrawler {
  import opened Wrappers
  import opened Draws
  import Levels

  // ---------------------------------------------------------------------
  // Station registry
  // ---------------------------------------------------------------------

  datatype Station = Station(
    locationName: string,
    riverName: string,
    latitude: real,
    longitude: real,
    normalLevel: real,      // cm
    alertLevel1: real,
    alertLevel2: real,
    alertLevel3: real,
    baseFlowRate: real,     // m3/s
    seasonalFactor: real,
    tidalEffect: bool,
    damControlled: bool,
    volatility: real)

  /** What the simulator relies on: ordered thresholds and a volatility in (0, 1). */
  predicate StationValid(s: Station) {
    && 0.0 < s.normalLevel < s.alertLevel1 < s.alertLevel2 < s.alertLevel3
    && 0.0 < s.volatility < 1.0
    && 0.0 < s.baseFlowRate
  }

  /** Lowest level a step may produce: 20% of the normal level. */
  function MinLevel(s: Station): real {
    s.normalLevel * 0.2
  }

  /** Highest level a step may produce: 130% of alert level 3. */
  function MaxLevel(s: Station): real {
    s.alertLevel3 * 1.3
  }

  const RiverStations: seq<Station> := [
    Station("Hanoi", "Red River", 21.0285, 105.8542,
            300.0, 450.0, 550.0, 650.0, 1200.0, 1.2, false, true, 0.15),
    Station("Ho_Chi_Minh_City", "Saigon River", 10.7769, 106.7009,
            120.0, 180.0, 220.0, 270.0, 800.0, 1.4, true, false, 0.25),
    Station("Da_Nang", "Han River", 16.0471, 108.2068,
            150.0, 200.0, 250.0, 300.0, 600.0, 1.3, true, true, 0.20),
    Station("Hue", "Perfume River", 16.4637, 107.5909,
            100.0, 150.0, 200.0, 250.0, 400.0, 1.1, false, false, 0.18),
    Station("Can_Tho", "Mekong River", 10.0452, 105.7469,
            200.0, 280.0, 350.0, 420.0, 2000.0, 1.5, true, false, 0.30),
    Station("Hai_Phong", "Thai Binh River", 20.8449, 106.6881,
            250.0, 350.0, 450.0, 550.0, 900.0, 1.1, true, true, 0.22),
    Station("Nha_Trang", "Cai River", 12.2388, 109.1967,
            80.0, 120.0, 160.0, 200.0, 300.0, 1.2, false, false, 0.28)
  ]

  /** A valid station's clamp interval is non-empty. */
  lemma ClampIntervalNonEmpty(s: Station)
    requires StationValid(s)
    ensures 0.0 < MinLevel(s) < s.normalLevel < s.alertLevel3 < MaxLevel(s)
  {
  }

  /** Every registered station is valid, so every station's clamp is sound. */
  lemma RegistryValid()
    ensures |RiverStations| == 7
    ensures forall i :: 0 <= i < |RiverStations| ==> StationValid(RiverStations[i])
    ensures forall i :: 0 <= i < |RiverStations| ==> MinLevel(RiverStations[i]) < MaxLevel(RiverStations[i])
  {
    forall i | 0 <= i < |RiverStations|
      ensures StationValid(RiverStations[i])
      ensures MinLevel(RiverStations[i]) < MaxLevel(RiverStations[i])
    {
      ClampIntervalNonEmpty(RiverStations[i]);
    }
  }

  // ---------------------------------------------------------------------
  // Clock and clamping
  // ---------------------------------------------------------------------

  /**
   * The readings of `datetime.now()` the step uses: the month, the hour and
   * `sin(2 * pi * hours_from_midnight / 12.5)`.
   */
  datatype Clock = Clock(month: int, hour: int, tideCycle: real)

  predicate ClockValid(c: Clock) {
    1 <= c.month <= 12 && 0 <= c.hour <= 23 && -1.0 <= c.tideCycle <= 1.0
  }

  /** `max(lo, min(hi, x))` */
  function Clamp(lo: real, hi: real, x: real): (r: real)
    requires lo <= hi
    ensures lo <= r <= hi
    ensures lo <= x <= hi ==> r == x
    ensures x < lo ==> r == lo
    ensures hi < x ==> r == hi
  {
    var capped := if x < hi then x else hi;
    if lo > capped then lo else capped
  }

  // ---------------------------------------------------------------------
  // Seasonal, daily and tidal factors
  // ---------------------------------------------------------------------

  /** Month multiplier before jitter: rainy season May-October, dry otherwise. */
  function SeasonalBase(month: int): (b: real)
    ensures 7 <= month <= 9 ==> b == 1.5
    ensures (month == 5 || month == 6 || month == 10) ==> b == 1.3
    ensures 2 <= month <= 4 ==> b == 0.6
    ensures (month < 2 || month > 10) ==> b == 0.8
  {
    if 5 <= month <= 10 then
      if 7 <= month <= 9 then 1.5 else 1.3
    else
      if 2 <= month <= 4 then 0.6 else 0.8
  }

  function SeasonalFactor(month: int, u: real): (f: real)
    requires IsUnit(u)
    ensures SeasonalBase(month) * 0.9 <= f <= SeasonalBase(month) * 1.1
  {
    SeasonalBase(month) * Uniform(0.9, 1.1, u)
  }

  /**
   * The synthetic-weather branch counts as rainy when the seasonal factor
   * exceeds 1.2: always in July-September, never from November to April,
   * and in May, June and October only for some draws.
   */
  lemma RainySeasonByMonth(month: int, u: real)
    requires IsUnit(u)
    ensures 7 <= month <= 9 ==> SeasonalFactor(month, u) > 1.2
    ensures (month <= 4 || month >= 11) ==> SeasonalFactor(month, u) <= 1.2
  {
  }

  lemma {:induction false} RainyInShoulderMonthDependsOnDraw()
    ensures SeasonalFactor(5, 0.0) <= 1.2 && SeasonalFactor(5, 0.5) > 1.2
  {
    assert Uniform(0.9, 1.1, 0.0) == 0.9;
    assert Uniform(0.9, 1.1, 0.5) == 1.0;
  }

  /** Hour-of-day multipliers: peaks around 7:00 and 18:00, troughs at 2:00 and 13:00. */
  const HourFactors: seq<real> := [
    0.95, 0.90, 0.85, 0.88, 0.92, 0.98,
    1.05, 1.08, 1.03, 1.00, 0.98, 0.95,
    0.90, 0.88, 0.92, 0.95, 0.98, 1.02,
    1.06, 1.04, 1.00, 0.98, 0.96, 0.94
  ]

  /** `hour_factors.get(hour, 1.0)` */
  function HourFactor(hour: int): real {
    if 0 <= hour < |HourFactors| then HourFactors[hour] else 1.0
  }

  lemma HourFactorsBounds()
    ensures |HourFactors| == 24
    ensures forall h :: 0 <= h < 24 ==> 0.85 <= HourFactors[h] <= 1.08
  {
  }

  function DailyCycleFactor(hour: int, u: real): (f: real)
    requires IsUnit(u)
    ensures HourFactor(hour) * 0.98 <= f <= HourFactor(hour) * 1.02
    ensures 0.85 * 0.98 <= f <= 1.08 * 1.02
  {
    HourFactorsBounds();
    HourFactor(hour) * Uniform(0.98, 1.02, u)
  }

  /**
   * Tidal multiplier: exactly 1.0 away from the sea; otherwise
   * 1 + cycle * amplitude * jitter / normal level, clamped to [0.8, 1.2].
   */
  function TidalEffect(s: Station, cycle: real, uAmplitude: real, uRandom: real): (f: real)
    requires StationValid(s) && -1.0 <= cycle <= 1.0
    requires IsUnit(uAmplitude) && IsUnit(uRandom)
    ensures !s.tidalEffect ==> f == 1.0
    ensures s.tidalEffect ==> 0.8 <= f <= 1.2
  {
    if !s.tidalEffect then 1.0
    else
      var amplitude := Uniform(5.0, 15.0, uAmplitude);
      var jitter := Uniform(0.8, 1.2, uRandom);
      Clamp(0.8, 1.2, 1.0 + (cycle * amplitude * jitter) / s.normalLevel)
  }

  // ---------------------------------------------------------------------
  // Weather impact
  // ---------------------------------------------------------------------

  /** The five weather quantities the impact is computed from. */
  datatype WeatherInputs = WeatherInputs(
    rainfall1h: real, rainfall3h: real, humidity: real, pressure: real, windSpeed: real)

  /** A stored weather payload: the decoded JSON object of numbers. */
  type Payload = map<string, real>

  /** Draws for a synthesised weather sample (used when no payload is stored). */
  datatype WeatherDraws = WeatherDraws(
    season: real, exponential: real, scale: real, accumulation: real,
    humidity: real, pressure: real, wind: real)

  predicate WeatherDrawsValid(d: WeatherDraws) {
    && IsUnit(d.season) && d.exponential >= 0.0 && IsUnit(d.scale)
    && IsUnit(d.accumulation) && IsUnit(d.humidity) && IsUnit(d.pressure) && IsUnit(d.wind)
  }

  /**
   * The synthesised sample: in a rainy draw `exponential(8) * uniform(0.5, 2)`
   * of rain, 2-4 times that over three hours, humid and low pressure; in a dry
   * draw `exponential(1) * uniform(0, 1.5)`, 1-2.5 times that, drier and higher
   * pressure.  `exponential` is the standard exponential draw.
   */
  function SyntheticWeather(month: int, d: WeatherDraws): (w: WeatherInputs)
    requires WeatherDrawsValid(d)
    ensures 0.0 <= w.rainfall1h <= w.rainfall3h
    ensures 5.0 <= w.windSpeed <= 25.0
    ensures SeasonalFactor(month, d.season) > 1.2 ==>
              75.0 <= w.humidity <= 95.0 && 995.0 <= w.pressure <= 1010.0
    ensures SeasonalFactor(month, d.season) <= 1.2 ==>
              50.0 <= w.humidity <= 75.0 && 1010.0 <= w.pressure <= 1025.0
  {
    var wind := Uniform(5.0, 25.0, d.wind);
    if SeasonalFactor(month, d.season) > 1.2 then
      var e := 8.0 * d.exponential;
      var s := Uniform(0.5, 2.0, d.scale);
      var r1 := e * s;
      var m := Uniform(2.0, 4.0, d.accumulation);
      ScaleAtLeastOne(e, s, m);
      WeatherInputs(r1, r1 * m, Uniform(75.0, 95.0, d.humidity), Uniform(995.0, 1010.0, d.pressure), wind)
    else
      var s := Uniform(0.0, 1.5, d.scale);
      var r1 := d.exponential * s;
      var m := Uniform(1.0, 2.5, d.accumulation);
      ScaleAtLeastOne(d.exponential, s, m);
      WeatherInputs(r1, r1 * m, Uniform(50.0, 75.0, d.humidity), Uniform(1010.0, 1025.0, d.pressure), wind)
  }

  /** A rain amount drawn as a product of non-negative factors, scaled by at least 1. */
  lemma ScaleAtLeastOne(e: real, s: real, m: real)
    requires 0.0 <= e && 0.0 <= s && 1.0 <= m
    ensures 0.0 <= e * s <= (e * s) * m
  {
    var x := e * s;
    assert 0.0 <= x;
    assert x * m - x == x * (m - 1.0);
  }

  /** The stored payload's fields, each defaulted when missing. */
  function WeatherFromPayload(p: Payload): WeatherInputs {
    WeatherInputs(Lookup(p, "rainfall_1h", 0.0), Lookup(p, "rainfall_3h", 0.0),
                  Lookup(p, "humidity", 70.0), Lookup(p, "pressure", 1013.0),
                  Lookup(p, "wind_speed", 10.0))
  }

  /** `not weather_data`: a missing payload or an empty one. */
  predicate NoWeather(weather: Option<Payload>) {
    weather.None? || |weather.value| == 0
  }

  function ResolveWeather(weather: Option<Payload>, month: int, d: WeatherDraws): (w: WeatherInputs)
    requires WeatherDrawsValid(d)
    ensures NoWeather(weather) ==> w == SyntheticWeather(month, d)
    ensures !NoWeather(weather) ==> w == WeatherFromPayload(weather.value)
  {
    if NoWeather(weather) then SyntheticWeather(month, d) else WeatherFromPayload(weather.value)
  }

  /** A payload with none of the five keys reads as 0 mm, 0 mm, 70 %, 1013 hPa, 10 km/h. */
  lemma PayloadDefaults(p: Payload)
    requires "rainfall_1h" !in p && "rainfall_3h" !in p && "humidity" !in p
    requires "pressure" !in p && "wind_speed" !in p
    ensures WeatherFromPayload(p) == WeatherInputs(0.0, 0.0, 70.0, 1013.0, 10.0)
  {
  }

  /** Per-mm coefficient of the last hour's rain: 2.0, 2.5, 3.0, 4.0 above 5, 10, 20 mm. */
  function InstantRainImpact(r1: real): (x: real)
    ensures x >= 0.0
    ensures r1 <= 0.0 ==> x == 0.0
  {
    if r1 > 0.0 then
      if r1 > 20.0 then r1 * 4.0
      else if r1 > 10.0 then r1 * 3.0
      else if r1 > 5.0 then r1 * 2.5
      else r1 * 2.0
    else 0.0
  }

  /** More rain in the last hour never lowers the instant impact. */
  lemma InstantRainMonotone(a: real, b: real)
    requires a <= b
    ensures InstantRainImpact(a) <= InstantRainImpact(b)
  {
  }

  /** Only the part of the 3-hour total above the 1-hour total counts, at 1.5 per mm. */
  function AccumulatedRainImpact(r1: real, r3: real): (x: real)
    ensures x >= 0.0
    ensures r3 <= r1 ==> x == 0.0
    ensures r3 > r1 ==> x == (r3 - r1) * 1.5
  {
    if r3 > r1 then (r3 - r1) * 1.5 else 0.0
  }

  /** Soil saturation: above 90 % amplifies by 1.4, above 80 % by 1.2, below 50 % dampens to 0.6. */
  function HumidityAdjusted(x: real, h: real): (r: real)
    ensures x >= 0.0 ==> x * 0.6 <= r <= x * 1.4
    ensures x == 0.0 ==> r == 0.0
  {
    if h > 90.0 then x * 1.4 else if h > 80.0 then x * 1.2 else if h < 50.0 then x * 0.6 else x
  }

  /** Storms amplify (below 990: 1.8, below 1000: 1.5, below 1005: 1.2); above 1020 dampens to 0.7. */
  function PressureAdjusted(x: real, p: real): (r: real)
    ensures x >= 0.0 ==> x * 0.7 <= r <= x * 1.8
    ensures x == 0.0 ==> r == 0.0
  {
    if p < 990.0 then x * 1.8 else if p < 1000.0 then x * 1.5 else if p < 1005.0 then x * 1.2
    else if p > 1020.0 then x * 0.7 else x
  }

  /** Strong wind drains (above 40: 0.8, above 25: 0.9); calm below 5 stagnates (1.1). */
  function WindAdjusted(x: real, w: real): (r: real)
    ensures x >= 0.0 ==> x * 0.8 <= r <= x * 1.1
    ensures x == 0.0 ==> r == 0.0
  {
    if w > 40.0 then x * 0.8 else if w > 25.0 then x * 0.9 else if w < 5.0 then x * 1.1 else x
  }

  /** The weather impact of a resolved sample: the rain terms, then the three adjustments in turn. */
  function RainImpact(w: WeatherInputs): (x: real)
    ensures x >= 0.0
    ensures w.rainfall1h <= 0.0 && w.rainfall3h <= w.rainfall1h ==> x == 0.0
  {
    var base := InstantRainImpact(w.rainfall1h) + AccumulatedRainImpact(w.rainfall1h, w.rainfall3h);
    WindAdjusted(PressureAdjusted(HumidityAdjusted(base, w.humidity), w.pressure), w.windSpeed)
  }

  /**
   * There is no per-step cap: for any bound, enough rain in neutral weather
   * gives a larger impact.
   */
  lemma {:induction false} RainImpactUnbounded(bound: real)
    requires bound >= 0.0
    ensures RainImpact(WeatherInputs(bound + 21.0, 0.0, 70.0, 1013.0, 10.0)) > bound
  {
    var w := WeatherInputs(bound + 21.0, 0.0, 70.0, 1013.0, 10.0);
    assert InstantRainImpact(w.rainfall1h) == (bound + 21.0) * 4.0;
    assert AccumulatedRainImpact(w.rainfall1h, w.rainfall3h) == 0.0;
  }

  /**
   * `get_weather_impact_advanced`: resolves the sample (synthesising one when
   * there is no payload), then accumulates the impact.
   */
  method GetWeatherImpactAdvanced(weather: Option<Payload>, month: int, d: WeatherDraws)
    returns (impact: real)
    requires WeatherDrawsValid(d)
    ensures impact == RainImpact(ResolveWeather(weather, month, d))
    ensures impact >= 0.0
  {
    var w := ResolveWeather(weather, month, d);
    impact := AccumulateRainImpact(w);
  }

  /** The `+=` / `*=` chain of `get_weather_impact_advanced` over a resolved sample. */
  method AccumulateRainImpact(w: WeatherInputs) returns (impact: real)
    ensures impact == RainImpact(w)
    ensures impact >= 0.0
  {
    var rainfall1h, rainfall3h := w.rainfall1h, w.rainfall3h;
    var humidity, pressure, windSpeed := w.humidity, w.pressure, w.windSpeed;

    var rainImpact := 0.0;
    if rainfall1h > 0.0 {
      if rainfall1h > 20.0 {
        rainImpact := rainImpact + rainfall1h * 4.0;
      } else if rainfall1h > 10.0 {
        rainImpact := rainImpact + rainfall1h * 3.0;
      } else if rainfall1h > 5.0 {
        rainImpact := rainImpact + rainfall1h * 2.5;
      } else {
        rainImpact := rainImpact + rainfall1h * 2.0;
      }
    }
    assert rainImpact == InstantRainImpact(rainfall1h);
    if rainfall3h > rainfall1h {
      var accumulated := rainfall3h - rainfall1h;
      rainImpact := rainImpact + accumulated * 1.5;
    }
    ghost var base := InstantRainImpact(rainfall1h) + AccumulatedRainImpact(rainfall1h, rainfall3h);
    assert rainImpact == base;

    if humidity > 90.0 {
      rainImpact := rainImpact * 1.4;
    } else if humidity > 80.0 {
      rainImpact := rainImpact * 1.2;
    } else if humidity < 50.0 {
      rainImpact := rainImpact * 0.6;
    }
    ghost var afterHumidity := HumidityAdjusted(base, humidity);
    assert rainImpact == afterHumidity;

    if pressure < 990.0 {
      rainImpact := rainImpact * 1.8;
    } else if pressure < 1000.0 {
      rainImpact := rainImpact * 1.5;
    } else if pressure < 1005.0 {
      rainImpact := rainImpact * 1.2;
    } else if pressure > 1020.0 {
      rainImpact := rainImpact * 0.7;
    }
    ghost var afterPressure := PressureAdjusted(afterHumidity, pressure);
    assert rainImpact == afterPressure;

    if windSpeed > 40.0 {
      rainImpact := rainImpact * 0.8;
    } else if windSpeed > 25.0 {
      rainImpact := rainImpact * 0.9;
    } else if windSpeed < 5.0 {
      rainImpact := rainImpact * 1.1;
    }
    assert rainImpact == WindAdjusted(afterPressure, windSpeed);
    impact := rainImpact;
  }

  // ---------------------------------------------------------------------
  // Human and geological impacts
  // ---------------------------------------------------------------------

  /** Rolls and amounts for the three human events. */
  datatype HumanDraws = HumanDraws(
    damRoll: real, damAmount: real,
    miningRoll: real, miningAmount: real,
    constructionRoll: real, constructionAmount: real)

  predicate HumanDrawsValid(d: HumanDraws) {
    && IsUnit(d.damRoll) && IsUnit(d.damAmount)
    && IsUnit(d.miningRoll) && IsUnit(d.miningAmount)
    && IsUnit(d.constructionRoll) && IsUnit(d.constructionAmount)
  }

  /** A dam release (5 % chance, 20-60 cm), only at dam-controlled stations. */
  function DamRelease(s: Station, d: HumanDraws): (x: real)
    requires HumanDrawsValid(d)
    ensures x == 0.0 || (s.damControlled && d.damRoll < 0.05 && 20.0 <= x <= 60.0)
    ensures s.damControlled && d.damRoll < 0.05 ==> 20.0 <= x <= 60.0
  {
    if s.damControlled && d.damRoll < 0.05 then Uniform(20.0, 60.0, d.damAmount) else 0.0
  }

  /** Sand mining (2 % chance) lowers the level by 10-25 cm. */
  function Mining(d: HumanDraws): (x: real)
    requires HumanDrawsValid(d)
    ensures d.miningRoll < 0.02 ==> -25.0 <= x <= -10.0
    ensures d.miningRoll >= 0.02 ==> x == 0.0
  {
    if d.miningRoll < 0.02 then Uniform(-10.0, -25.0, d.miningAmount) else 0.0
  }

  /** Hydraulic construction (1 % chance) shifts the level by -5 to +15 cm. */
  function Construction(d: HumanDraws): (x: real)
    requires HumanDrawsValid(d)
    ensures d.constructionRoll < 0.01 ==> -5.0 <= x <= 15.0
    ensures d.constructionRoll >= 0.01 ==> x == 0.0
  {
    if d.constructionRoll < 0.01 then Uniform(-5.0, 15.0, d.constructionAmount) else 0.0
  }

  function HumanImpact(s: Station, d: HumanDraws): real
    requires HumanDrawsValid(d)
  {
    DamRelease(s, d) + Mining(d) + Construction(d)
  }

  /** True when at least one of the three human events fires. */
  predicate HumanEventFires(s: Station, d: HumanDraws) {
    (s.damControlled && d.damRoll < 0.05) || d.miningRoll < 0.02 || d.constructionRoll < 0.01
  }

  method GetHumanActivitiesImpact(s: Station, d: HumanDraws) returns (impact: real)
    requires HumanDrawsValid(d)
    ensures impact == HumanImpact(s, d)
    ensures -30.0 <= impact <= 75.0
    ensures !HumanEventFires(s, d) ==> impact == 0.0
    ensures !s.damControlled ==> -30.0 <= impact <= 15.0
  {
    impact := 0.0;
    if s.damControlled {
      if d.damRoll < 0.05 {
        var damRelease := Uniform(20.0, 60.0, d.damAmount);
        impact := impact + damRelease;
      }
    }
    if d.miningRoll < 0.02 {
      var miningImpact := Uniform(-10.0, -25.0, d.miningAmount);
      impact := impact + miningImpact;
    }
    if d.constructionRoll < 0.01 {
      var constructionImpact := Uniform(-5.0, 15.0, d.constructionAmount);
      impact := impact + constructionImpact;
    }
  }

  datatype GeoDraws = GeoDraws(erosionRoll: real, erosionAmount: real, sedimentation: real)

  predicate GeoDrawsValid(d: GeoDraws) {
    IsUnit(d.erosionRoll) && IsUnit(d.erosionAmount) && IsUnit(d.sedimentation)
  }

  /** Rare erosion (0.5 %, +8-20 cm) plus a sedimentation drift of -2 to +3 cm. */
  function GeologicalImpact(d: GeoDraws): real
    requires GeoDrawsValid(d)
  {
    (if d.erosionRoll < 0.005 then Uniform(8.0, 20.0, d.erosionAmount) else 0.0)
    + Uniform(-2.0, 3.0, d.sedimentation)
  }

  method GetGeologicalFactors(d: GeoDraws) returns (impact: real)
    requires GeoDrawsValid(d)
    ensures impact == GeologicalImpact(d)
    ensures -2.0 <= impact <= 23.0
    ensures d.erosionRoll >= 0.005 ==> -2.0 <= impact <= 3.0
  {
    impact := 0.0;
    if d.erosionRoll < 0.005 {
      var erosionImpact := Uniform(8.0, 20.0, d.erosionAmount);
      impact := impact + erosionImpact;
    }
    var sedimentation := Uniform(-2.0, 3.0, d.sedimentation);
    impact := impact + sedimentation;
  }

  // ---------------------------------------------------------------------
  // Natural decline
  // ---------------------------------------------------------------------

  /** Drainage range in cm by how far the previous level sits above normal. */
  function DeclineTier(ratio: real): (t: (real, real))
    ensures 0.0 < t.0 < t.1
  {
    if ratio > 2.0 then (15.0, 25.0)
    else if ratio > 1.5 then (10.0, 18.0)
    else if ratio > 1.2 then (6.0, 12.0)
    else if ratio > 0.8 then (3.0, 8.0)
    else (1.0, 4.0)
  }

  /** A higher tier never drains more slowly than a lower one. */
  lemma DeclineTierMonotone(a: real, b: real)
    requires a <= b
    ensures DeclineTier(a).0 <= DeclineTier(b).0 && DeclineTier(a).1 <= DeclineTier(b).1
  {
  }

  lemma ProductWithin(n: real, f: real, nlo: real, nhi: real, flo: real, fhi: real)
    requires 0.0 <= nlo <= n <= nhi && 0.0 <= flo <= f <= fhi
    ensures nlo * flo <= n * f <= nhi * fhi
  {
    assert (n - nlo) * flo >= 0.0;
    assert n * (f - flo) >= 0.0;
    assert (nhi - n) * f >= 0.0;
    assert nhi * (fhi - f) >= 0.0;
  }

  function CalculateNaturalFlowChange(prevLevel: real, s: Station, uTier: real, uVolatility: real): (r: real)
    requires StationValid(s) && IsUnit(uTier) && IsUnit(uVolatility)
    ensures DeclineTier(prevLevel / s.normalLevel).0 * (1.0 - s.volatility) <= r
    ensures r <= DeclineTier(prevLevel / s.normalLevel).1 * (1.0 + s.volatility)
    ensures r > 0.0
  {
    var tier := DeclineTier(prevLevel / s.normalLevel);
    var naturalDecline := Uniform(tier.0, tier.1, uTier);
    var volatilityFactor := 1.0 + Uniform(-s.volatility, s.volatility, uVolatility);
    ProductWithin(naturalDecline, volatilityFactor, tier.0, tier.1, 1.0 - s.volatility, 1.0 + s.volatility);
    assert tier.0 * (1.0 - s.volatility) > 0.0;
    naturalDecline * volatilityFactor
  }

  // ---------------------------------------------------------------------
  // One simulation step
  // ---------------------------------------------------------------------

  datatype Trend = Rising | Falling | Stable

  /** The last stored reading of a station. */
  datatype Previous = Previous(waterLevel: real, trend: Trend)

  /** Every draw one step consumes. */
  datatype StepDraws = StepDraws(
    initialSeason: real, initialScale: real,
    weather: WeatherDraws,
    season: real, daily: real,
    tidalAmplitude: real, tidalRandom: real,
    human: HumanDraws, geo: GeoDraws,
    declineTier: real, declineVolatility: real,
    momentum: real, noise: real, flowVariation: real)

  predicate StepDrawsValid(d: StepDraws) {
    && IsUnit(d.initialSeason) && IsUnit(d.initialScale)
    && WeatherDrawsValid(d.weather)
    && IsUnit(d.season) && IsUnit(d.daily)
    && IsUnit(d.tidalAmplitude) && IsUnit(d.tidalRandom)
    && HumanDrawsValid(d.human) && GeoDrawsValid(d.geo)
    && IsUnit(d.declineTier) && IsUnit(d.declineVolatility)
    && IsUnit(d.momentum) && IsUnit(d.noise) && IsUnit(d.flowVariation)
  }

  /**
   * Where the step starts: the stored reading, or else a level near normal
   * (normal * seasonal factor * uniform(0.8, 1.2)) with a stable trend.
   */
  function StartingPoint(s: Station, previous: Option<Previous>, month: int, d: StepDraws): (p: Previous)
    requires StepDrawsValid(d)
    ensures previous.Some? ==> p == previous.value
    ensures previous.None? ==> p.trend == Stable
    ensures previous.None? ==>
              p.waterLevel == s.normalLevel * SeasonalFactor(month, d.initialSeason) * Uniform(0.8, 1.2, d.initialScale)
  {
    if previous.Some? then previous.value
    else Previous(s.normalLevel * SeasonalFactor(month, d.initialSeason) * Uniform(0.8, 1.2, d.initialScale), Stable)
  }

  /** Trend continuation: +2 to +8 after a rise, -8 to -2 after a fall, none otherwise. */
  function Momentum(previousTrend: Trend, u: real): (m: real)
    requires IsUnit(u)
    ensures previousTrend == Rising ==> 2.0 <= m <= 8.0
    ensures previousTrend == Falling ==> -8.0 <= m <= -2.0
    ensures previousTrend == Stable ==> m == 0.0
  {
    match previousTrend
    case Rising => Uniform(2.0, 8.0, u)
    case Falling => Uniform(-8.0, -2.0, u)
    case Stable => 0.0
  }

  /** The trend of a change, with strict +-3 cm thresholds. */
  function TrendOf(change: real): (t: Trend)
    ensures t == Rising <==> change > 3.0
    ensures t == Falling <==> change < -3.0
    ensures t == Stable <==> -3.0 <= change <= 3.0
  {
    if change > 3.0 then Rising else if change < -3.0 then Falling else Stable
  }

  /** Seasonal term: 30 % of the normal level per unit of seasonal factor above 1. */
  function SeasonalImpact(s: Station, month: int, u: real): real
    requires IsUnit(u)
  {
    (SeasonalFactor(month, u) - 1.0) * s.normalLevel * 0.3
  }

  /** Daily term: 10 % of the normal level per unit of daily factor above 1. */
  function DailyImpact(s: Station, hour: int, u: real): real
    requires IsUnit(u)
  {
    (DailyCycleFactor(hour, u) - 1.0) * s.normalLevel * 0.1
  }

  /** Tidal term: the whole normal level per unit of tidal factor above 1. */
  function TidalImpact(s: Station, c: Clock, d: StepDraws): real
    requires StationValid(s) && ClockValid(c) && StepDrawsValid(d)
  {
    (TidalEffect(s, c.tideCycle, d.tidalAmplitude, d.tidalRandom) - 1.0) * s.normalLevel
  }

  /** The sum of all terms of one step, before noise and clamping. */
  function TotalChange(s: Station, previous: Option<Previous>, weather: Option<Payload>, c: Clock, d: StepDraws): real
    requires StationValid(s) && ClockValid(c) && StepDrawsValid(d)
  {
    var start := StartingPoint(s, previous, c.month, d);
    RainImpact(ResolveWeather(weather, c.month, d.weather))
    + SeasonalImpact(s, c.month, d.season)
    + DailyImpact(s, c.hour, d.daily)
    + TidalImpact(s, c, d)
    + HumanImpact(s, d.human)
    + GeologicalImpact(d.geo)
    + Momentum(start.trend, d.momentum)
    - CalculateNaturalFlowChange(start.waterLevel, s, d.declineTier, d.declineVolatility)
  }

  /** `TotalChange` as the sum of its terms, with the starting point named. */
  lemma TotalChangeTerms(s: Station, previous: Option<Previous>, weather: Option<Payload>, c: Clock, d: StepDraws,
                         start: Previous)
    requires StationValid(s) && ClockValid(c) && StepDrawsValid(d)
    requires start == StartingPoint(s, previous, c.month, d)
    ensures TotalChange(s, previous, weather, c, d)
            == RainImpact(ResolveWeather(weather, c.month, d.weather))
               + SeasonalImpact(s, c.month, d.season) + DailyImpact(s, c.hour, d.daily) + TidalImpact(s, c, d)
               + HumanImpact(s, d.human) + GeologicalImpact(d.geo) + Momentum(start.trend, d.momentum)
               - CalculateNaturalFlowChange(start.waterLevel, s, d.declineTier, d.declineVolatility)
  {
  }

  /** The new level before clamping: previous level + total change + noise in [-2, 2]. */
  function UnclampedLevel(s: Station, previous: Option<Previous>, weather: Option<Payload>, c: Clock, d: StepDraws): real
    requires StationValid(s) && ClockValid(c) && StepDrawsValid(d)
  {
    StartingPoint(s, previous, c.month, d).waterLevel + TotalChange(s, previous, weather, c, d)
    + Uniform(-2.0, 2.0, d.noise)
  }

  /** The 1.3 flow boost applies only to a real payload reporting more than 15 mm in the last hour. */
  function FlowBoost(weather: Option<Payload>): (b: real)
    ensures b == 1.3 <==> !NoWeather(weather) && Lookup(weather.value, "rainfall_1h", 0.0) > 15.0
    ensures b == 1.0 || b == 1.3
  {
    if !NoWeather(weather) && Lookup(weather.value, "rainfall_1h", 0.0) > 15.0 then 1.3 else 1.0
  }

  /** What one step reports (before rounding to 2 or 3 decimals). */
  datatype RiverReading = RiverReading(
    waterLevel: real, flowRate: real, trend: Trend, weatherImpact: real,
    levelChange: real, seasonalFactor: real, tidalFactor: real)

  /**
   * The first half of `simulate_river_level`: the starting point and the sum
   * of the weather, seasonal, daily, tidal, human, geological and momentum
   * terms less the natural decline.
   */
  method LevelChangeTerms(s: Station, previous: Option<Previous>, weather: Option<Payload>, c: Clock, d: StepDraws)
    returns (start: Previous, weatherImpact: real, totalChange: real)
    requires StationValid(s) && ClockValid(c) && StepDrawsValid(d)
    ensures start == StartingPoint(s, previous, c.month, d)
    ensures weatherImpact == RainImpact(ResolveWeather(weather, c.month, d.weather))
    ensures totalChange == TotalChange(s, previous, weather, c, d)
  {
    start := StartingPoint(s, previous, c.month, d);
    var prevLevel, prevTrend := start.waterLevel, start.trend;

    weatherImpact := GetWeatherImpactAdvanced(weather, c.month, d.weather);

    var seasonalImpact := SeasonalImpact(s, c.month, d.season);

    var dailyImpact := DailyImpact(s, c.hour, d.daily);

    var tidalImpact := TidalImpact(s, c, d);

    var humanImpact := GetHumanActivitiesImpact(s, d.human);
    var geologicalImpact := GetGeologicalFactors(d.geo);
    var naturalDecline := CalculateNaturalFlowChange(prevLevel, s, d.declineTier, d.declineVolatility);
    var momentumImpact := Momentum(prevTrend, d.momentum);

    totalChange := weatherImpact + seasonalImpact + dailyImpact + tidalImpact
                   + humanImpact + geologicalImpact + momentumImpact - naturalDecline;
    assert humanImpact == HumanImpact(s, d.human);
    assert geologicalImpact == GeologicalImpact(d.geo);
    TotalChangeTerms(s, previous, weather, c, d, start);
  }

  /**
   * The flow of a step: the base flow scaled by the level ratio raised to
   * 1.8 (the parameter `pow18`), the heavy-rain boost and a 0.85-1.15 variation.
   */
  function FlowRate(s: Station, level: real, weather: Option<Payload>, u: real, pow18: real -> real): real
    requires StationValid(s) && IsUnit(u)
  {
    s.baseFlowRate * pow18(level / s.normalLevel) * FlowBoost(weather) * Uniform(0.85, 1.15, u)
  }

  /** The flow-rate statements at the end of `simulate_river_level`. */
  method StepFlowRate(s: Station, level: real, weather: Option<Payload>, u: real, pow18: real -> real)
    returns (flowRate: real)
    requires StationValid(s) && IsUnit(u)
    ensures flowRate == FlowRate(s, level, weather, u, pow18)
  {
    var levelRatio := level / s.normalLevel;
    flowRate := s.baseFlowRate * pow18(levelRatio);
    flowRate := flowRate * FlowBoost(weather);
    var flowVariation := Uniform(0.85, 1.15, u);
    flowRate := flowRate * flowVariation;
  }

  /**
   * `simulate_river_level`: one step for station `s`.  `previous` is the
   * stored reading, if any, with its level taken as a float; `pow18(x)`
   * stands for `x ** 1.8`.
   */
  method SimulateRiverLevel(s: Station, previous: Option<Previous>, weather: Option<Payload>,
                            c: Clock, d: StepDraws, pow18: real -> real)
    returns (r: RiverReading)
    requires StationValid(s) && ClockValid(c) && StepDrawsValid(d)
    ensures MinLevel(s) <= r.waterLevel <= MaxLevel(s)
    ensures r.waterLevel == Clamp(MinLevel(s), MaxLevel(s), UnclampedLevel(s, previous, weather, c, d))
    ensures r.levelChange == r.waterLevel - StartingPoint(s, previous, c.month, d).waterLevel
    ensures r.trend == TrendOf(r.levelChange)
    ensures r.weatherImpact == RainImpact(ResolveWeather(weather, c.month, d.weather))
    ensures r.seasonalFactor == SeasonalFactor(c.month, d.season)
    ensures r.tidalFactor == TidalEffect(s, c.tideCycle, d.tidalAmplitude, d.tidalRandom)
    ensures r.flowRate == FlowRate(s, r.waterLevel, weather, d.flowVariation, pow18)
  {
    var start, weatherImpact, totalChange := LevelChangeTerms(s, previous, weather, c, d);
    var prevLevel := start.waterLevel;
    var seasonalFactor := SeasonalFactor(c.month, d.season);
    var tidalFactor := TidalEffect(s, c.tideCycle, d.tidalAmplitude, d.tidalRandom);

    var newLevel := prevLevel + totalChange;
    var measurementNoise := Uniform(-2.0, 2.0, d.noise);
    newLevel := newLevel + measurementNoise;

    var minLevel := MinLevel(s);
    var maxLevel := MaxLevel(s);
    newLevel := Clamp(minLevel, maxLevel, newLevel);

    var levelChange := newLevel - prevLevel;
    var trend := TrendOf(levelChange);

    var flowRate := StepFlowRate(s, newLevel, weather, d.flowVariation, pow18);

    r := RiverReading(newLevel, flowRate, trend, weatherImpact, levelChange, seasonalFactor, tidalFactor);
  }

  /** The numeric types `prev_level` can have in Python. */
  datatype PyNumber = PyFloat(x: real) | PyDecimal(x: real)

  /**
   * `prev_level` as the code holds it: the stored reading comes from a
   * DECIMAL(6,2) column through a default cursor and so is a `Decimal`; the
   * simulated start is a `float`.
   */
  function PrevLevelAsRead(s: Station, previous: Option<Previous>, month: int, d: StepDraws): (n: PyNumber)
    requires StepDrawsValid(d)
    ensures n.PyDecimal? <==> previous.Some?
    ensures n.x == StartingPoint(s, previous, month, d).waterLevel
  {
    if previous.Some? then PyDecimal(previous.value.waterLevel)
    else PyFloat(StartingPoint(s, previous, month, d).waterLevel)
  }

  /** Python's `a + b`: a `Decimal` and a `float` do not mix (a TypeError, None here). */
  function PyAdd(a: PyNumber, b: PyNumber): (r: Option<PyNumber>)
    ensures r.None? <==> a.PyDecimal? != b.PyDecimal?
    ensures r.Some? ==> r.value.x == a.x + b.x && r.value.PyDecimal? == a.PyDecimal?
  {
    match (a, b)
    case (PyFloat(x), PyFloat(y)) => Some(PyFloat(x + y))
    case (PyDecimal(x), PyDecimal(y)) => Some(PyDecimal(x + y))
    case _ => None
  }

  /**
   * `simulate_river_level` as written: `prev_level + total_change` adds the
   * float total to `prev_level` as read, which raises for every station with
   * a stored reading (None here; the caller's `except` skips the station).
   * Without a stored reading the step is the one `SimulateRiverLevel` models.
   */
  method SimulateRiverLevelAsWritten(s: Station, previous: Option<Previous>, weather: Option<Payload>,
                                     c: Clock, d: StepDraws, pow18: real -> real)
    returns (r: Option<RiverReading>)
    requires StationValid(s) && ClockValid(c) && StepDrawsValid(d)
    ensures r.None? <==> previous.Some?
    ensures r.Some? ==> MinLevel(s) <= r.value.waterLevel <= MaxLevel(s)
    ensures r.Some? ==> r.value.waterLevel == Clamp(MinLevel(s), MaxLevel(s), UnclampedLevel(s, previous, weather, c, d))
    ensures r.Some? ==> r.value.trend == TrendOf(r.value.levelChange)
  {
    var start, weatherImpact, totalChange := LevelChangeTerms(s, previous, weather, c, d);
    var newLevel := PyAdd(PrevLevelAsRead(s, previous, c.month, d), PyFloat(totalChange));
    if newLevel.None? {
      return None;
    }
    var reading := SimulateRiverLevel(s, previous, weather, c, d, pow18);
    r := Some(reading);
  }

  /** A synthesised sample never earns the heavy-rain flow boost, however heavy its rain. */
  lemma SyntheticWeatherNeverBoostsFlow(weather: Option<Payload>)
    requires NoWeather(weather)
    ensures FlowBoost(weather) == 1.0
  {
  }

  /** With the level away from the bounds, the reported change is the total change plus noise. */
  lemma UnclampedStepChange(s: Station, previous: Option<Previous>, weather: Option<Payload>, c: Clock, d: StepDraws)
    requires StationValid(s) && ClockValid(c) && StepDrawsValid(d)
    requires MinLevel(s) <= UnclampedLevel(s, previous, weather, c, d) <= MaxLevel(s)
    ensures Clamp(MinLevel(s), MaxLevel(s), UnclampedLevel(s, previous, weather, c, d))
            - StartingPoint(s, previous, c.month, d).waterLevel
            == TotalChange(s, previous, weather, c, d) + Uniform(-2.0, 2.0, d.noise)
  {
  }

  /** `main`'s report: the alert class of a level against the station's own thresholds. */
  function StationAlertLevel(level: real, s: Station): (k: int)
    requires StationValid(s)
    ensures 0 <= k <= 3
    ensures k == 0 <==> level < s.alertLevel1
    ensures k == 1 <==> s.alertLevel1 <= level < s.alertLevel2
    ensures k == 2 <==> s.alertLevel2 <= level < s.alertLevel3
    ensures k == 3 <==> s.alertLevel3 <= level
  {
    Levels.AlertClass(level, s.alertLevel1, s.alertLevel2, s.alertLevel3)
  }

  /** The clamp keeps every class reachable: the lowest level is normal, the highest is class 3. */
  lemma ClampedLevelsSpanAllClasses(s: Station)
    requires StationValid(s)
    ensures StationAlertLevel(MinLevel(s), s) == 0
    ensures StationAlertLevel(MaxLevel(s), s) == 3
  {
  }
}
