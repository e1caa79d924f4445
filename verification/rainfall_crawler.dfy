/**
 * The weather crawler: the fixed list of crawled locations, the reading it
 * extracts from a Windy point-forecast response, and how many old rows the
 * database clean-up removes.
 */
module RainfallCrawler {
  import opened Wrappers
  import RiverLevelCrawler

  /** A crawled location. */
  datatype Location = Location(name: string, lat: real, lon: real)

  const Locations: seq<Location> := [
    Location("Hanoi", 21.0285, 105.8542),
    Location("Ho_Chi_Minh_City", 10.7769, 106.7009),
    Location("Da_Nang", 16.0471, 108.2068),
    Location("Hue", 16.4637, 107.5909),
    Location("Can_Tho", 10.0452, 105.7469),
    Location("Hai_Phong", 20.8449, 106.6881),
    Location("Nha_Trang", 12.2388, 109.1967)
  ]

  /**
   * The weather locations are the river stations, in the same order and at
   * the same coordinates, so the loader's join by location name pairs every
   * weather row with its river.
   */
  lemma LocationsAreStations()
    ensures |Locations| == |RiverLevelCrawler.RiverStations| == 7
    ensures forall i :: 0 <= i < 7 ==>
              && Locations[i].name == RiverLevelCrawler.RiverStations[i].locationName
              && Locations[i].lat == RiverLevelCrawler.RiverStations[i].latitude
              && Locations[i].lon == RiverLevelCrawler.RiverStations[i].longitude
    ensures forall i, j :: 0 <= i < j < 7 ==> Locations[i].name != Locations[j].name
  {
  }

  /** Rows kept in the weather table before a clean-up starts. */
  const MaxRecords: int := 2000

  /**
   * `check_and_cleanup_database`: above the maximum, the excess plus 500 of
   * the oldest rows are deleted, leaving 1500; otherwise nothing is deleted.
   */
  function RecordsToDelete(total: nat): (n: nat)
    ensures total > MaxRecords ==> total - n == 1500
    ensures total <= MaxRecords ==> n == 0
    ensures n <= total
    ensures total - n <= MaxRecords
  {
    if total > MaxRecords then total - MaxRecords + 500 else 0
  }

  /** A field of the response: a list of numbers, or some JSON value that has no length. */
  datatype Field = Series(values: seq<real>) | NotAList

  /** The decoded response: fields by key. */
  type WindyData = map<string, Field>

  /**
   * The list a field is read from: the '-surface' key when it holds a
   * non-empty list, else the bare key when it does, else the empty list.
   * None: `len` was applied to a value that has none, which raises.
   */
  function ChosenSeries(data: WindyData, surfaceKey: string, bareKey: string): (r: Option<seq<real>>)
    ensures surfaceKey in data && data[surfaceKey].Series? && |data[surfaceKey].values| > 0
            ==> r == Some(data[surfaceKey].values)
    ensures (surfaceKey !in data || (data[surfaceKey].Series? && |data[surfaceKey].values| == 0))
            && bareKey in data && data[bareKey].Series? && |data[bareKey].values| > 0
            ==> r == Some(data[bareKey].values)
    ensures r.None? <==> (surfaceKey in data && data[surfaceKey].NotAList?)
                         || ((surfaceKey !in data || |data[surfaceKey].values| == 0)
                             && bareKey in data && data[bareKey].NotAList?)
    ensures r.Some? && |r.value| == 0 ==>
              (surfaceKey !in data || data[surfaceKey].values == []) && (bareKey !in data || data[bareKey].values == [])
  {
    if surfaceKey in data && data[surfaceKey].NotAList? then None
    else if surfaceKey in data && |data[surfaceKey].values| > 0 then Some(data[surfaceKey].values)
    else if bareKey in data && data[bareKey].NotAList? then None
    else if bareKey in data && |data[bareKey].values| > 0 then Some(data[bareKey].values)
    else Some([])
  }

  /** The first element, or 0 when the list is empty. */
  function FirstOrZero(xs: seq<real>): (x: real)
    ensures |xs| > 0 ==> x == xs[0]
    ensures |xs| == 0 ==> x == 0.0
  {
    if |xs| > 0 then xs[0] else 0.0
  }

  /** The 3-hour rain: the sum of the first three values when there are three, else the first value, else 0. */
  function ThreeHourRain(xs: seq<real>): (x: real)
    ensures |xs| >= 3 ==> x == xs[0] + xs[1] + xs[2]
    ensures 0 < |xs| < 3 ==> x == xs[0]
    ensures |xs| == 0 ==> x == 0.0
  {
    if |xs| >= 3 then xs[0] + xs[1] + xs[2] else FirstOrZero(xs)
  }

  /** With non-negative precipitation the 3-hour total is never below the 1-hour value. */
  lemma ThreeHourRainAtLeastFirst(xs: seq<real>)
    requires forall i :: 0 <= i < |xs| ==> xs[i] >= 0.0
    ensures ThreeHourRain(xs) >= FirstOrZero(xs)
  {
    if |xs| >= 3 {
      assert xs[1] >= 0.0 && xs[2] >= 0.0;
    }
  }

  /** The reading stored for one location. */
  datatype WindyReading = WindyReading(
    timestamp: string, source: string,
    temperature: real, humidity: real, pressure: real,
    rainfall1h: real, rainfall3h: real, windSpeed: real)

  /**
   * `process_windy_response`: each field read by key precedence with 0 when
   * no list is present; the 1-hour rain is the first precipitation value and
   * the 3-hour rain sums the first three.  A raised exception gives None.
   */
  function ProcessWindyResponse(data: WindyData, timestamp: string): (r: Option<WindyReading>)
    ensures r.Some? <==>
              && ChosenSeries(data, "temp-surface", "temp").Some?
              && ChosenSeries(data, "rh-surface", "rh").Some?
              && ChosenSeries(data, "pressure-surface", "pressure").Some?
              && ChosenSeries(data, "precip-surface", "precip").Some?
              && ChosenSeries(data, "wind-surface", "wind").Some?
    ensures r.Some? ==> r.value.source == "windy_api" && r.value.timestamp == timestamp
    ensures r.Some? ==> r.value.temperature == FirstOrZero(ChosenSeries(data, "temp-surface", "temp").value)
    ensures r.Some? ==> r.value.humidity == FirstOrZero(ChosenSeries(data, "rh-surface", "rh").value)
    ensures r.Some? ==> r.value.pressure == FirstOrZero(ChosenSeries(data, "pressure-surface", "pressure").value)
    ensures r.Some? ==> r.value.rainfall1h == FirstOrZero(ChosenSeries(data, "precip-surface", "precip").value)
    ensures r.Some? ==> r.value.rainfall3h == ThreeHourRain(ChosenSeries(data, "precip-surface", "precip").value)
    ensures r.Some? ==> r.value.windSpeed == FirstOrZero(ChosenSeries(data, "wind-surface", "wind").value)
  {
    var temperature := ChosenSeries(data, "temp-surface", "temp");
    var humidity := ChosenSeries(data, "rh-surface", "rh");
    var pressure := ChosenSeries(data, "pressure-surface", "pressure");
    var precip := ChosenSeries(data, "precip-surface", "precip");
    var wind := ChosenSeries(data, "wind-surface", "wind");
    if temperature.None? || humidity.None? || pressure.None? || precip.None? || wind.None? then None
    else
      Some(WindyReading(timestamp, "windy_api",
                        FirstOrZero(temperature.value), FirstOrZero(humidity.value),
                        FirstOrZero(pressure.value),
                        FirstOrZero(precip.value), ThreeHourRain(precip.value),
                        FirstOrZero(wind.value)))
  }

  /** A response with no precipitation list reads as no rain at all. */
  lemma NoPrecipitationMeansNoRain(data: WindyData, timestamp: string)
    requires "precip-surface" !in data && "precip" !in data
    requires ProcessWindyResponse(data, timestamp).Some?
    ensures ProcessWindyResponse(data, timestamp).value.rainfall1h == 0.0
    ensures ProcessWindyResponse(data, timestamp).value.rainfall3h == 0.0
  {
  }

  /** The crawler's reading feeds the simulator's weather payload under the keys it looks up. */
  function AsPayload(w: WindyReading): (p: RiverLevelCrawler.Payload)
    ensures RiverLevelCrawler.WeatherFromPayload(p)
            == RiverLevelCrawler.WeatherInputs(w.rainfall1h, w.rainfall3h, w.humidity, w.pressure, w.windSpeed)
  {
    map["temperature" := w.temperature, "humidity" := w.humidity, "pressure" := w.pressure,
        "rainfall_1h" := w.rainfall1h, "rainfall_3h" := w.rainfall3h, "wind_speed" := w.windSpeed]
  }
}
