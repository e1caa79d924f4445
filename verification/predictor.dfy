/**
 * The flood-risk predictor: per-row normalisation of the stored weather and
 * river readings, the rule-based risk labels, the class-balanced synthetic
 * training corpus, the decisions `train_model` takes around the random-forest
 * classifier, and the post-processing of the classifier's output.
 *
 * A DataFrame is a `Table`: the set of columns it has and its rows.  A row is
 * a record with one field per column the code ever uses; a field whose column
 * is absent from the table is never read.  The classifier itself is opaque:
 * a function from a feature vector to a predicted class and a probability
 * vector.
 */
module Predictor {
  import opened Wrappers
  import opened Draws
  import Levels

  // ---------------------------------------------------------------------------
  // Tables

  datatype Column =
    | LocationName | RiverName | Latitude | Longitude
    | Temperature | Humidity | Pressure | Rainfall1h | Rainfall3h | WindSpeed
    | WaterLevel | WaterLevelRatio | NormalLevel | AlertLevel1 | AlertLevel2 | AlertLevel3
    | FlowRate | FlowRateNormal | AlertLevelExceeded | TrendRising | TrendFalling
    | FloodRiskLevel | FloodRisk | CreatedAt

  datatype Row = Row(
    locationName: string, riverName: string, latitude: real, longitude: real,
    temperature: real, humidity: real, pressure: real,
    rainfall1h: real, rainfall3h: real, windSpeed: real,
    waterLevel: real, waterLevelRatio: real, normalLevel: real,
    alertLevel1: real, alertLevel2: real, alertLevel3: real,
    flowRate: real, flowRateNormal: real,
    alertLevelExceeded: int, trendRising: int, trendFalling: int,
    floodRiskLevel: int, floodRisk: int, createdAt: string)

  datatype Table = Table(columns: set<Column>, rows: seq<Row>)

  /** Columns of a `load_data_from_db` row. */
  const WeatherColumns: set<Column> :=
    {LocationName, Latitude, Longitude, Temperature, Humidity, Pressure,
     Rainfall1h, Rainfall3h, WindSpeed, CreatedAt}

  /** Columns of a `load_combined_data` row. */
  const CombinedColumns: set<Column> :=
    {LocationName, Latitude, Longitude, Temperature, Humidity, Pressure,
     Rainfall1h, Rainfall3h, WindSpeed, CreatedAt,
     RiverName, WaterLevel, WaterLevelRatio, NormalLevel, AlertLevel1, AlertLevel2, AlertLevel3,
     FlowRate, FlowRateNormal, AlertLevelExceeded, TrendRising, TrendFalling}

  /** Columns of the synthetic corpus: the combined columns and the advanced label. */
  const SyntheticColumns: set<Column> :=
    {LocationName, Latitude, Longitude, Temperature, Humidity, Pressure,
     Rainfall1h, Rainfall3h, WindSpeed, CreatedAt,
     RiverName, WaterLevel, WaterLevelRatio, NormalLevel, AlertLevel1, AlertLevel2, AlertLevel3,
     FlowRate, FlowRateNormal, AlertLevelExceeded, TrendRising, TrendFalling, FloodRiskLevel}

  /** `pd.DataFrame(list_of_dicts)`: no rows means no columns at all. */
  function FrameOf(columns: set<Column>, rows: seq<Row>): (t: Table)
    ensures t.rows == rows
    ensures |rows| > 0 ==> t.columns == columns
    ensures |rows| == 0 ==> t.columns == {}
  {
    Table(if |rows| == 0 then {} else columns, rows)
  }

  // ---------------------------------------------------------------------------
  // Row normalisation (load_combined_data, load_data_from_db)

  /** A stored weather object, decoded from JSON: numbers by key. */
  type Weather = map<string, real>

  /** A temperature above 100 is taken to be in Kelvin. */
  function Celsius(t: real): (c: real)
    ensures t > 100.0 ==> c == t - 273.15
    ensures t <= 100.0 ==> c == t
  {
    if t > 100.0 then t - 273.15 else t
  }

  /**
   * A reading of a temperature above -173.15 °C and at most 100 °C gives the
   * same value whether it was stored in Celsius or in Kelvin.
   */
  lemma CelsiusReadsBothScales(c: real)
    requires -173.15 < c <= 100.0
    ensures Celsius(c) == c
    ensures Celsius(c + 273.15) == c
  {
  }

  /** A pressure above 50000 is taken to be in pascals. */
  function Hectopascal(p: real): (h: real)
    ensures p > 50000.0 ==> h == p / 100.0
    ensures p <= 50000.0 ==> h == p
  {
    if p > 50000.0 then p / 100.0 else p
  }

  /** A pressure above 500 hPa and at most 50000 hPa reads the same in hPa and in Pa. */
  lemma HectopascalReadsBothUnits(h: real)
    requires 500.0 < h <= 50000.0
    ensures Hectopascal(h) == h
    ensures Hectopascal(h * 100.0) == h
  {
  }

  /** One row of the rainfall table: a location and its stored weather JSON. */
  datatype WeatherRecord = WeatherRecord(
    locationName: string, latitude: real, longitude: real,
    precipitation: Option<Weather>,   // None: the JSON does not decode to an object
    createdAt: string)

  /** One row of the join of the rainfall and river-level tables. */
  datatype JoinedRecord = JoinedRecord(
    locationName: string, latitude: real, longitude: real,
    precipitation: Option<Weather>, weatherTime: string,
    riverName: string, waterLevel: real, normalLevel: real,
    alert1: real, alert2: real, alert3: real,
    flowRate: Option<real>,           // None: SQL NULL
    trend: string)

  /** The weather columns of a row: converted units, and 0 for every missing key. */
  function WeatherRow(name: string, lat: real, lon: real, w: Weather, createdAt: string): (r: Row)
    ensures r.temperature == Celsius(Lookup(w, "temperature", 0.0))
    ensures r.pressure == Hectopascal(Lookup(w, "pressure", 0.0))
    ensures "humidity" !in w ==> r.humidity == 0.0
    ensures "rainfall_1h" !in w ==> r.rainfall1h == 0.0
    ensures "rainfall_3h" !in w ==> r.rainfall3h == 0.0
    ensures "wind_speed" !in w ==> r.windSpeed == 0.0
  {
    Row(name, "", lat, lon,
        Celsius(Lookup(w, "temperature", 0.0)), Lookup(w, "humidity", 0.0),
        Hectopascal(Lookup(w, "pressure", 0.0)),
        Lookup(w, "rainfall_1h", 0.0), Lookup(w, "rainfall_3h", 0.0), Lookup(w, "wind_speed", 0.0),
        0.0, 0.0, 0.0, 0.0, 0.0, 0.0, 0.0, 0.0, 0, 0, 0, 0, 0, createdAt)
  }

  /** `water_level / normal_level`, or 1 when the normal level is not positive. */
  function LevelRatio(waterLevel: real, normalLevel: real): (ratio: real)
    ensures normalLevel <= 0.0 ==> ratio == 1.0
    ensures normalLevel > 0.0 ==> ratio * normalLevel == waterLevel
  {
    if normalLevel > 0.0 then waterLevel / normalLevel else 1.0
  }

  /** A combined row: the weather columns, then the river columns and the derived indicators. */
  function CombinedRow(rec: JoinedRecord, w: Weather): Row
  {
    var base := WeatherRow(rec.locationName, rec.latitude, rec.longitude, w, rec.weatherTime);
    var flow := rec.flowRate.GetOr(0.0);
    base.(riverName := rec.riverName,
          waterLevel := rec.waterLevel,
          waterLevelRatio := LevelRatio(rec.waterLevel, rec.normalLevel),
          normalLevel := rec.normalLevel,
          alertLevel1 := rec.alert1, alertLevel2 := rec.alert2, alertLevel3 := rec.alert3,
          flowRate := flow,
          flowRateNormal := if flow != 0.0 then flow / 1000.0 else 0.0,
          alertLevelExceeded := Levels.AlertClass(rec.waterLevel, rec.alert1, rec.alert2, rec.alert3),
          trendRising := if rec.trend == "rising" then 1 else 0,
          trendFalling := if rec.trend == "falling" then 1 else 0)
  }

  /**
   * The derived indicators of a combined row: the level ratio, the alert
   * class of the ladder, 0/1 trend flags that are never both set, and a
   * normalised flow that is 0 for a null or zero flow.
   */
  lemma CombinedRowIndicators(rec: JoinedRecord, w: Weather)
    ensures var r := CombinedRow(rec, w);
            && r.waterLevelRatio == LevelRatio(rec.waterLevel, rec.normalLevel)
            && r.alertLevelExceeded == Levels.AlertClass(rec.waterLevel, rec.alert1, rec.alert2, rec.alert3)
            && 0 <= r.alertLevelExceeded <= 3
            && (r.trendRising == 1 <==> rec.trend == "rising")
            && (r.trendFalling == 1 <==> rec.trend == "falling")
            && r.trendRising in {0, 1} && r.trendFalling in {0, 1}
            && !(r.trendRising == 1 && r.trendFalling == 1)
            && (rec.flowRate.None? || rec.flowRate == Some(0.0) ==> r.flowRate == 0.0 && r.flowRateNormal == 0.0)
            && (rec.flowRate.Some? && rec.flowRate.value != 0.0 ==> r.flowRateNormal * 1000.0 == r.flowRate)
  {
  }

  /** The alert class a combined row records never drops as the water level rises. */
  lemma CombinedAlertMonotone(rec: JoinedRecord, w: Weather, higher: real)
    requires rec.waterLevel <= higher
    ensures CombinedRow(rec, w).alertLevelExceeded
            <= CombinedRow(rec.(waterLevel := higher), w).alertLevelExceeded
  {
    CombinedRowIndicators(rec, w);
    CombinedRowIndicators(rec.(waterLevel := higher), w);
    Levels.AlertClassMonotone(rec.waterLevel, higher, rec.alert1, rec.alert2, rec.alert3);
  }

  /** The first `n` joined records' weather JSON all decode to objects. */
  predicate JoinedDecoded(records: seq<JoinedRecord>, n: nat)
    requires n <= |records|
  {
    forall i :: 0 <= i < n ==> records[i].precipitation.Some?
  }

  /** Every joined record's weather JSON decodes to an object. */
  predicate AllJoinedDecoded(records: seq<JoinedRecord>)
  {
    JoinedDecoded(records, |records|)
  }

  /** The combined row of one decoded record. */
  function JoinedRow(rec: JoinedRecord): Row
    requires rec.precipitation.Some?
  {
    CombinedRow(rec, rec.precipitation.value)
  }

  /** The combined rows of the first `n` records, which all decode, in order. */
  function CombinedRows(records: seq<JoinedRecord>, n: nat): seq<Row>
    requires n <= |records| && JoinedDecoded(records, n)
  {
    if n == 0 then [] else CombinedRows(records, n - 1) + [JoinedRow(records[n - 1])]
  }

  /** One combined row per record, the i-th built from the i-th record. */
  lemma {:induction false} CombinedRowsPointwise(records: seq<JoinedRecord>, n: nat)
    requires n <= |records| && JoinedDecoded(records, n)
    ensures |CombinedRows(records, n)| == n
    ensures forall i :: 0 <= i < n ==> CombinedRows(records, n)[i] == JoinedRow(records[i])
  {
    if n > 0 {
      CombinedRowsPointwise(records, n - 1);
    }
  }

  /**
   * `load_combined_data` over the rows the join returned: one combined row per
   * record, in order; a record whose weather JSON does not decode makes the
   * whole load fail (the exception handler returns None).
   */
  method LoadCombinedData(records: seq<JoinedRecord>) returns (t: Option<Table>)
    ensures t.Some? <==> AllJoinedDecoded(records)
    ensures t.Some? ==> t.value == FrameOf(CombinedColumns, CombinedRows(records, |records|))
  {
    var combined: seq<Row> := [];
    var i := 0;
    while i < |records|
      invariant 0 <= i <= |records|
      invariant JoinedDecoded(records, i)
      invariant combined == CombinedRows(records, i)
    {
      var rec := records[i];
      if rec.precipitation.None? {
        return None;
      }
      combined := combined + [JoinedRow(rec)];
      i := i + 1;
    }
    t := Some(FrameOf(CombinedColumns, combined));
  }

  /** The first `n` stored weather records' JSON all decode to objects. */
  predicate WeatherDecoded(records: seq<WeatherRecord>, n: nat)
    requires n <= |records|
  {
    forall i :: 0 <= i < n ==> records[i].precipitation.Some?
  }

  /** Every stored weather record's JSON decodes to an object. */
  predicate AllWeatherDecoded(records: seq<WeatherRecord>)
  {
    WeatherDecoded(records, |records|)
  }

  /** The weather row of one decoded record. */
  function RecordRow(rec: WeatherRecord): Row
    requires rec.precipitation.Some?
  {
    WeatherRow(rec.locationName, rec.latitude, rec.longitude, rec.precipitation.value, rec.createdAt)
  }

  /** The weather rows of the first `n` records, which all decode, in order. */
  function WeatherRows(records: seq<WeatherRecord>, n: nat): seq<Row>
    requires n <= |records| && WeatherDecoded(records, n)
  {
    if n == 0 then [] else WeatherRows(records, n - 1) + [RecordRow(records[n - 1])]
  }

  /** One weather row per record, the i-th built from the i-th record. */
  lemma {:induction false} WeatherRowsPointwise(records: seq<WeatherRecord>, n: nat)
    requires n <= |records| && WeatherDecoded(records, n)
    ensures |WeatherRows(records, n)| == n
    ensures forall i :: 0 <= i < n ==> WeatherRows(records, n)[i] == RecordRow(records[i])
  {
    if n > 0 {
      WeatherRowsPointwise(records, n - 1);
    }
  }

  /** `load_data_from_db`: the weather-only rows, in order, failing as a whole on undecodable JSON. */
  method LoadDataFromDb(records: seq<WeatherRecord>) returns (t: Option<Table>)
    ensures t.Some? <==> AllWeatherDecoded(records)
    ensures t.Some? ==> t.value == FrameOf(WeatherColumns, WeatherRows(records, |records|))
  {
    var data: seq<Row> := [];
    var i := 0;
    while i < |records|
      invariant 0 <= i <= |records|
      invariant WeatherDecoded(records, i)
      invariant data == WeatherRows(records, i)
    {
      var rec := records[i];
      if rec.precipitation.None? {
        return None;
      }
      data := data + [WeatherRow(rec.locationName, rec.latitude, rec.longitude,
                                 rec.precipitation.value, rec.createdAt)];
      i := i + 1;
    }
    t := Some(FrameOf(WeatherColumns, data));
  }

  // ---------------------------------------------------------------------------
  // Risk labels (create_flood_labels)

  /** Any of the six HIGH conditions of the advanced rules. */
  predicate HighConditions(r: Row) {
    || r.rainfall1h > 20.0
    || r.rainfall3h > 45.0
    || r.alertLevelExceeded >= 3
    || (r.waterLevelRatio > 1.5 && r.trendRising == 1)
    || (r.rainfall1h > 15.0 && r.alertLevelExceeded >= 2)
    || (r.humidity > 90.0 && r.pressure < 1000.0 && r.rainfall1h > 10.0)
  }

  /** Any of the seven MODERATE conditions of the advanced rules. */
  predicate ModerateConditions(r: Row) {
    || (r.rainfall1h > 10.0 && r.rainfall1h <= 20.0)
    || (r.rainfall3h > 25.0 && r.rainfall3h <= 45.0)
    || r.alertLevelExceeded == 2
    || (r.alertLevelExceeded == 1 && r.trendRising == 1)
    || (r.waterLevelRatio > 1.2 && r.waterLevelRatio <= 1.5)
    || (r.humidity > 85.0 && r.rainfall1h > 5.0)
    || (r.pressure < 1005.0 && r.rainfall1h > 8.0)
  }

  /** The advanced label: HIGH (2) takes precedence over MODERATE (1), else LOW (0). */
  function AdvancedLabel(r: Row): (k: int)
    ensures k == 2 <==> HighConditions(r)
    ensures k == 1 <==> !HighConditions(r) && ModerateConditions(r)
    ensures k == 0 <==> !HighConditions(r) && !ModerateConditions(r)
  {
    if HighConditions(r) then 2 else if ModerateConditions(r) then 1 else 0
  }

  /** More rain in the last hour never lowers the advanced label. */
  lemma AdvancedLabelMonotoneInRain1h(r: Row, more: real)
    requires r.rainfall1h <= more
    ensures AdvancedLabel(r) <= AdvancedLabel(r.(rainfall1h := more))
  {
  }

  /** More rain over three hours never lowers the advanced label. */
  lemma AdvancedLabelMonotoneInRain3h(r: Row, more: real)
    requires r.rainfall3h <= more
    ensures AdvancedLabel(r) <= AdvancedLabel(r.(rainfall3h := more))
  {
  }

  /**
   * A higher water-level ratio can lower the label: above 1.5 without a
   * rising trend no rule about the ratio applies any more.
   */
  lemma AdvancedLabelNotMonotoneInRatio()
    ensures var r := Row("", "", 0.0, 0.0, 26.0, 70.0, 1013.0, 0.0, 0.0, 10.0,
                         200.0, 1.3, 150.0, 180.0, 220.0, 270.0, 0.0, 0.0, 0, 0, 0, 0, 0, "");
            AdvancedLabel(r) == 1 && AdvancedLabel(r.(waterLevelRatio := 1.6)) == 0
  {
  }

  /** The five basic rules, in the order the code applies them. */
  datatype BasicRule = HeavyRain | HumidRain | LowPressureRain | WindyRain | Storm

  predicate RuleHolds(rule: BasicRule, r: Row) {
    match rule
    case HeavyRain => r.rainfall1h > 15.0 || r.rainfall3h > 30.0
    case HumidRain => r.humidity > 85.0 && r.rainfall1h > 8.0
    case LowPressureRain => r.pressure < 1005.0 && r.rainfall1h > 10.0
    case WindyRain => r.windSpeed > 20.0 && r.rainfall1h > 5.0
    case Storm => r.humidity > 90.0 && r.pressure < 1000.0
  }

  /** The basic label: 1 exactly when some rule holds. */
  function BasicLabel(r: Row): (k: int)
    ensures k == 1 <==> exists rule :: RuleHolds(rule, r)
    ensures k == 0 <==> forall rule :: !RuleHolds(rule, r)
  {
    if RuleHolds(HeavyRain, r) || RuleHolds(HumidRain, r) || RuleHolds(LowPressureRain, r)
       || RuleHolds(WindyRain, r) || RuleHolds(Storm, r)
    then 1 else 0
  }

  /** Applying rules one after another, each setting the label to 1 when it holds. */
  function ApplyRules(rules: seq<BasicRule>, r: Row, risk: int): int
    decreases |rules|
  {
    if |rules| == 0 then risk
    else ApplyRules(rules[1..], r, if RuleHolds(rules[0], r) then 1 else risk)
  }

  /** The sequential application sets 1 exactly when one of the applied rules holds. */
  lemma {:induction false} ApplyRulesSetsOnAnyHit(rules: seq<BasicRule>, r: Row, risk: int)
    ensures ApplyRules(rules, r, risk)
            == if exists i :: 0 <= i < |rules| && RuleHolds(rules[i], r) then 1 else risk
    decreases |rules|
  {
    if |rules| > 0 {
      var next := if RuleHolds(rules[0], r) then 1 else risk;
      ApplyRulesSetsOnAnyHit(rules[1..], r, next);
      if exists i :: 0 <= i < |rules| && RuleHolds(rules[i], r) {
        var i :| 0 <= i < |rules| && RuleHolds(rules[i], r);
        if i > 0 {
          assert RuleHolds(rules[1..][i - 1], r);
        }
      } else {
        forall i | 0 <= i < |rules| - 1
          ensures !RuleHolds(rules[1..][i], r)
        {
          assert rules[1..][i] == rules[i + 1];
        }
      }
    }
  }

  /** The order of the rules does not matter: any order of all five gives the basic label. */
  lemma RuleOrderIrrelevant(rules: seq<BasicRule>, r: Row)
    requires forall rule :: rule in rules
    ensures ApplyRules(rules, r, 0) == BasicLabel(r)
  {
    ApplyRulesSetsOnAnyHit(rules, r, 0);
    if BasicLabel(r) == 1 {
      var rule :| RuleHolds(rule, r);
      assert rule in rules;
      var i :| 0 <= i < |rules| && rules[i] == rule;
    }
  }

  /** The rules as the code writes them. */
  const SourceRuleOrder: seq<BasicRule> := [HeavyRain, HumidRain, LowPressureRain, WindyRain, Storm]

  /** The five writes in the order the code makes them give the basic label. */
  lemma SourceOrderGivesBasicLabel(r: Row)
    ensures ApplyRules(SourceRuleOrder, r, 0) == BasicLabel(r)
  {
    forall rule: BasicRule
      ensures rule in SourceRuleOrder
    {
      match rule
      case HeavyRain => assert SourceRuleOrder[0] == rule;
      case HumidRain => assert SourceRuleOrder[1] == rule;
      case LowPressureRain => assert SourceRuleOrder[2] == rule;
      case WindyRain => assert SourceRuleOrder[3] == rule;
      case Storm => assert SourceRuleOrder[4] == rule;
    }
    RuleOrderIrrelevant(SourceRuleOrder, r);
  }

  /** Whether the advanced rules apply to a table with these columns. */
  predicate HasRiverData(columns: set<Column>) {
    WaterLevel in columns && AlertLevelExceeded in columns
  }

  /** The column `create_flood_labels` writes. */
  function LabelColumn(columns: set<Column>): (c: Column)
    ensures c == FloodRiskLevel <==> HasRiverData(columns)
    ensures c == FloodRisk <==> !HasRiverData(columns)
  {
    if HasRiverData(columns) then FloodRiskLevel else FloodRisk
  }

  /** The columns the rules of the chosen mode read. */
  predicate LabelInputsPresent(columns: set<Column>) {
    && Rainfall1h in columns && Rainfall3h in columns && Humidity in columns && Pressure in columns
    && (HasRiverData(columns) ==> WaterLevelRatio in columns && TrendRising in columns)
    && (!HasRiverData(columns) ==> WindSpeed in columns)
  }

  /** A row with the label of the chosen mode written and nothing else changed. */
  function Labelled(columns: set<Column>, r: Row): (l: Row)
    ensures HasRiverData(columns) ==> l == r.(floodRiskLevel := AdvancedLabel(r))
    ensures !HasRiverData(columns) ==> l == r.(floodRisk := BasicLabel(r))
  {
    if HasRiverData(columns) then r.(floodRiskLevel := AdvancedLabel(r)) else r.(floodRisk := BasicLabel(r))
  }

  /** The rows of a frame after `create_flood_labels`, in order. */
  function LabelledRows(columns: set<Column>, rows: seq<Row>): seq<Row> {
    seq(|rows|, i requires 0 <= i < |rows| => Labelled(columns, rows[i]))
  }

  /** A DataFrame that `create_flood_labels` and `train_model` update in place. */
  class Frame {
    var columns: set<Column>
    var rows: seq<Row>

    constructor (t: Table)
      ensures columns == t.columns && rows == t.rows
    {
      columns := t.columns;
      rows := t.rows;
    }

    function Snapshot(): Table
      reads this
    {
      Table(columns, rows)
    }

    /**
     * `create_flood_labels`: every row gets the label of the mode the columns
     * select; the row count and every other column are unchanged.
     */
    method CreateFloodLabels()
      modifies this
      requires LabelInputsPresent(columns)
      ensures columns == old(columns) + {LabelColumn(old(columns))}
      ensures |rows| == |old(rows)|
      ensures forall i :: 0 <= i < |rows| ==> rows[i] == Labelled(old(columns), old(rows)[i])
    {
      var advanced := WaterLevel in columns && AlertLevelExceeded in columns;
      ghost var before := rows;
      var i := 0;
      while i < |rows|
        invariant 0 <= i <= |rows| == |before|
        invariant columns == old(columns)
        invariant forall j :: 0 <= j < i ==> rows[j] == Labelled(columns, before[j])
        invariant forall j :: i <= j < |rows| ==> rows[j] == before[j]
      {
        var r := rows[i];
        if advanced {
          var level := 0;
          if HighConditions(r) {
            level := 2;
          }
          if ModerateConditions(r) && level != 2 {
            level := 1;
          }
          rows := rows[i := r.(floodRiskLevel := level)];
        } else {
          var risk := 0;
          if r.rainfall1h > 15.0 || r.rainfall3h > 30.0 {
            risk := 1;
          }
          if r.humidity > 85.0 && r.rainfall1h > 8.0 {
            risk := 1;
          }
          if r.pressure < 1005.0 && r.rainfall1h > 10.0 {
            risk := 1;
          }
          if r.windSpeed > 20.0 && r.rainfall1h > 5.0 {
            risk := 1;
          }
          if r.humidity > 90.0 && r.pressure < 1000.0 {
            risk := 1;
          }
          rows := rows[i := r.(floodRisk := risk)];
        }
        i := i + 1;
      }
      columns := columns + {if advanced then FloodRiskLevel else FloodRisk};
    }
  }

  // ---------------------------------------------------------------------------
  // Numeric views of rows

  /** The numeric value a row holds in a column (0 for the text columns). */
  function FeatureValue(r: Row, c: Column): real {
    match c
    case Latitude => r.latitude
    case Longitude => r.longitude
    case Temperature => r.temperature
    case Humidity => r.humidity
    case Pressure => r.pressure
    case Rainfall1h => r.rainfall1h
    case Rainfall3h => r.rainfall3h
    case WindSpeed => r.windSpeed
    case WaterLevel => r.waterLevel
    case WaterLevelRatio => r.waterLevelRatio
    case NormalLevel => r.normalLevel
    case AlertLevel1 => r.alertLevel1
    case AlertLevel2 => r.alertLevel2
    case AlertLevel3 => r.alertLevel3
    case FlowRate => r.flowRate
    case FlowRateNormal => r.flowRateNormal
    case AlertLevelExceeded => r.alertLevelExceeded as real
    case TrendRising => r.trendRising as real
    case TrendFalling => r.trendFalling as real
    case FloodRiskLevel => r.floodRiskLevel as real
    case FloodRisk => r.floodRisk as real
    case _ => 0.0
  }

  /** `df[column]` as a list of numbers. */
  function ColumnValues(rows: seq<Row>, c: Column): (xs: seq<real>)
    ensures |xs| == |rows|
    ensures forall i :: 0 <= i < |rows| ==> xs[i] == FeatureValue(rows[i], c)
  {
    seq(|rows|, i requires 0 <= i < |rows| => FeatureValue(rows[i], c))
  }

  function Sum(xs: seq<real>): real
    decreases |xs|
  {
    if |xs| == 0 then 0.0 else xs[0] + Sum(xs[1..])
  }

  /** `Series.mean()` of a non-empty series. */
  function Mean(xs: seq<real>): real
    requires |xs| > 0
  {
    Sum(xs) / |xs| as real
  }

  /** A sum of values within [lo, hi] lies within n times those bounds. */
  lemma {:induction false} SumBetween(xs: seq<real>, lo: real, hi: real)
    requires forall i :: 0 <= i < |xs| ==> lo <= xs[i] <= hi
    ensures |xs| as real * lo <= Sum(xs) <= |xs| as real * hi
    decreases |xs|
  {
    if |xs| > 0 {
      SumBetween(xs[1..], lo, hi);
      assert (|xs| - 1) as real * lo + lo == |xs| as real * lo;
      assert (|xs| - 1) as real * hi + hi == |xs| as real * hi;
    }
  }

  /** The mean of values within [lo, hi] lies within [lo, hi]. */
  lemma MeanBetween(xs: seq<real>, lo: real, hi: real)
    requires |xs| > 0
    requires forall i :: 0 <= i < |xs| ==> lo <= xs[i] <= hi
    ensures lo <= Mean(xs) <= hi
  {
    SumBetween(xs, lo, hi);
    var n := |xs| as real;
    assert Sum(xs) / n >= (n * lo) / n;
    assert Sum(xs) / n <= (n * hi) / n;
  }

  // ---------------------------------------------------------------------------
  // Synthetic corpus (generate_advanced_training_data)

  /** The averages the synthetic samples are centred on. */
  datatype Averages = Averages(temperature: real, humidity: real, pressure: real)

  /** Column means of the real data, or 26 °C, 75 % and 1013 hPa when there is none. */
  function AveragesOf(rows: seq<Row>): (a: Averages)
    ensures |rows| == 0 ==> a == Averages(26.0, 75.0, 1013.0)
    ensures |rows| > 0 ==> a.temperature == Mean(ColumnValues(rows, Temperature))
    ensures |rows| > 0 ==> a.humidity == Mean(ColumnValues(rows, Humidity))
    ensures |rows| > 0 ==> a.pressure == Mean(ColumnValues(rows, Pressure))
  {
    if |rows| > 0 then
      Averages(Mean(ColumnValues(rows, Temperature)), Mean(ColumnValues(rows, Humidity)),
               Mean(ColumnValues(rows, Pressure)))
    else Averages(26.0, 75.0, 1013.0)
  }

  /** Labelling writes only the label, so the averages of a labelled frame are those of the unlabelled one. */
  lemma LabellingKeepsAverages(columns: set<Column>, rows: seq<Row>)
    ensures AveragesOf(LabelledRows(columns, rows)) == AveragesOf(rows)
  {
    var ls := LabelledRows(columns, rows);
    assert ColumnValues(ls, Temperature) == ColumnValues(rows, Temperature);
    assert ColumnValues(ls, Humidity) == ColumnValues(rows, Humidity);
    assert ColumnValues(ls, Pressure) == ColumnValues(rows, Pressure);
  }

  /** The synthetic temperature centre lies within the range of the real readings. */
  lemma AverageTemperatureWithinReadings(rows: seq<Row>, lo: real, hi: real)
    requires |rows| > 0
    requires forall i :: 0 <= i < |rows| ==> lo <= rows[i].temperature <= hi
    ensures lo <= AveragesOf(rows).temperature <= hi
  {
    MeanBetween(ColumnValues(rows, Temperature), lo, hi);
  }

  /** The unit draws for one synthetic sample, one per random column. */
  datatype SampleDraws = SampleDraws(
    latitude: real, longitude: real, temperature: real, humidity: real, pressure: real,
    rainfall1h: real, rainfall3h: real, windSpeed: real, waterLevel: real,
    waterLevelRatio: real, flowRate: real, flowRateNormal: real,
    alert: real, trendRising: real, trendFalling: real)

  predicate SampleDrawsValid(d: SampleDraws) {
    && IsUnit(d.latitude) && IsUnit(d.longitude) && IsUnit(d.temperature) && IsUnit(d.humidity)
    && IsUnit(d.pressure) && IsUnit(d.rainfall1h) && IsUnit(d.rainfall3h) && IsUnit(d.windSpeed)
    && IsUnit(d.waterLevel) && IsUnit(d.waterLevelRatio) && IsUnit(d.flowRate)
    && IsUnit(d.flowRateNormal) && IsUnit(d.alert) && IsUnit(d.trendRising) && IsUnit(d.trendFalling)
  }

  /** Every synthetic sample uses normal level 150 and alerts 180/220/270. */
  predicate SyntheticThresholds(r: Row) {
    r.normalLevel == 150.0 && r.alertLevel1 == 180.0 && r.alertLevel2 == 220.0 && r.alertLevel3 == 270.0
  }

  function DigitChar(d: nat): char
    requires d < 10
  {
    "0123456789"[d]
  }

  /** Decimal digits of a natural number, as an f-string writes it. */
  function NatToString(n: nat): (s: string)
    ensures |s| >= 1
    decreases n
  {
    if n < 10 then [DigitChar(n)] else NatToString(n / 10) + [DigitChar(n % 10)]
  }

  /** A LOW-risk sample (label 0, no alert exceeded). */
  function LowRiskSample(i: nat, avg: Averages, d: SampleDraws, now: string): Row
    requires SampleDrawsValid(d)
  {
    Row("Low_Risk_" + NatToString(i), "River_" + NatToString(i % 7),
        10.0 + Uniform(-5.0, 5.0, d.latitude), 106.0 + Uniform(-5.0, 5.0, d.longitude),
        avg.temperature + Uniform(-2.0, 3.0, d.temperature), Uniform(40.0, 75.0, d.humidity),
        avg.pressure + Uniform(0.0, 15.0, d.pressure),
        Uniform(0.0, 8.0, d.rainfall1h), Uniform(0.0, 20.0, d.rainfall3h), Uniform(3.0, 15.0, d.windSpeed),
        Uniform(80.0, 140.0, d.waterLevel), Uniform(0.6, 0.9, d.waterLevelRatio),
        150.0, 180.0, 220.0, 270.0,
        Uniform(200.0, 600.0, d.flowRate), Uniform(0.2, 0.6, d.flowRateNormal),
        0, Choose([0, 1], [0.7, 0.3], d.trendRising), Choose([0, 1], [0.5, 0.5], d.trendFalling),
        0, 0, now)
  }

  /** The ranges of a LOW sample, each from the interval its draw is scaled to. */
  lemma LowRiskSampleRanges(i: nat, avg: Averages, d: SampleDraws, now: string)
    requires SampleDrawsValid(d)
    ensures var r := LowRiskSample(i, avg, d, now);
            (r.floodRiskLevel == 0 && r.alertLevelExceeded == 0 && SyntheticThresholds(r))
            && (0.0 <= r.rainfall1h < 8.0 && 0.0 <= r.rainfall3h < 20.0)
            && (40.0 <= r.humidity < 75.0 && avg.pressure <= r.pressure < avg.pressure + 15.0)
            && (80.0 <= r.waterLevel < 140.0 && 0.6 <= r.waterLevelRatio < 0.9)
            && (r.trendRising in {0, 1} && r.trendFalling in {0, 1})
  {
  }

  /** A MODERATE-risk sample (label 1, alert class 0, 1 or 2 drawn with weights .3/.5/.2). */
  function ModerateRiskSample(i: nat, avg: Averages, d: SampleDraws, now: string): Row
    requires SampleDrawsValid(d)
  {
    var alert := Choose([0, 1, 2], [0.3, 0.5, 0.2], d.alert);
    Row("Moderate_Risk_" + NatToString(i), "River_" + NatToString(i % 7),
        10.0 + Uniform(-5.0, 5.0, d.latitude), 106.0 + Uniform(-5.0, 5.0, d.longitude),
        avg.temperature + Uniform(-3.0, 1.0, d.temperature), Uniform(70.0, 90.0, d.humidity),
        avg.pressure + Uniform(-10.0, 5.0, d.pressure),
        Uniform(5.0, 18.0, d.rainfall1h), Uniform(15.0, 40.0, d.rainfall3h), Uniform(8.0, 25.0, d.windSpeed),
        Uniform(160.0, 240.0, d.waterLevel), Uniform(0.9, 1.4, d.waterLevelRatio),
        150.0, 180.0, 220.0, 270.0,
        Uniform(500.0, 1200.0, d.flowRate), Uniform(0.5, 1.2, d.flowRateNormal),
        alert, Choose([0, 1], [0.4, 0.6], d.trendRising), Choose([0, 1], [0.7, 0.3], d.trendFalling),
        1, 0, now)
  }

  /** The ranges of a MODERATE sample, each from the interval its draw is scaled to. */
  lemma ModerateRiskSampleRanges(i: nat, avg: Averages, d: SampleDraws, now: string)
    requires SampleDrawsValid(d)
    ensures var r := ModerateRiskSample(i, avg, d, now);
            (r.floodRiskLevel == 1 && r.alertLevelExceeded in {0, 1, 2} && SyntheticThresholds(r))
            && (5.0 <= r.rainfall1h < 18.0 && 15.0 <= r.rainfall3h < 40.0)
            && (70.0 <= r.humidity < 90.0 && avg.pressure - 10.0 <= r.pressure < avg.pressure + 5.0)
            && (160.0 <= r.waterLevel < 240.0 && 0.9 <= r.waterLevelRatio < 1.4)
            && (r.trendRising in {0, 1} && r.trendFalling in {0, 1})
  {
  }

  /** A HIGH-risk sample (label 2, alert class 2 or 3 drawn with weights .4/.6). */
  function HighRiskSample(i: nat, avg: Averages, d: SampleDraws, now: string): Row
    requires SampleDrawsValid(d)
  {
    var alert := Choose([2, 3], [0.4, 0.6], d.alert);
    Row("High_Risk_" + NatToString(i), "River_" + NatToString(i % 7),
        10.0 + Uniform(-5.0, 5.0, d.latitude), 106.0 + Uniform(-5.0, 5.0, d.longitude),
        avg.temperature + Uniform(-5.0, -1.0, d.temperature), Uniform(85.0, 99.0, d.humidity),
        Uniform(980.0, 1005.0, d.pressure),
        Uniform(15.0, 50.0, d.rainfall1h), Uniform(35.0, 100.0, d.rainfall3h), Uniform(20.0, 60.0, d.windSpeed),
        Uniform(240.0, 320.0, d.waterLevel), Uniform(1.4, 2.1, d.waterLevelRatio),
        150.0, 180.0, 220.0, 270.0,
        Uniform(1200.0, 3000.0, d.flowRate), Uniform(1.2, 3.0, d.flowRateNormal),
        alert, Choose([0, 1], [0.2, 0.8], d.trendRising), Choose([0, 1], [0.9, 0.1], d.trendFalling),
        2, 0, now)
  }

  /** The ranges of a HIGH sample, each from the interval its draw is scaled to. */
  lemma HighRiskSampleRanges(i: nat, avg: Averages, d: SampleDraws, now: string)
    requires SampleDrawsValid(d)
    ensures var r := HighRiskSample(i, avg, d, now);
            (r.floodRiskLevel == 2 && r.alertLevelExceeded in {2, 3} && SyntheticThresholds(r))
            && (15.0 <= r.rainfall1h < 50.0 && 35.0 <= r.rainfall3h < 100.0)
            && (85.0 <= r.humidity < 99.0 && 980.0 <= r.pressure < 1005.0)
            && (240.0 <= r.waterLevel < 320.0 && 1.4 <= r.waterLevelRatio < 2.1)
            && (r.trendRising in {0, 1} && r.trendFalling in {0, 1})
  {
  }

  /** A LOW sample is also LOW under the advanced rules, and its alert class matches its level. */
  lemma LowRiskSamplesAgreeWithRules(i: nat, avg: Averages, d: SampleDraws, now: string)
    requires SampleDrawsValid(d)
    ensures AdvancedLabel(LowRiskSample(i, avg, d, now)) == 0
    ensures var r := LowRiskSample(i, avg, d, now);
            r.alertLevelExceeded == Levels.AlertClass(r.waterLevel, r.alertLevel1, r.alertLevel2, r.alertLevel3)
  {
    LowRiskSampleRanges(i, avg, d, now);
  }

  /** A HIGH sample is HIGH under the advanced rules unless its 1-hour rain is exactly 15 mm. */
  lemma HighRiskSamplesAgreeWithRules(i: nat, avg: Averages, d: SampleDraws, now: string)
    requires SampleDrawsValid(d)
    requires d.rainfall1h > 0.0
    ensures AdvancedLabel(HighRiskSample(i, avg, d, now)) == 2
  {
    var r := HighRiskSample(i, avg, d, now);
    HighRiskSampleRanges(i, avg, d, now);
    ScaleBounds(35.0, d.rainfall1h);
    assert r.rainfall1h > 15.0 && r.alertLevelExceeded >= 2;
  }

  /**
   * The synthetic trend flags are drawn independently, so a sample can be
   * both rising and falling, which no loaded row can be.
   */
  lemma SyntheticTrendFlagsMayBothBeSet(avg: Averages)
    ensures var d := SampleDraws(0.0, 0.0, 0.0, 0.0, 0.0, 0.0, 0.0, 0.0, 0.0, 0.0, 0.0, 0.0, 0.0, 0.9, 0.9);
            var r := ModerateRiskSample(0, avg, d, "");
            r.trendRising == 1 && r.trendFalling == 1
  {
  }

  /** The LOW-risk loop: sample `i` from draw `i`, in order. */
  method LowRiskSamples(avg: Averages, draws: seq<SampleDraws>, now: string) returns (samples: seq<Row>)
    requires forall i :: 0 <= i < |draws| ==> SampleDrawsValid(draws[i])
    ensures |samples| == |draws|
    ensures forall i :: 0 <= i < |draws| ==> samples[i] == LowRiskSample(i, avg, draws[i], now)
  {
    samples := [];
    for i := 0 to |draws|
      invariant |samples| == i
      invariant forall j :: 0 <= j < i ==> samples[j] == LowRiskSample(j, avg, draws[j], now)
    {
      samples := samples + [LowRiskSample(i, avg, draws[i], now)];
    }
  }

  /** The MODERATE-risk loop. */
  method ModerateRiskSamples(avg: Averages, draws: seq<SampleDraws>, now: string) returns (samples: seq<Row>)
    requires forall i :: 0 <= i < |draws| ==> SampleDrawsValid(draws[i])
    ensures |samples| == |draws|
    ensures forall i :: 0 <= i < |draws| ==> samples[i] == ModerateRiskSample(i, avg, draws[i], now)
  {
    samples := [];
    for i := 0 to |draws|
      invariant |samples| == i
      invariant forall j :: 0 <= j < i ==> samples[j] == ModerateRiskSample(j, avg, draws[j], now)
    {
      samples := samples + [ModerateRiskSample(i, avg, draws[i], now)];
    }
  }

  /** The HIGH-risk loop. */
  method HighRiskSamples(avg: Averages, draws: seq<SampleDraws>, now: string) returns (samples: seq<Row>)
    requires forall i :: 0 <= i < |draws| ==> SampleDrawsValid(draws[i])
    ensures |samples| == |draws|
    ensures forall i :: 0 <= i < |draws| ==> samples[i] == HighRiskSample(i, avg, draws[i], now)
  {
    samples := [];
    for i := 0 to |draws|
      invariant |samples| == i
      invariant forall j :: 0 <= j < i ==> samples[j] == HighRiskSample(j, avg, draws[j], now)
    {
      samples := samples + [HighRiskSample(i, avg, draws[i], now)];
    }
  }

  /** The three loops' outputs, concatenated, line up with the 150 draws. */
  lemma CorpusConcat(avg: Averages, draws: seq<SampleDraws>, now: string,
                     low: seq<Row>, moderate: seq<Row>, high: seq<Row>)
    requires |draws| == 150 && forall i :: 0 <= i < 150 ==> SampleDrawsValid(draws[i])
    requires |low| == 60 && forall i :: 0 <= i < 60 ==> low[i] == LowRiskSample(i, avg, draws[..60][i], now)
    requires |moderate| == 50 &&
             forall i :: 0 <= i < 50 ==> moderate[i] == ModerateRiskSample(i, avg, draws[60..110][i], now)
    requires |high| == 40 && forall i :: 0 <= i < 40 ==> high[i] == HighRiskSample(i, avg, draws[110..][i], now)
    ensures var s := low + moderate + high;
            && |s| == 150
            && (forall i :: 0 <= i < 60 ==> s[i] == LowRiskSample(i, avg, draws[i], now))
            && (forall i :: 60 <= i < 110 ==> s[i] == ModerateRiskSample(i - 60, avg, draws[i], now))
            && (forall i :: 110 <= i < 150 ==> s[i] == HighRiskSample(i - 110, avg, draws[i], now))
  {
    var s := low + moderate + high;
    forall k | 0 <= k < 60
      ensures s[k] == LowRiskSample(k, avg, draws[k], now)
    {
      assert s[k] == low[k];
      assert draws[..60][k] == draws[k];
    }
    forall k | 60 <= k < 110
      ensures s[k] == ModerateRiskSample(k - 60, avg, draws[k], now)
    {
      assert s[k] == moderate[k - 60];
      assert draws[60..110][k - 60] == draws[k];
    }
    forall k | 110 <= k < 150
      ensures s[k] == HighRiskSample(k - 110, avg, draws[k], now)
    {
      assert s[k] == high[k - 110];
      assert draws[110..][k - 110] == draws[k];
    }
  }

  /** The 150-row synthetic corpus for these averages and draws: LOW, then MODERATE, then HIGH samples. */
  function AdvancedCorpus(avg: Averages, draws: seq<SampleDraws>, now: string): seq<Row>
    requires |draws| == 150 && forall i :: 0 <= i < 150 ==> SampleDrawsValid(draws[i])
  {
    seq(150, i requires 0 <= i < 150 =>
      if i < 60 then LowRiskSample(i, avg, draws[i], now)
      else if i < 110 then ModerateRiskSample(i - 60, avg, draws[i], now)
      else HighRiskSample(i - 110, avg, draws[i], now))
  }

  /** The corpus is labelled 60 times LOW (0), then 50 times MODERATE (1), then 40 times HIGH (2). */
  lemma AdvancedCorpusLabels(avg: Averages, draws: seq<SampleDraws>, now: string)
    requires |draws| == 150 && forall i :: 0 <= i < 150 ==> SampleDrawsValid(draws[i])
    ensures var c := AdvancedCorpus(avg, draws, now);
            forall i :: 0 <= i < 150 ==> c[i].floodRiskLevel == (if i < 60 then 0 else if i < 110 then 1 else 2)
  {
    var c := AdvancedCorpus(avg, draws, now);
    forall i | 0 <= i < 150
      ensures c[i].floodRiskLevel == (if i < 60 then 0 else if i < 110 then 1 else 2)
    {
      if i < 60 {
        LowRiskSampleRanges(i, avg, draws[i], now);
      } else if i < 110 {
        ModerateRiskSampleRanges(i - 60, avg, draws[i], now);
      } else {
        HighRiskSampleRanges(i - 110, avg, draws[i], now);
      }
    }
  }

  /**
   * `generate_advanced_training_data`: 60 LOW, 50 MODERATE and 40 HIGH
   * samples, in that order, centred on the averages of the real data, all
   * stamped with the same creation time.
   */
  method GenerateAdvancedTrainingData(realData: Table, draws: seq<SampleDraws>, now: string)
    returns (t: Table)
    requires |realData.rows| > 0 ==> {Temperature, Humidity, Pressure} <= realData.columns
    requires |draws| == 150 && forall i :: 0 <= i < 150 ==> SampleDrawsValid(draws[i])
    ensures t.columns == SyntheticColumns && |t.rows| == 150
    ensures forall i :: 0 <= i < 60 ==> t.rows[i] == LowRiskSample(i, AveragesOf(realData.rows), draws[i], now)
    ensures forall i :: 60 <= i < 110 ==>
              t.rows[i] == ModerateRiskSample(i - 60, AveragesOf(realData.rows), draws[i], now)
    ensures forall i :: 110 <= i < 150 ==>
              t.rows[i] == HighRiskSample(i - 110, AveragesOf(realData.rows), draws[i], now)
    ensures t.rows == AdvancedCorpus(AveragesOf(realData.rows), draws, now)
  {
    var avg := AveragesOf(realData.rows);
    var low := LowRiskSamples(avg, draws[..60], now);
    var moderate := ModerateRiskSamples(avg, draws[60..110], now);
    var high := HighRiskSamples(avg, draws[110..], now);
    CorpusConcat(avg, draws, now, low, moderate, high);
    var synthetic := low + moderate + high;
    t := FrameOf(SyntheticColumns, synthetic);
  }

  /** The corpus has 60 rows labelled 0, then 50 labelled 1, then 40 labelled 2, all with the same thresholds. */
  lemma CorpusLabelsAndThresholds(realData: Table, draws: seq<SampleDraws>, now: string, t: Table)
    requires |draws| == 150 && forall i :: 0 <= i < 150 ==> SampleDrawsValid(draws[i])
    requires |t.rows| == 150
    requires forall i :: 0 <= i < 60 ==> t.rows[i] == LowRiskSample(i, AveragesOf(realData.rows), draws[i], now)
    requires forall i :: 60 <= i < 110 ==>
               t.rows[i] == ModerateRiskSample(i - 60, AveragesOf(realData.rows), draws[i], now)
    requires forall i :: 110 <= i < 150 ==>
               t.rows[i] == HighRiskSample(i - 110, AveragesOf(realData.rows), draws[i], now)
    ensures forall i :: 0 <= i < 150 ==>
              t.rows[i].floodRiskLevel == (if i < 60 then 0 else if i < 110 then 1 else 2)
    ensures forall i :: 0 <= i < 150 ==> SyntheticThresholds(t.rows[i])
    ensures forall i :: 0 <= i < 60 ==> t.rows[i].alertLevelExceeded == 0
    ensures forall i :: 60 <= i < 110 ==> t.rows[i].alertLevelExceeded in {0, 1, 2}
    ensures forall i :: 110 <= i < 150 ==> t.rows[i].alertLevelExceeded in {2, 3}
  {
    var avg := AveragesOf(realData.rows);
    forall i | 0 <= i < 60 {
      LowRiskSampleRanges(i, avg, draws[i], now);
    }
    forall i | 60 <= i < 110 {
      ModerateRiskSampleRanges(i - 60, avg, draws[i], now);
    }
    forall i | 110 <= i < 150 {
      HighRiskSampleRanges(i - 110, avg, draws[i], now);
    }
  }

  // ---------------------------------------------------------------------------
  // Training decisions (train_model)

  const AdvancedFeatures: seq<Column> :=
    [Temperature, Humidity, Pressure, Rainfall1h, Rainfall3h, WindSpeed,
     WaterLevel, WaterLevelRatio, FlowRateNormal, AlertLevelExceeded, TrendRising, TrendFalling]

  const BasicFeatures: seq<Column> :=
    [Temperature, Humidity, Pressure, Rainfall1h, Rainfall3h, WindSpeed]

  /** Features, target and random-forest hyper-parameters of one training mode. */
  datatype ModelConfig = ModelConfig(
    features: seq<Column>, target: Column, isAdvanced: bool,
    trees: nat, maxDepth: nat, minSamplesSplit: nat, minSamplesLeaf: nat)

  /** Advanced training (12 features, three classes) needs both the water level and the 3-level label. */
  function ChooseConfig(columns: set<Column>): (c: ModelConfig)
    ensures c.isAdvanced <==> WaterLevel in columns && FloodRiskLevel in columns
    ensures c.isAdvanced ==> |c.features| == 12 && c.target == FloodRiskLevel
                             && c.trees == 150 && c.maxDepth == 10
                             && c.minSamplesSplit == 3 && c.minSamplesLeaf == 1
    ensures !c.isAdvanced ==> |c.features| == 6 && c.target == FloodRisk
                              && c.trees == 100 && c.maxDepth == 8
                              && c.minSamplesSplit == 5 && c.minSamplesLeaf == 2
    ensures c.features[..6] == BasicFeatures
    ensures c.target !in c.features
  {
    if WaterLevel in columns && FloodRiskLevel in columns then
      ModelConfig(AdvancedFeatures, FloodRiskLevel, true, 150, 10, 3, 1)
    else
      ModelConfig(BasicFeatures, FloodRisk, false, 100, 8, 5, 2)
  }

  /**
   * A labelled table trains on the label just written: labelling and training
   * agree on the mode whenever the table had no 3-level label before.
   */
  lemma TrainingUsesTheWrittenLabel(columns: set<Column>)
    requires FloodRiskLevel !in columns
    ensures var c := ChooseConfig(columns + {LabelColumn(columns)});
            c.target == LabelColumn(columns) && c.isAdvanced == HasRiverData(columns)
  {
  }

  /** How the rows are split between training and evaluation. */
  datatype Split = Holdout(testFraction: real, stratified: bool) | TrainOnAll

  /**
   * An 80/20 split only with more than 80 rows and more than one class,
   * stratified unless stratification raises; otherwise train and test on all rows.
   */
  function ChooseSplit(n: nat, classes: nat, stratifyFails: bool): (s: Split)
    ensures s.Holdout? <==> n > 80 && classes > 1
    ensures s.Holdout? ==> s.testFraction == 0.2 && (s.stratified <==> !stratifyFails)
  {
    if n > 80 && classes > 1 then Holdout(0.2, !stratifyFails) else TrainOnAll
  }

  /** A column of raw values as `pd.to_numeric(errors='coerce')` sees them. */
  datatype Cell = Number(x: real) | Unparseable | Missing

  /** `pd.to_numeric(column, errors='coerce').fillna(0)`: numbers kept, everything else 0. */
  method CoerceNumeric(column: seq<Cell>) returns (xs: seq<real>)
    ensures |xs| == |column|
    ensures forall i :: 0 <= i < |column| ==> xs[i] == (if column[i].Number? then column[i].x else 0.0)
  {
    xs := [];
    for i := 0 to |column|
      invariant |xs| == i
      invariant forall j :: 0 <= j < i ==> xs[j] == (if column[j].Number? then column[j].x else 0.0)
    {
      var v := if column[i].Number? then column[i].x else 0.0;
      xs := xs + [v];
    }
  }

  datatype ClassifierOutput = ClassifierOutput(prediction: int, probabilities: seq<real>)

  /** A fitted random forest, opaque: a feature vector in, a class and class probabilities out. */
  datatype Classifier = Classifier(run: seq<real> -> ClassifierOutput)

  /** Everything the fit receives: the configuration, the split and the data. */
  datatype Plan = Plan(config: ModelConfig, split: Split, x: seq<seq<real>>, y: seq<int>)

  /** The outcome of `train_model`; the first is Python's 2-tuple, the others 3-tuples. */
  datatype TrainOutcome =
    | TooFewRows                                               // (None, None)
    | FitFailed                                                // (None, None, False)
    | Trained(model: Classifier, features: seq<Column>, isAdvanced: bool)

  /** The length of the tuple `train_model` returns. */
  function Arity(o: TrainOutcome): (n: nat)
    ensures n == 2 <==> o.TooFewRows?
    ensures n == 2 || n == 3
  {
    if o.TooFewRows? then 2 else 3
  }

  /** The integer label of a row in the target column. */
  function Label(r: Row, target: Column): int {
    if target == FloodRiskLevel then r.floodRiskLevel else r.floodRisk
  }

  /** The data handed to the fit: the selected features and the target of every row. */
  function TrainingPlan(t: Table, stratifyFails: bool): (p: Plan)
    ensures p.config == ChooseConfig(t.columns)
    ensures |p.x| == |p.y| == |t.rows|
    ensures forall i :: 0 <= i < |t.rows| ==> p.y[i] == Label(t.rows[i], p.config.target)
    ensures forall i :: 0 <= i < |t.rows| ==> |p.x[i]| == |p.config.features|
    ensures forall i, j :: 0 <= i < |t.rows| && 0 <= j < |p.config.features| ==>
              p.x[i][j] == FeatureValue(t.rows[i], p.config.features[j])
    ensures p.split == ChooseSplit(|t.rows|, |set y | y in p.y|, stratifyFails)
  {
    var config := ChooseConfig(t.columns);
    var y := seq(|t.rows|, i requires 0 <= i < |t.rows| => Label(t.rows[i], config.target));
    var x := seq(|t.rows|, i requires 0 <= i < |t.rows| =>
               seq(|config.features|, j requires 0 <= j < |config.features| =>
                 FeatureValue(t.rows[i], config.features[j])));
    Plan(config, ChooseSplit(|t.rows|, |set v | v in y|, stratifyFails), x, y)
  }

  /** The columns training reads exist (the code raises a KeyError otherwise). */
  predicate TrainingColumnsPresent(t: Table) {
    var c := ChooseConfig(t.columns);
    c.target in t.columns && forall f :: f in c.features ==> f in t.columns
  }

  /**
   * `train_model`: fewer than 10 rows gives the 2-tuple without fitting; a fit
   * (or evaluation) that raises gives the failure 3-tuple; otherwise the model
   * with the features and mode it was trained with.
   */
  function TrainModel(t: Table, stratifyFails: bool, fit: Plan -> Option<Classifier>): (o: TrainOutcome)
    requires |t.rows| >= 10 ==> TrainingColumnsPresent(t)
    ensures o.TooFewRows? <==> |t.rows| < 10
    ensures o.FitFailed? <==> |t.rows| >= 10 && fit(TrainingPlan(t, stratifyFails)).None?
    ensures o.Trained? ==> o.model == fit(TrainingPlan(t, stratifyFails)).value
    ensures o.Trained? ==> o.features == ChooseConfig(t.columns).features
    ensures o.Trained? ==> (o.isAdvanced <==> WaterLevel in t.columns && FloodRiskLevel in t.columns)
  {
    if |t.rows| < 10 then TooFewRows
    else
      var plan := TrainingPlan(t, stratifyFails);
      match fit(plan)
      case None => FitFailed
      case Some(model) => Trained(model, plan.config.features, plan.config.isAdvanced)
  }

  // ---------------------------------------------------------------------------
  // Prediction (predict_flood_risk, get_risk_level_text, save_prediction_result)

  const RiskLabels: seq<string> := ["LOW", "MODERATE", "HIGH"]
  const RiskColors: seq<string> := ["green", "orange", "red"]

  /** Python's `xs[i]` position for a list of length n: negative indices count from the end. */
  function PyIndex(i: int, n: nat): (k: Option<nat>)
    ensures k.Some? <==> -(n as int) <= i < n
    ensures k.Some? ==> k.value < n
    ensures k.Some? && i >= 0 ==> k.value == i
    ensures k.Some? && i < 0 ==> k.value == n + i
  {
    if 0 <= i < n then Some(i) else if -(n as int) <= i < 0 then Some(n + i) else None
  }

  /** `max(xs)` */
  function MaxOf(xs: seq<real>): (m: real)
    requires |xs| > 0
    ensures m in xs
    ensures forall i :: 0 <= i < |xs| ==> xs[i] <= m
    decreases |xs|
  {
    if |xs| == 1 then xs[0]
    else
      var rest := MaxOf(xs[1..]);
      assert forall i :: 1 <= i < |xs| ==> xs[i] == xs[1..][i - 1];
      if xs[0] >= rest then xs[0] else rest
  }

  /** The per-label probability map: the class probability, or 0 past the end of the vector. */
  function ProbabilityMap(p: seq<real>): (m: map<string, real>)
    ensures m.Keys == {"LOW", "MODERATE", "HIGH"}
    ensures forall i :: 0 <= i < 3 ==> m[RiskLabels[i]] == (if i < |p| then p[i] else 0.0)
  {
    map["LOW" := if 0 < |p| then p[0] else 0.0,
        "MODERATE" := if 1 < |p| then p[1] else 0.0,
        "HIGH" := if 2 < |p| then p[2] else 0.0]
  }

  datatype Prediction =
    | Advanced(riskLevel: string, riskNumeric: int, probabilities: map<string, real>,
               confidence: real, color: string)
    | Basic(floodRisk: int, probabilityNoFlood: real, probabilityFlood: real, confidence: real)

  /** `input_data[features]` on a one-row frame: None when a feature is missing. */
  function FeatureVector(input: map<Column, real>, features: seq<Column>): (v: Option<seq<real>>)
    ensures v.Some? <==> forall i :: 0 <= i < |features| ==> features[i] in input
    ensures v.Some? ==> |v.value| == |features|
                        && forall i :: 0 <= i < |features| ==> v.value[i] == input[features[i]]
  {
    if forall i :: 0 <= i < |features| ==> features[i] in input then
      Some(seq(|features|, i requires 0 <= i < |features| && features[i] in input => input[features[i]]))
    else None
  }

  /** Whether the result dictionary can be built from a classifier output without an exception. */
  predicate Interpretable(out: ClassifierOutput, isAdvanced: bool) {
    |out.probabilities| > 0 && (isAdvanced ==> PyIndex(out.prediction, 3).Some?)
  }

  /** The result dictionary for a classifier output. */
  function Interpret(out: ClassifierOutput, isAdvanced: bool): (r: Prediction)
    requires Interpretable(out, isAdvanced)
    ensures r.Advanced? <==> isAdvanced
    ensures r.confidence in out.probabilities
    ensures forall i :: 0 <= i < |out.probabilities| ==> out.probabilities[i] <= r.confidence
    ensures r.Advanced? ==> var k := PyIndex(out.prediction, 3).value;
              && r.riskLevel == RiskLabels[k] && r.color == RiskColors[k]
              && r.riskNumeric == out.prediction
              && r.probabilities == ProbabilityMap(out.probabilities)
    ensures r.Basic? ==> r.floodRisk == out.prediction
                         && r.probabilityNoFlood == out.probabilities[0]
                         && (|out.probabilities| == 1 ==> r.probabilityFlood == 1.0 - out.probabilities[0])
                         && (|out.probabilities| > 1 ==> r.probabilityFlood == out.probabilities[1])
  {
    var p := out.probabilities;
    if isAdvanced then
      var k := PyIndex(out.prediction, 3).value;
      Advanced(RiskLabels[k], out.prediction, ProbabilityMap(p), MaxOf(p), RiskColors[k])
    else
      Basic(out.prediction, p[0], if |p| > 1 then p[1] else 1.0 - p[0], MaxOf(p))
  }

  /**
   * `predict_flood_risk`: no model gives None; otherwise the classifier runs
   * on the selected features, and any exception on the way (missing features,
   * a class index out of range, an empty probability vector) gives None.
   */
  function PredictFloodRisk(model: Option<Classifier>, features: Option<seq<Column>>,
                            input: map<Column, real>, isAdvanced: bool): (r: Option<Prediction>)
    ensures model.None? ==> r.None?
    ensures r.Some? <==>
              && model.Some? && features.Some?
              && FeatureVector(input, features.value).Some?
              && Interpretable(model.value.run(FeatureVector(input, features.value).value), isAdvanced)
    ensures r.Some? ==>
              r.value == Interpret(model.value.run(FeatureVector(input, features.value).value), isAdvanced)
  {
    if model.None? || features.None? then None
    else
      match FeatureVector(input, features.value)
      case None => None
      case Some(x) =>
        var out := model.value.run(x);
        if Interpretable(out, isAdvanced) then Some(Interpret(out, isAdvanced)) else None
  }

  /** A value to describe: a level name from the advanced model or a flood probability. */
  datatype RiskValue = Level(name: string) | Probability(p: real)

  /** The number of the thresholds 0.2, 0.4, 0.6, 0.8 a probability reaches. */
  function ProbabilityBand(p: real): (k: nat)
    ensures k < 5
    ensures k == (if p >= 0.2 then 1 else 0) + (if p >= 0.4 then 1 else 0)
                 + (if p >= 0.6 then 1 else 0) + (if p >= 0.8 then 1 else 0)
  {
    if p < 0.2 then 0 else if p < 0.4 then 1 else if p < 0.6 then 2 else if p < 0.8 then 3 else 4
  }

  const BandTexts: seq<string> := ["AN TOAN", "THAP", "TRUNG BINH", "CAO", "RAT CAO"]
  const BandColors: seq<string> := ["green", "yellow", "orange", "red", "darkred"]

  /**
   * `get_risk_level_text`: the advanced model's value passes through with
   * colour "auto"; a probability gets the text and colour of its band.
   */
  function RiskLevelText(v: RiskValue, isAdvanced: bool): (r: (RiskValue, string))
    requires !isAdvanced ==> v.Probability?
    ensures isAdvanced ==> r == (v, "auto")
    ensures !isAdvanced ==> r.0 == Level(BandTexts[ProbabilityBand(v.p)])
                            && r.1 == BandColors[ProbabilityBand(v.p)]
  {
    if isAdvanced then (v, "auto")
    else
      var k := ProbabilityBand(v.p);
      (Level(BandTexts[k]), BandColors[k])
  }

  /** A higher probability never gets a lower band. */
  lemma ProbabilityBandMonotone(p: real, q: real)
    requires p <= q
    ensures ProbabilityBand(p) <= ProbabilityBand(q)
  {
  }

  /** What `save_prediction_result` stores: a level, its probability and the advice. */
  datatype StoredRisk = StoredRisk(riskLevel: string, probability: real, recommendations: seq<string>)

  /** The advice stored with an advanced prediction. */
  function AdvancedRecommendations(level: string): seq<string> {
    if level == "HIGH" then
      ["Sơ tán dân cư vùng nguy hiểm", "Chuẩn bị vật tư cứu trợ khẩn cấp",
       "Theo dõi mực nước liên tục", "Kích hoạt đội ứng phó khẩn cấp"]
    else if level == "MODERATE" then
      ["Theo dõi chặt chẽ diễn biến thời tiết", "Chuẩn bị sẵn sàng biện pháp ứng phó",
       "Thông báo người dân ở vùng trũng", "Kiểm tra hệ thống thoát nước"]
    else
      ["Tiếp tục theo dõi thông tin thời tiết", "Duy trì hoạt động bình thường"]
  }

  /**
   * The risk mapping of `save_prediction_result`: an advanced prediction keeps
   * its level and looks its probability up in the map (None when the key is
   * missing: the KeyError makes the save fail); a basic one is HIGH above 0.6,
   * MODERATE above 0.4, else LOW.
   */
  function StoredRiskOf(p: Prediction): (s: Option<StoredRisk>)
    ensures p.Advanced? ==> (s.Some? <==> p.riskLevel in p.probabilities)
    ensures p.Advanced? && s.Some? ==>
              s.value.riskLevel == p.riskLevel && s.value.probability == p.probabilities[p.riskLevel]
              && |s.value.recommendations| == (if p.riskLevel in {"HIGH", "MODERATE"} then 4 else 2)
    ensures p.Basic? ==> s.Some? && s.value.probability == p.probabilityFlood
    ensures p.Basic? ==> (s.value.riskLevel == "HIGH" <==> p.probabilityFlood > 0.6)
    ensures p.Basic? ==> (s.value.riskLevel == "MODERATE" <==> 0.4 < p.probabilityFlood <= 0.6)
    ensures p.Basic? ==> (s.value.riskLevel == "LOW" <==> p.probabilityFlood <= 0.4)
  {
    match p
    case Advanced(level, _, probabilities, _, _) =>
      if level in probabilities then
        Some(StoredRisk(level, probabilities[level], AdvancedRecommendations(level)))
      else None
    case Basic(_, _, flood, _) =>
      if flood > 0.6 then
        Some(StoredRisk("HIGH", flood, ["Cảnh báo nguy cơ lũ cao", "Chuẩn bị biện pháp ứng phó"]))
      else if flood > 0.4 then
        Some(StoredRisk("MODERATE", flood, ["Theo dõi tình hình", "Kiểm tra hệ thống thoát nước"]))
      else
        Some(StoredRisk("LOW", flood, ["Tiếp tục theo dõi"]))
  }

  /**
   * Every prediction `predict_flood_risk` returns can be stored, and an
   * advanced one stores the probability of its own predicted class.
   */
  lemma {:induction false} PredictionsAreStorable(model: Option<Classifier>, features: Option<seq<Column>>,
                                                  input: map<Column, real>, isAdvanced: bool)
    requires PredictFloodRisk(model, features, input, isAdvanced).Some?
    ensures var p := PredictFloodRisk(model, features, input, isAdvanced).value;
            StoredRiskOf(p).Some?
    ensures var p := PredictFloodRisk(model, features, input, isAdvanced).value;
            var out := model.value.run(FeatureVector(input, features.value).value);
            p.Advanced? ==>
              var k := PyIndex(out.prediction, 3).value;
              StoredRiskOf(p).value.probability == (if k < |out.probabilities| then out.probabilities[k] else 0.0)
  {
    var p := PredictFloodRisk(model, features, input, isAdvanced).value;
    var out := model.value.run(FeatureVector(input, features.value).value);
    if p.Advanced? {
      var k := PyIndex(out.prediction, 3).value;
      assert p.riskLevel == RiskLabels[k];
      assert p.probabilities == ProbabilityMap(out.probabilities);
    }
  }

  /**
   * The displayed band and the stored level disagree at a flood probability
   * of exactly 0.6: the text is CAO while the stored level is MODERATE.
   */
  lemma TextAndStoredLevelDisagreeAtPointSix()
    ensures RiskLevelText(Probability(0.6), false).0 == Level("CAO")
    ensures StoredRiskOf(Basic(1, 0.4, 0.6, 0.6)).value.riskLevel == "MODERATE"
  {
  }
}
