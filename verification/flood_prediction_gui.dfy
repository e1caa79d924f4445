/**
 * The controller behind the flood-prediction window: the alert class of the
 * water level typed into the form, the feature map assembled from the form,
 * the bands and advice shown for a basic prediction, and the model state that
 * training sets and prediction checks.  Widgets, message boxes and threads
 * are not modelled; what they would show is returned as a value.
 */
module FloodPredictionGui {
  import opened Wrappers
  import opened Draws
  import Levels
  import opened Predictor

  /** `calculate_alert_level`: the alert ladder with the form's fixed thresholds 180/220/270. */
  function CalculateAlertLevel(waterLevel: real): (k: int)
    ensures k == Levels.AlertClass(waterLevel, 180.0, 220.0, 270.0)
    ensures k == 0 <==> waterLevel < 180.0
    ensures k == 1 <==> 180.0 <= waterLevel < 220.0
    ensures k == 2 <==> 220.0 <= waterLevel < 270.0
    ensures k == 3 <==> 270.0 <= waterLevel
  {
    if waterLevel >= 270.0 then 3
    else if waterLevel >= 220.0 then 2
    else if waterLevel >= 180.0 then 1
    else 0
  }

  /** A higher water level never gets a lower alert class. */
  lemma CalculateAlertLevelMonotone(w: real, w': real)
    requires w <= w'
    ensures CalculateAlertLevel(w) <= CalculateAlertLevel(w')
  {
    Levels.AlertClassMonotone(w, w', 180.0, 220.0, 270.0);
  }

  /** The values the input form holds. */
  datatype FormInput = FormInput(
    temperature: real, humidity: real, pressure: real, rainfall1h: real, windSpeed: real,
    waterLevel: real, flowRate: real, trend: string)

  const BasicInputKeys: set<Column> := {Temperature, Humidity, Pressure, Rainfall1h, Rainfall3h, WindSpeed}


  /** The weather part of the input map; the 3-hour rain is estimated as 2.5 times the 1-hour rain. */
  function WeatherInput(f: FormInput): (m: map<Column, real>)
    ensures m.Keys == BasicInputKeys
    ensures m[Rainfall1h] == f.rainfall1h && m[Rainfall3h] == f.rainfall1h * 2.5
    ensures m[Temperature] == f.temperature && m[Humidity] == f.humidity
    ensures m[Pressure] == f.pressure && m[WindSpeed] == f.windSpeed
  {
    map[Temperature := f.temperature, Humidity := f.humidity, Pressure := f.pressure,
        Rainfall1h := f.rainfall1h, Rainfall3h := f.rainfall1h * 2.5, WindSpeed := f.windSpeed]
  }

  const RiverInputKeys: set<Column> :=
    {WaterLevel, WaterLevelRatio, NormalLevel, AlertLevel1, AlertLevel2, AlertLevel3,
     FlowRate, FlowRateNormal, AlertLevelExceeded, TrendRising, TrendFalling}

  /** The river part, against a normal level of 150 and alerts 180/220/270. */
  function RiverInput(f: FormInput): (m: map<Column, real>)
    ensures m.Keys == RiverInputKeys
    ensures m[WaterLevel] == f.waterLevel && m[WaterLevelRatio] * 150.0 == f.waterLevel
    ensures m[NormalLevel] == 150.0 && m[AlertLevel1] == 180.0
            && m[AlertLevel2] == 220.0 && m[AlertLevel3] == 270.0
    ensures m[FlowRate] == f.flowRate && m[FlowRateNormal] * 1000.0 == f.flowRate
    ensures m[AlertLevelExceeded] == CalculateAlertLevel(f.waterLevel) as real
    ensures (m[TrendRising] == 1.0 <==> f.trend == "rising")
            && (m[TrendFalling] == 1.0 <==> f.trend == "falling")
            && !(m[TrendRising] == 1.0 && m[TrendFalling] == 1.0)
  {
    map[WaterLevel := f.waterLevel, WaterLevelRatio := f.waterLevel / 150.0,
        NormalLevel := 150.0,
        AlertLevel1 := 180.0, AlertLevel2 := 220.0, AlertLevel3 := 270.0,
        FlowRate := f.flowRate, FlowRateNormal := f.flowRate / 1000.0,
        AlertLevelExceeded := CalculateAlertLevel(f.waterLevel) as real,
        TrendRising := if f.trend == "rising" then 1.0 else 0.0,
        TrendFalling := if f.trend == "falling" then 1.0 else 0.0]
  }

  /** The input map `perform_prediction` builds: the weather part, updated with the river part for the advanced model. */
  function AssembledInput(f: FormInput, advanced: bool): (m: map<Column, real>)
    ensures m.Keys == if advanced then BasicInputKeys + RiverInputKeys else BasicInputKeys
  {
    if advanced then WeatherInput(f) + RiverInput(f) else WeatherInput(f)
  }

  /** The weather entries of the assembled map are those of the weather part. */
  lemma AssembledKeepsWeather(f: FormInput, advanced: bool)
    ensures forall c :: c in BasicInputKeys ==> AssembledInput(f, advanced)[c] == WeatherInput(f)[c]
  {
    if advanced {
      var r := RiverInput(f);
      assert r.Keys == RiverInputKeys;
      forall c | c in BasicInputKeys ensures c !in r {
      }
    }
  }

  /** The river entries of the advanced assembled map are those of the river part. */
  lemma AssembledKeepsRiver(f: FormInput)
    ensures forall c :: c in RiverInputKeys ==> AssembledInput(f, true)[c] == RiverInput(f)[c]
  {
    assert AssembledInput(f, true) == WeatherInput(f) + RiverInput(f);
  }

  /** Each part keeps its values in the assembled map: the river update overwrites none of the weather fields. */
  lemma AssembledInputValues(f: FormInput, advanced: bool)
    ensures var m := AssembledInput(f, advanced);
            && m[Rainfall1h] == f.rainfall1h && m[Rainfall3h] == f.rainfall1h * 2.5
            && m[Temperature] == f.temperature && m[Humidity] == f.humidity
            && m[Pressure] == f.pressure && m[WindSpeed] == f.windSpeed
    ensures advanced ==> var m := AssembledInput(f, advanced);
            && m[WaterLevel] == f.waterLevel && m[WaterLevelRatio] * 150.0 == f.waterLevel
            && m[FlowRateNormal] * 1000.0 == f.flowRate
            && m[AlertLevelExceeded] == CalculateAlertLevel(f.waterLevel) as real
            && !(m[TrendRising] == 1.0 && m[TrendFalling] == 1.0)
  {
    AssembledKeepsWeather(f, advanced);
    if advanced {
      AssembledKeepsRiver(f);
    }
  }

  /** The form supplies every feature of the mode it is assembled for. */
  lemma {:induction false} FormSuppliesFeatures(f: FormInput, columns: set<Column>)
    ensures var c := ChooseConfig(columns);
            FeatureVector(AssembledInput(f, c.isAdvanced), c.features).Some?
  {
    var c := ChooseConfig(columns);
    var m := AssembledInput(f, c.isAdvanced);
    if c.isAdvanced {
      assert c.features == AdvancedFeatures;
      forall i | 0 <= i < |c.features| ensures c.features[i] in m {
        assert c.features[i] in BasicInputKeys + RiverInputKeys;
      }
    } else {
      assert c.features == BasicFeatures;
      forall i | 0 <= i < |c.features| ensures c.features[i] in m {
        assert c.features[i] in BasicInputKeys;
      }
    }
  }

  /** The label shown for a basic prediction: below 0.3 low, below 0.7 medium, else high. */
  function BasicBand(p: real): (band: (string, string))
    ensures p < 0.3 ==> band == ("THẤP", "green")
    ensures 0.3 <= p < 0.7 ==> band == ("TRUNG BÌNH", "orange")
    ensures 0.7 <= p ==> band == ("CAO", "red")
  {
    if p < 0.3 then ("THẤP", "green")
    else if p < 0.7 then ("TRUNG BÌNH", "orange")
    else ("CAO", "red")
  }

  /** The advice block shown for a basic prediction: 2 above 0.7, 1 above 0.4, else 0. */
  function BasicAdvice(p: real): (level: nat)
    ensures level == 2 <==> p > 0.7
    ensures level == 1 <==> 0.4 < p <= 0.7
    ensures level == 0 <==> p <= 0.4
  {
    if p > 0.7 then 2 else if p > 0.4 then 1 else 0
  }

  /** The rank of a band label: 0 low, 1 medium, 2 high. */
  function BandRank(band: (string, string)): nat {
    if band.0 == "THẤP" then 0 else if band.0 == "TRUNG BÌNH" then 1 else 2
  }

  /**
   * The advice is never more urgent than the band, and at some probabilities
   * (0.35, 0.7) it is strictly less urgent, because the two use different cut points.
   */
  lemma AdviceNeverAboveBand(p: real)
    ensures BasicAdvice(p) <= BandRank(BasicBand(p))
    ensures BasicAdvice(0.35) < BandRank(BasicBand(0.35))
    ensures BasicAdvice(0.7) < BandRank(BasicBand(0.7))
  {
  }

  /** What the model-status label says. */
  datatype ModelStatus = Untrained | Ready(advanced: bool) | TrainingFailed

  /** What a press of the predict button ends in. */
  datatype PredictionOutcome = NoModelWarning | PredictionError | Displayed(result: Prediction)

  /** The unit draws for one row of the basic synthetic corpus. */
  datatype BasicSampleDraws = BasicSampleDraws(
    latitude: real, longitude: real, temperature: real, humidity: real, pressure: real,
    rainfall1h: real, rainfall3h: real, windSpeed: real, floodRisk: real)

  predicate BasicSampleDrawsValid(d: BasicSampleDraws) {
    && IsUnit(d.latitude) && IsUnit(d.longitude) && IsUnit(d.temperature) && IsUnit(d.humidity)
    && IsUnit(d.pressure) && IsUnit(d.rainfall1h) && IsUnit(d.rainfall3h) && IsUnit(d.windSpeed)
    && IsUnit(d.floodRisk)
  }

  const BasicSyntheticColumns: set<Column> :=
    {LocationName, Latitude, Longitude, Temperature, Humidity, Pressure,
     Rainfall1h, Rainfall3h, WindSpeed, FloodRisk}

  /** One basic synthetic row: weather around 26 °C and 1013 hPa, flood label 1 with weight 0.4. */
  function BasicSample(i: nat, d: BasicSampleDraws): Row
    requires BasicSampleDrawsValid(d)
  {
    Row("Sample_" + NatToString(i), "",
        10.0 + Uniform(-5.0, 5.0, d.latitude), 106.0 + Uniform(-5.0, 5.0, d.longitude),
        26.0 + Uniform(-5.0, 5.0, d.temperature), Uniform(40.0, 98.0, d.humidity),
        1013.0 + Uniform(-20.0, 20.0, d.pressure),
        Uniform(0.0, 50.0, d.rainfall1h), Uniform(0.0, 100.0, d.rainfall3h), Uniform(0.0, 50.0, d.windSpeed),
        0.0, 0.0, 0.0, 0.0, 0.0, 0.0, 0.0, 0.0, 0, 0, 0,
        0, Choose([0, 1], [0.6, 0.4], d.floodRisk), "")
  }

  /** The ranges of a basic synthetic row. */
  lemma BasicSampleRanges(i: nat, d: BasicSampleDraws)
    requires BasicSampleDrawsValid(d)
    ensures var r := BasicSample(i, d);
            && r.floodRisk in {0, 1}
            && 21.0 <= r.temperature < 31.0 && 40.0 <= r.humidity < 98.0
            && 993.0 <= r.pressure < 1033.0 && 0.0 <= r.rainfall1h < 50.0
            && 0.0 <= r.rainfall3h < 100.0 && 0.0 <= r.windSpeed < 50.0
  {
  }

  /** The basic synthetic label is drawn independently of the weather, so it can contradict the rules. */
  lemma BasicSyntheticLabelsIgnoreRules()
    ensures var r := BasicSample(0, BasicSampleDraws(0.0, 0.0, 0.0, 0.0, 0.0, 0.0, 0.0, 0.0, 0.9));
            r.floodRisk == 1 && BasicLabel(r) == 0
  {
  }

  /** The 100 basic synthetic rows for these draws, in order. */
  function BasicCorpus(draws: seq<BasicSampleDraws>): seq<Row>
    requires |draws| == 100 && forall i :: 0 <= i < 100 ==> BasicSampleDrawsValid(draws[i])
  {
    seq(100, i requires 0 <= i < 100 => BasicSample(i, draws[i]))
  }

  /** The loop generating the 100 basic synthetic rows. */
  method BasicSyntheticData(draws: seq<BasicSampleDraws>) returns (t: Table)
    requires |draws| == 100 && forall i :: 0 <= i < 100 ==> BasicSampleDrawsValid(draws[i])
    ensures t.columns == BasicSyntheticColumns && |t.rows| == 100
    ensures forall i :: 0 <= i < 100 ==> t.rows[i] == BasicSample(i, draws[i])
    ensures t.rows == BasicCorpus(draws)
  {
    var samples: seq<Row> := [];
    for i := 0 to 100
      invariant |samples| == i
      invariant forall j :: 0 <= j < i ==> samples[j] == BasicSample(j, draws[j])
    {
      samples := samples + [BasicSample(i, draws[i])];
    }
    t := FrameOf(BasicSyntheticColumns, samples);
  }

  /** `pd.concat([real, synthetic])` when there are real rows, else the synthetic frame alone. */
  function CombineTables(realData: Table, synthetic: Table): (t: Table)
    ensures |realData.rows| > 0 ==> t.rows == realData.rows + synthetic.rows
                                    && t.columns == realData.columns + synthetic.columns
    ensures |realData.rows| == 0 ==> t == synthetic
  {
    if |realData.rows| > 0 then Table(realData.columns + synthetic.columns, realData.rows + synthetic.rows)
    else synthetic
  }

  /**
   * The advanced branch of `train_prediction_model`: the combined rows,
   * labelled with the 0/1/2 scale, followed by the 150-row synthetic corpus.
   */
  method AdvancedTrainingFrame(combined: Table, draws: seq<SampleDraws>, now: string) returns (df: Table)
    requires |combined.rows| > 0 && combined.columns == CombinedColumns
    requires |draws| == 150 && forall i :: 0 <= i < 150 ==> SampleDrawsValid(draws[i])
    ensures df.rows == LabelledRows(CombinedColumns, combined.rows)
                       + AdvancedCorpus(AveragesOf(combined.rows), draws, now)
    ensures df.columns == SyntheticColumns
  {
    var frame := new Frame(combined);
    frame.CreateFloodLabels();
    var realData := frame.Snapshot();
    assert realData.columns == SyntheticColumns;
    assert realData.rows == LabelledRows(CombinedColumns, combined.rows);
    LabellingKeepsAverages(CombinedColumns, combined.rows);
    var synthetic := GenerateAdvancedTrainingData(realData, draws, now);
    df := CombineTables(realData, synthetic);
  }

  /**
   * The fallback branch of `train_prediction_model`: the weather rows (if
   * any), labelled with the 0/1 scale, followed by 100 basic synthetic rows.
   */
  method BasicTrainingFrame(weather: Option<Table>, draws: seq<BasicSampleDraws>) returns (df: Table)
    requires weather.Some? && |weather.value.rows| > 0 ==> weather.value.columns == WeatherColumns
    requires |draws| == 100 && forall i :: 0 <= i < 100 ==> BasicSampleDrawsValid(draws[i])
    ensures df.rows == (if weather.Some? then LabelledRows(WeatherColumns, weather.value.rows) else [])
                       + BasicCorpus(draws)
    ensures WaterLevel !in df.columns && BasicInputKeys + {FloodRisk} <= df.columns
  {
    var realData := if weather.Some? then weather.value else Table({}, []);
    if |realData.rows| > 0 {
      var frame := new Frame(realData);
      frame.CreateFloodLabels();
      realData := frame.Snapshot();
      assert realData.columns == WeatherColumns + {FloodRisk};
      assert realData.rows == LabelledRows(WeatherColumns, weather.value.rows);
    }
    var synthetic := BasicSyntheticData(draws);
    df := CombineTables(realData, synthetic);
  }

  /**
   * The rows `train_prediction_model` trains on, given what the two queries
   * return: the labelled joined rows and the advanced corpus when the join
   * returns rows that all decode, else the labelled weather rows (when they
   * all decode) and the basic corpus.
   */
  function TrainingRows(combinedRecords: seq<JoinedRecord>, weatherRecords: seq<WeatherRecord>,
                        advancedDraws: seq<SampleDraws>, basicDraws: seq<BasicSampleDraws>, now: string): seq<Row>
    requires |advancedDraws| == 150 && forall i :: 0 <= i < 150 ==> SampleDrawsValid(advancedDraws[i])
    requires |basicDraws| == 100 && forall i :: 0 <= i < 100 ==> BasicSampleDrawsValid(basicDraws[i])
  {
    if |combinedRecords| > 0 && AllJoinedDecoded(combinedRecords) then
      var joined := CombinedRows(combinedRecords, |combinedRecords|);
      LabelledRows(CombinedColumns, joined) + AdvancedCorpus(AveragesOf(joined), advancedDraws, now)
    else
      var weather := if AllWeatherDecoded(weatherRecords) then WeatherRows(weatherRecords, |weatherRecords|) else [];
      LabelledRows(WeatherColumns, weather) + BasicCorpus(basicDraws)
  }

  /**
   * The frame `train_prediction_model` trains on: the advanced frame when
   * the join returns rows that all decode, else the basic frame.
   */
  method TrainingFrame(combinedRecords: seq<JoinedRecord>, weatherRecords: seq<WeatherRecord>,
                       advancedDraws: seq<SampleDraws>, basicDraws: seq<BasicSampleDraws>, now: string)
    returns (df: Table, useAdvanced: bool)
    requires |advancedDraws| == 150 && forall i :: 0 <= i < 150 ==> SampleDrawsValid(advancedDraws[i])
    requires |basicDraws| == 100 && forall i :: 0 <= i < 100 ==> BasicSampleDrawsValid(basicDraws[i])
    ensures useAdvanced <==> |combinedRecords| > 0 && AllJoinedDecoded(combinedRecords)
    ensures df.rows == TrainingRows(combinedRecords, weatherRecords, advancedDraws, basicDraws, now)
    ensures useAdvanced ==> df.columns == SyntheticColumns
    ensures !useAdvanced ==> WaterLevel !in df.columns && BasicInputKeys + {FloodRisk} <= df.columns
  {
    var combined := LoadCombinedData(combinedRecords);
    if combined.Some? {
      CombinedRowsPointwise(combinedRecords, |combinedRecords|);
    }
    useAdvanced := combined.Some? && |combined.value.rows| > 0;
    if useAdvanced {
      df := AdvancedTrainingFrame(combined.value, advancedDraws, now);
    } else {
      var weather := LoadDataFromDb(weatherRecords);
      if weather.Some? {
        WeatherRowsPointwise(weatherRecords, |weatherRecords|);
      }
      df := BasicTrainingFrame(weather, basicDraws);
    }
  }

  /** The advanced frame's labels: 0-2 throughout, and 60 times 0, 50 times 1, 40 times 2 in the corpus. */
  lemma AdvancedFrameLabels(joined: seq<Row>, draws: seq<SampleDraws>, now: string)
    requires |draws| == 150 && forall i :: 0 <= i < 150 ==> SampleDrawsValid(draws[i])
    ensures var rows := LabelledRows(CombinedColumns, joined) + AdvancedCorpus(AveragesOf(joined), draws, now);
            && |rows| == |joined| + 150
            && (forall i :: 0 <= i < |rows| ==> 0 <= rows[i].floodRiskLevel <= 2)
            && (forall i :: |joined| <= i < |rows| ==>
                  rows[i].floodRiskLevel == (if i < |joined| + 60 then 0 else if i < |joined| + 110 then 1 else 2))
  {
    var labelled := LabelledRows(CombinedColumns, joined);
    var corpus := AdvancedCorpus(AveragesOf(joined), draws, now);
    AdvancedCorpusLabels(AveragesOf(joined), draws, now);
    var rows := labelled + corpus;
    var n := |joined|;
    forall i | 0 <= i < |rows|
      ensures 0 <= rows[i].floodRiskLevel <= 2
      ensures n <= i ==> rows[i].floodRiskLevel == (if i < n + 60 then 0 else if i < n + 110 then 1 else 2)
    {
      if i < n {
        assert rows[i] == Labelled(CombinedColumns, joined[i]);
      } else {
        assert rows[i] == corpus[i - n];
      }
    }
  }

  /** The basic frame's labels are all 0 or 1. */
  lemma BasicFrameLabels(weather: seq<Row>, draws: seq<BasicSampleDraws>)
    requires |draws| == 100 && forall i :: 0 <= i < 100 ==> BasicSampleDrawsValid(draws[i])
    ensures var rows := LabelledRows(WeatherColumns, weather) + BasicCorpus(draws);
            forall i :: 0 <= i < |rows| ==> rows[i].floodRisk in {0, 1}
  {
    var labelled := LabelledRows(WeatherColumns, weather);
    var rows := labelled + BasicCorpus(draws);
    forall i | 0 <= i < |rows|
      ensures rows[i].floodRisk in {0, 1}
    {
      if i < |labelled| {
        assert rows[i] == Labelled(WeatherColumns, weather[i]);
      } else {
        var k := i - |labelled|;
        assert rows[i] == BasicSample(k, draws[k]);
        BasicSampleRanges(k, draws[k]);
      }
    }
  }

  /**
   * Every row `train_prediction_model` trains on carries a label of its
   * mode's scale: LOW/MODERATE/HIGH (0-2) in the advanced frame, whose last
   * 150 rows are labelled 60 times 0, 50 times 1 and 40 times 2; 0/1 in the
   * basic frame.
   */
  lemma TrainingLabelsInScale(combinedRecords: seq<JoinedRecord>, weatherRecords: seq<WeatherRecord>,
                              advancedDraws: seq<SampleDraws>, basicDraws: seq<BasicSampleDraws>, now: string)
    requires |advancedDraws| == 150 && forall i :: 0 <= i < 150 ==> SampleDrawsValid(advancedDraws[i])
    requires |basicDraws| == 100 && forall i :: 0 <= i < 100 ==> BasicSampleDrawsValid(basicDraws[i])
    ensures var rows := TrainingRows(combinedRecords, weatherRecords, advancedDraws, basicDraws, now);
            |combinedRecords| > 0 && AllJoinedDecoded(combinedRecords) ==>
              && |rows| == |combinedRecords| + 150
              && (forall i :: 0 <= i < |rows| ==> 0 <= rows[i].floodRiskLevel <= 2)
              && (forall i :: |combinedRecords| <= i < |rows| ==>
                    rows[i].floodRiskLevel == (if i < |combinedRecords| + 60 then 0
                                               else if i < |combinedRecords| + 110 then 1 else 2))
    ensures var rows := TrainingRows(combinedRecords, weatherRecords, advancedDraws, basicDraws, now);
            !(|combinedRecords| > 0 && AllJoinedDecoded(combinedRecords)) ==>
              forall i :: 0 <= i < |rows| ==> rows[i].floodRisk in {0, 1}
  {
    if |combinedRecords| > 0 && AllJoinedDecoded(combinedRecords) {
      CombinedRowsPointwise(combinedRecords, |combinedRecords|);
      AdvancedFrameLabels(CombinedRows(combinedRecords, |combinedRecords|), advancedDraws, now);
    } else {
      BasicFrameLabels(if AllWeatherDecoded(weatherRecords) then WeatherRows(weatherRecords, |weatherRecords|) else [],
                       basicDraws);
    }
  }

  /**
   * Unpacking `train_model`'s result: a 3-tuple gives model, features and
   * mode; the 2-tuple gives no model and falls back to the mode chosen locally.
   */
  function UnpackTrainResult(o: TrainOutcome, useAdvanced: bool): (r: (Option<Classifier>, Option<seq<Column>>, bool))
    ensures r.0.Some? <==> o.Trained?
    ensures o.Trained? ==> r.0 == Some(o.model) && r.1 == Some(o.features) && r.2 == o.isAdvanced
    ensures Arity(o) == 2 ==> r.1.None? && r.2 == useAdvanced
    ensures o.FitFailed? ==> r.1.None? && !r.2
  {
    match o
    case TooFewRows => (None, None, useAdvanced)
    case FitFailed => (None, None, false)
    case Trained(model, features, isAdvanced) => (Some(model), Some(features), isAdvanced)
  }

  /** The window's model state. */
  class Controller {
    var model: Option<Classifier>
    var features: Option<seq<Column>>
    var isAdvanced: bool
    var status: ModelStatus

    /** A trained model carries the feature list of its mode. */
    predicate Valid()
      reads this
    {
      model.Some? ==> features == Some(if isAdvanced then AdvancedFeatures else BasicFeatures)
    }

    constructor ()
      ensures model.None? && features.None? && !isAdvanced && status == Untrained
      ensures Valid()
    {
      model := None;
      features := None;
      isAdvanced := false;
      status := Untrained;
    }

    /** `on_training_complete`: the three fields are set together; the status reports success iff there is a model. */
    method OnTrainingComplete(m: Option<Classifier>, f: Option<seq<Column>>, advanced: bool)
      modifies this
      ensures model == m && features == f && isAdvanced == advanced
      ensures status == if m.Some? then Ready(advanced) else TrainingFailed
    {
      model := m;
      features := f;
      isAdvanced := advanced;
      if model.Some? {
        status := Ready(isAdvanced);
      } else {
        status := TrainingFailed;
      }
    }

    /** The input map, built as the form code does: the weather fields, then an update with the river fields. */
    method AssembleInput(f: FormInput) returns (input: map<Column, real>)
      ensures input == AssembledInput(f, isAdvanced)
    {
      input := WeatherInput(f);
      if isAdvanced {
        input := input + RiverInput(f);
      }
    }

    /**
     * `perform_prediction`: without a model only a warning; otherwise the
     * prediction for the assembled input is displayed, or an error when
     * `predict_flood_risk` gives None.
     */
    method PerformPrediction(f: FormInput) returns (outcome: PredictionOutcome)
      ensures model.None? ==> outcome == NoModelWarning
      ensures model.Some? ==>
                outcome == match PredictFloodRisk(model, features, AssembledInput(f, isAdvanced), isAdvanced)
                           case Some(p) => Displayed(p)
                           case None => PredictionError
    {
      if model.None? {
        return NoModelWarning;
      }
      var input := AssembleInput(f);
      var result := PredictFloodRisk(model, features, input, isAdvanced);
      if result.Some? {
        outcome := Displayed(result.value);
      } else {
        outcome := PredictionError;
      }
    }

    /**
     * Once trained through the window, a model never misses a feature: a
     * prediction fails only if the classifier's own output cannot be read.
     */
    lemma TrainedModelGetsItsFeatures(f: FormInput)
      requires Valid() && model.Some?
      ensures FeatureVector(AssembledInput(f, isAdvanced), features.value).Some?
    {
      var columns := if isAdvanced then {WaterLevel, FloodRiskLevel} else {};
      assert ChooseConfig(columns).isAdvanced == isAdvanced;
      FormSuppliesFeatures(f, columns);
    }

    /**
     * `train_prediction_model` (the work done in the background thread, then
     * `on_training_complete`): the training frame, then `train_model`'s
     * result unpacked into the window's state.  The frame always has at
     * least 100 rows, so the 2-tuple fallback never applies.
     */
    method TrainPredictionModel(combinedRecords: seq<JoinedRecord>, weatherRecords: seq<WeatherRecord>,
                                advancedDraws: seq<SampleDraws>, basicDraws: seq<BasicSampleDraws>,
                                now: string, stratifyFails: bool, fit: Plan -> Option<Classifier>)
      returns (df: Table)
      modifies this
      requires |advancedDraws| == 150 && forall i :: 0 <= i < 150 ==> SampleDrawsValid(advancedDraws[i])
      requires |basicDraws| == 100 && forall i :: 0 <= i < 100 ==> BasicSampleDrawsValid(basicDraws[i])
      ensures df.rows == TrainingRows(combinedRecords, weatherRecords, advancedDraws, basicDraws, now)
      ensures model == fit(TrainingPlan(df, stratifyFails))
      ensures Valid()
      ensures status == if model.Some? then Ready(isAdvanced) else TrainingFailed
      ensures model.None? ==> features.None? && !isAdvanced
      ensures model.Some? ==> (isAdvanced <==> |combinedRecords| > 0 && AllJoinedDecoded(combinedRecords))
    {
      var useAdvanced;
      df, useAdvanced := TrainingFrame(combinedRecords, weatherRecords, advancedDraws, basicDraws, now);
      var result := TrainModel(df, stratifyFails, fit);
      var unpacked := UnpackTrainResult(result, useAdvanced);
      OnTrainingComplete(unpacked.0, unpacked.1, unpacked.2);
    }
  }
}
