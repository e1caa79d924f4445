# Flood prediction for Vietnamese river basins: a Dafny model

This project models the core of a flood-prediction system for seven Vietnamese
cities, and proves properties of that model. The system has five parts:

- a crawler that reads point forecasts from the Windy API and stores one weather reading per city;
- a simulator that produces one step of each city's river water level from the previous reading, the weather and a set of seasonal, tidal, human and geological terms;
- a predictor that:
  - joins weather and river rows;
  - labels them with rule-based flood-risk levels;
  - adds a class-balanced synthetic corpus;
  - trains a random forest;
  - turns the forest's output into a risk level, a probability and advice;
- a desktop window that assembles a prediction input from a form, shows the result and trains the model;
- a visualiser that flattens stored forecast series into (location, time, rain) records.

Modules, one file each:

- `Wrappers`: Python's `None` (`Option`) and `dict.get` (`Lookup`).
- `Draws`: random draws made explicit. Every `np.random` call is driven by a unit draw `u` in [0, 1) that the caller passes in. `uniform(lo, hi)` is `lo + (hi - lo) * u`, and `choice` takes the first value whose cumulative weight exceeds `u`.
- `Levels`: the alert ladder (class 3, 2 or 1 at `>=` each threshold, else 0). The loader, the simulator's report and the window each use it with their own thresholds.
- `RiverLevelCrawler`: the station registry and one simulation step. The steps that accumulate state (`get_weather_impact_advanced`, `get_human_activities_impact`, `get_geological_factors`, `simulate_river_level`) are methods proved against specification functions.
- `RainfallCrawler`: `process_windy_response`, `LOCATIONS` and the clean-up count.
- `Predictor`:
  - DataFrames are `Table`s: a set of present columns plus typed rows.
  - `create_flood_labels` is a method on a `Frame` class that updates its rows in place.
  - The classifier is opaque: a function from a feature vector to a class and a probability vector. The fit is a parameter that may fail.
- `FloodPredictionGui`: the window's state (`Controller`: model, features, mode, status) and the computations behind its buttons.
- `Visualizer`: `extract_series` and the nested loop of `build_dataframe`.

Behaviour of the code that the model keeps, though a reader might not expect it:

- The simulator clamps the new level to [0.2 × normal level, 1.3 × alert level 3].
- The trend is `rising` or `falling` only for a clamped change strictly beyond ±3 cm.
- No cap limits the change in one step. `RainImpactUnbounded` shows that the weather term alone exceeds any bound.
- The window's alert level is the plain 0–3 ladder with thresholds 180/220/270. No risk shift is applied.
- `train_model` returns a 2-tuple when there are fewer than 10 rows and a 3-tuple otherwise. The caller's `len(result)` test distinguishes the two.

## Model

| member | source | states |
|---|---|---|
| Draws.Uniform | river_level_crawler.py:137 | a uniform draw lies between its two bounds, in either order, and never reaches the upper bound |
| Draws.Choose | predictor.py:206-207 | a weighted choice returns one of the offered values |
| Levels.AlertClass | predictor.py:69-76 | the class is 3 exactly at or above alert 3, at least 2 exactly at or above alert 2 or 3, and at least 1 exactly at or above any threshold |
| Levels.AlertClassMonotone | predictor.py:69-76 | the class never drops as the level rises, for any thresholds |
| Levels.AlertClassCountsThresholds | predictor.py:69-76 | with ordered thresholds, the class is the number of thresholds reached |
| RiverLevelCrawler.ClampIntervalNonEmpty | river_level_crawler.py:439-443 | for a valid station: 0 < minimum < normal < alert 3 < maximum |
| RiverLevelCrawler.MinLevel | river_level_crawler.py:440 | 20 % of the normal level; its facts are in ClampIntervalNonEmpty |
| RiverLevelCrawler.MaxLevel | river_level_crawler.py:441 | 130 % of alert level 3; its facts are in ClampIntervalNonEmpty and ClampedLevelsSpanAllClasses |
| RiverLevelCrawler.RegistryValid | river_level_crawler.py:10-116 | the seven stations all have ordered thresholds and volatility in (0, 1), so every clamp interval is non-empty |
| RiverLevelCrawler.Clamp | river_level_crawler.py:443 | the result lies in [lo, hi], equals x inside, lo below and hi above |
| RiverLevelCrawler.SeasonalBase | river_level_crawler.py:122-134 | 1.5 in July–September, 1.3 in May, June and October, 0.6 in February–April, 0.8 otherwise |
| RiverLevelCrawler.SeasonalFactor | river_level_crawler.py:118-138 | the factor lies within ±10 % of the month's base |
| RiverLevelCrawler.RainySeasonByMonth | river_level_crawler.py:186-188 | synthetic weather is always rainy in July–September and never from November to April |
| RiverLevelCrawler.RainyInShoulderMonthDependsOnDraw | river_level_crawler.py:123-138 | in May the rainy branch depends on the draw (u = 0 gives dry, u = 0.5 gives rainy) |
| RiverLevelCrawler.HourFactorsBounds | river_level_crawler.py:147-152 | 24 hourly factors, each within [0.85, 1.08] |
| RiverLevelCrawler.HourFactor | river_level_crawler.py:147-154 | the hour's entry of the 24-entry list; its range is in HourFactorsBounds |
| RiverLevelCrawler.DailyCycleFactor | river_level_crawler.py:140-158 | the factor lies within ±2 % of the hour's factor, hence within [0.833, 1.1016] |
| RiverLevelCrawler.TidalEffect | river_level_crawler.py:160-180 | exactly 1.0 at non-tidal stations; otherwise within [0.8, 1.2] |
| RiverLevelCrawler.SyntheticWeather | river_level_crawler.py:184-199 | rain is non-negative and the 3-hour rain at least the 1-hour rain; wind within [5, 25]; humidity and pressure ranges of the rainy or dry branch |
| RiverLevelCrawler.ResolveWeather | river_level_crawler.py:184-205 | a missing or empty payload gives the synthetic sample; otherwise the payload's values with their defaults |
| RiverLevelCrawler.NoWeather | river_level_crawler.py:184 | `not weather_data`: no payload or an empty one; used by ResolveWeather and FlowBoost |
| RiverLevelCrawler.WeatherFromPayload | river_level_crawler.py:201-205 | the five `.get` reads with their defaults; facts in PayloadDefaults and RainfallCrawler.AsPayload |
| RiverLevelCrawler.PayloadDefaults | river_level_crawler.py:201-205 | a payload without the five keys reads as 0 mm, 0 mm, 70 %, 1013 hPa, 10 |
| RiverLevelCrawler.InstantRainImpact | river_level_crawler.py:210-220 | non-negative; zero without rain |
| RiverLevelCrawler.InstantRainMonotone | river_level_crawler.py:210-220 | more rain in the last hour never lowers the instant impact, across all four tiers |
| RiverLevelCrawler.AccumulatedRainImpact | river_level_crawler.py:222-225 | 1.5 per mm of 3-hour rain above the 1-hour rain, else 0 |
| RiverLevelCrawler.HumidityAdjusted | river_level_crawler.py:227-233 | a non-negative impact is scaled between 0.6 and 1.4; zero stays zero |
| RiverLevelCrawler.PressureAdjusted | river_level_crawler.py:235-243 | a non-negative impact is scaled between 0.7 and 1.8; zero stays zero |
| RiverLevelCrawler.WindAdjusted | river_level_crawler.py:245-251 | a non-negative impact is scaled between 0.8 and 1.1; zero stays zero |
| RiverLevelCrawler.RainImpact | river_level_crawler.py:207-253 | the weather impact is non-negative, and zero without rain |
| RiverLevelCrawler.RainImpactUnbounded | river_level_crawler.py:207-253 | no cap: for every bound some rain in neutral weather gives a larger impact |
| RiverLevelCrawler.GetWeatherImpactAdvanced | river_level_crawler.py:182-253 | the impact equals the rain impact of the resolved weather, and is non-negative |
| RiverLevelCrawler.AccumulateRainImpact | river_level_crawler.py:207-253 | the in-place `+=`/`*=` chain computes the specification's rain impact |
| RiverLevelCrawler.DamRelease | river_level_crawler.py:259-265 | 20–60 cm when a dam-controlled station rolls under 5 %, otherwise nothing |
| RiverLevelCrawler.Mining | river_level_crawler.py:267-271 | between -25 and -10 cm on a roll under 2 %, otherwise 0 |
| RiverLevelCrawler.Construction | river_level_crawler.py:273-280 | between -5 and 15 cm on a roll under 1 %, otherwise 0 |
| RiverLevelCrawler.HumanImpact | river_level_crawler.py:255-282 | the sum of the three events; facts in GetHumanActivitiesImpact |
| RiverLevelCrawler.HumanEventFires | river_level_crawler.py:259-280 | whether any of the three rolls is under its threshold; GetHumanActivitiesImpact gives 0 when none is |
| RiverLevelCrawler.GetHumanActivitiesImpact | river_level_crawler.py:255-282 | the sum of the three events; in [-30, 75]; 0 when none fires; at most 15 without a dam |
| RiverLevelCrawler.GetGeologicalFactors | river_level_crawler.py:284-298 | erosion plus sedimentation; in [-2, 23]; in [-2, 3] without erosion |
| RiverLevelCrawler.GeologicalImpact | river_level_crawler.py:284-298 | erosion plus sedimentation; facts in GetGeologicalFactors |
| RiverLevelCrawler.DeclineTier | river_level_crawler.py:305-315 | each drainage tier is a non-empty positive range |
| RiverLevelCrawler.DeclineTierMonotone | river_level_crawler.py:305-315 | a higher level ratio never gets a slower drainage range |
| RiverLevelCrawler.CalculateNaturalFlowChange | river_level_crawler.py:300-320 | the decline is positive and lies within the tier's range widened by the station's volatility |
| RiverLevelCrawler.StartingPoint | river_level_crawler.py:383-392 | the stored reading, or else a seeded level from the seasonal factor with a stable trend |
| RiverLevelCrawler.Momentum | river_level_crawler.py:420-425 | +2..8 after a rise, -8..-2 after a fall, 0 otherwise |
| RiverLevelCrawler.TrendOf | river_level_crawler.py:445-452 | rising iff the change > 3, falling iff < -3, stable iff within [-3, 3] |
| RiverLevelCrawler.FlowBoost | river_level_crawler.py:461-462 | the 1.3 boost applies iff a real payload reports more than 15 mm in the last hour |
| RiverLevelCrawler.SeasonalImpact | river_level_crawler.py:399-401 | the seasonal term; LevelChangeTerms ties it to the total change |
| RiverLevelCrawler.DailyImpact | river_level_crawler.py:403-405 | the daily term; LevelChangeTerms ties it to the total change |
| RiverLevelCrawler.TidalImpact | river_level_crawler.py:407-409 | the tidal term; LevelChangeTerms ties it to the total change |
| RiverLevelCrawler.TotalChange | river_level_crawler.py:397-430 | the eight terms less the natural decline; LevelChangeTerms proves the method computes it, UnclampedStepChange relates it to the reported change |
| RiverLevelCrawler.UnclampedLevel | river_level_crawler.py:432-437 | previous level plus total change plus noise; SimulateRiverLevel clamps it |
| RiverLevelCrawler.LevelChangeTerms | river_level_crawler.py:383-430 | the starting point, the weather impact and the total change are those of the specification functions |
| RiverLevelCrawler.StepFlowRate | river_level_crawler.py:455-466 | the flow is the base flow times the level ratio to the power 1.8, the heavy-rain boost and the variation |
| RiverLevelCrawler.FlowRate | river_level_crawler.py:454-466 | the flow of a step; StepFlowRate computes it and SimulateRiverLevel reports it |
| RiverLevelCrawler.SimulateRiverLevel | river_level_crawler.py:380-491 | with the stored level taken as a float, the new level is the clamped sum, always within the station's bounds; the change, trend, weather impact, seasonal and tidal factors and flow rate of that level |
| RiverLevelCrawler.PrevLevelAsRead | river_level_crawler.py:352-391 | the previous level is a Decimal exactly when a stored reading exists, and a float otherwise |
| RiverLevelCrawler.PyAdd | river_level_crawler.py:433 | adding a Decimal and a float raises; two numbers of one kind add |
| RiverLevelCrawler.SimulateRiverLevelAsWritten | river_level_crawler.py:383-433 | the step raises exactly when a stored reading exists; otherwise it gives the clamped level within bounds and its trend |
| RiverLevelCrawler.SyntheticWeatherNeverBoostsFlow | river_level_crawler.py:461-462 | synthesised weather never triggers the flow boost, however heavy its rain |
| RiverLevelCrawler.UnclampedStepChange | river_level_crawler.py:433-446 | inside the bounds, the reported change is the total change plus the noise |
| RiverLevelCrawler.StationAlertLevel | river_level_crawler.py:611-622 | each class is reported exactly in its band of the station's thresholds |
| RiverLevelCrawler.ClampedLevelsSpanAllClasses | river_level_crawler.py:439-443 | the lowest clamped level is class 0 and the highest is class 3 |
| RainfallCrawler.LocationsAreStations | rainfall_crawler.py:15-23 | the seven weather locations are the seven river stations: same order, names and coordinates, names distinct |
| RainfallCrawler.RecordsToDelete | rainfall_crawler.py:38-49 | above 2000 rows, deletes down to exactly 1500; otherwise none; never more than there are |
| RainfallCrawler.ChosenSeries | rainfall_crawler.py:129-147 | the surface list when non-empty, else the bare list when non-empty, else the empty list; fails exactly when a consulted key holds a value without a length |
| RainfallCrawler.ThreeHourRain | rainfall_crawler.py:150-164 | the sum of the first three values when there are three, else the first, else 0 |
| RainfallCrawler.FirstOrZero | rainfall_crawler.py:129-134 | the first value of the chosen list when there is one, else 0; ProcessWindyResponse reads each field with it |
| RainfallCrawler.ThreeHourRainAtLeastFirst | rainfall_crawler.py:150-164 | with non-negative values, the 3-hour rain is at least the 1-hour rain |
| RainfallCrawler.ProcessWindyResponse | rainfall_crawler.py:120-177 | a reading exists iff no field raises; it carries source `windy_api`, the timestamp and each field's first value or 0 |
| RainfallCrawler.NoPrecipitationMeansNoRain | rainfall_crawler.py:162-164 | with no precipitation key, both rain totals are 0 |
| RainfallCrawler.AsPayload | river_level_crawler.py:201-205 | the simulator reads the stored reading's own rain, humidity, pressure and wind, not its defaults |
| Predictor.FrameOf | predictor.py:106 | a DataFrame from a list keeps the rows; an empty list has no columns |
| Predictor.Celsius | predictor.py:57-59 | above 100 the value is treated as Kelvin and converted |
| Predictor.CelsiusReadsBothScales | predictor.py:136-139 | a temperature in (-173.15, 100] °C reads the same whether stored in Celsius or in Kelvin |
| Predictor.Hectopascal | predictor.py:61-63 | above 50000 the value is treated as pascals and converted |
| Predictor.HectopascalReadsBothUnits | predictor.py:142-144 | a pressure in (500, 50000] hPa reads the same whether stored in hPa or in Pa |
| Predictor.WeatherRow | predictor.py:136-157 | units are converted and every missing key reads as 0 |
| Predictor.LevelRatio | predictor.py:66 | 1 when the normal level is not positive; otherwise ratio × normal = water level |
| Predictor.CombinedRow | predictor.py:56-101 | the combined row of one record; its facts are in CombinedRowIndicators |
| Predictor.CombinedRowIndicators | predictor.py:56-101 | the alert class comes from the ladder; the trend flags are set iff the trend says so and are never both 1; a null or zero flow gives 0 |
| Predictor.CombinedAlertMonotone | predictor.py:69-76 | a higher water level never records a lower alert class |
| Predictor.CombinedRowsPointwise | predictor.py:48-106 | one combined row per record, the i-th built from the i-th record |
| Predictor.JoinedRow | predictor.py:49-101 | the combined row of a record whose weather JSON decodes; facts in CombinedRowIndicators |
| Predictor.CombinedRows | predictor.py:48-106 | the rows of the first n records in order; facts in CombinedRowsPointwise and LoadCombinedData |
| Predictor.LoadCombinedData | predictor.py:11-110 | one combined row per joined record, in order; None iff some weather JSON does not decode |
| Predictor.WeatherRowsPointwise | predictor.py:132-162 | one weather row per record, the i-th built from the i-th record |
| Predictor.RecordRow | predictor.py:132-157 | the weather row of a record whose JSON decodes; facts in WeatherRow |
| Predictor.WeatherRows | predictor.py:132-162 | the rows of the first n records in order; facts in WeatherRowsPointwise and LoadDataFromDb |
| Predictor.LoadDataFromDb | predictor.py:112-166 | one weather row per record, in order; None iff some weather JSON does not decode |
| Predictor.AdvancedLabel | predictor.py:289-314 | 2 iff a high condition holds; 1 iff none does and a moderate one does; 0 otherwise |
| Predictor.HighConditions | predictor.py:292-299 | the HIGH conditions; AdvancedLabel gives 2 exactly when one holds |
| Predictor.ModerateConditions | predictor.py:302-310 | the MODERATE conditions; AdvancedLabel gives 1 exactly when one holds and no HIGH one does |
| Predictor.AdvancedLabelMonotoneInRain1h | predictor.py:292-310 | more rain in the last hour never lowers the advanced label |
| Predictor.AdvancedLabelMonotoneInRain3h | predictor.py:292-310 | more 3-hour rain never lowers the advanced label |
| Predictor.AdvancedLabelNotMonotoneInRatio | predictor.py:296-307 | raising the level ratio from 1.3 to 1.6 without a rising trend lowers the label from 1 to 0 |
| Predictor.BasicLabel | predictor.py:318-336 | 1 iff some basic rule holds, 0 iff none does |
| Predictor.RuleHolds | predictor.py:320-333 | each of the five basic rules; BasicLabel is 1 exactly when one holds |
| Predictor.ApplyRules | predictor.py:320-333 | the sequential `df.loc` writes; facts in ApplyRulesSetsOnAnyHit, RuleOrderIrrelevant and SourceOrderGivesBasicLabel |
| Predictor.ApplyRulesSetsOnAnyHit | predictor.py:320-333 | the sequential writes set 1 exactly when one of the applied rules holds |
| Predictor.RuleOrderIrrelevant | predictor.py:320-333 | applying all five rules in any order gives the basic label |
| Predictor.SourceOrderGivesBasicLabel | predictor.py:320-333 | the five writes in the code's order give the basic label |
| Predictor.LabelColumn | predictor.py:285-318 | the 3-level column iff water level and alert class are present, else the binary column |
| Predictor.HasRiverData | predictor.py:285 | the column test choosing the 3-level labels; facts in LabelColumn |
| Predictor.Labelled | predictor.py:285-336 | a row gets the label of its mode and nothing else changes |
| Predictor.LabelledRows | predictor.py:285-336 | every row labelled, in order; facts in LabellingKeepsAverages and the training-frame rows |
| Predictor.Frame.CreateFloodLabels | predictor.py:281-338 | the label column is added; the row count is unchanged; every row is its old self with the mode's label written |
| Predictor.AveragesOf | predictor.py:172-179 | the temperature, humidity and pressure column means of the real data, or 26/75/1013 without data |
| Predictor.FeatureValue | predictor.py:366-370 | `df[column]` read as a number for one row; TrainingPlan builds X from it |
| Predictor.ColumnValues | predictor.py:172-179 | a column as a list, one value per row |
| Predictor.Mean | predictor.py:172-179 | `Series.mean()`; facts in MeanBetween through AverageTemperatureWithinReadings |
| Predictor.LabellingKeepsAverages | predictor.py:172-179 | the averages of labelled rows are those of the rows before labelling |
| Predictor.AverageTemperatureWithinReadings | predictor.py:172-173 | the temperature centre lies within the range of the real readings |
| Predictor.LowRiskSampleRanges | predictor.py:186-209 | a LOW sample has label 0, alert 0, the fixed thresholds, and each field within its draw's range |
| Predictor.ModerateRiskSampleRanges | predictor.py:215-240 | a MODERATE sample has label 1, alert in {0, 1, 2}, and the field ranges |
| Predictor.HighRiskSampleRanges | predictor.py:246-271 | a HIGH sample has label 2, alert in {2, 3}, and the field ranges |
| Predictor.LowRiskSample | predictor.py:186-209 | a LOW sample; facts in LowRiskSampleRanges and LowRiskSamplesAgreeWithRules |
| Predictor.ModerateRiskSample | predictor.py:215-240 | a MODERATE sample; facts in ModerateRiskSampleRanges and SyntheticTrendFlagsMayBothBeSet |
| Predictor.HighRiskSample | predictor.py:246-271 | a HIGH sample; facts in HighRiskSampleRanges and HighRiskSamplesAgreeWithRules |
| Predictor.LowRiskSamplesAgreeWithRules | predictor.py:186-209 | a LOW sample is LOW under the advanced rules too, and its alert class matches its level |
| Predictor.HighRiskSamplesAgreeWithRules | predictor.py:246-271 | a HIGH sample is HIGH under the advanced rules unless its 1-hour rain is exactly 15 mm |
| Predictor.SyntheticTrendFlagsMayBothBeSet | predictor.py:237-238 | a synthetic sample can be both rising and falling |
| Predictor.LowRiskSamples | predictor.py:185-210 | sample i is built from draw i, in order |
| Predictor.ModerateRiskSamples | predictor.py:214-241 | sample i is built from draw i, in order |
| Predictor.HighRiskSamples | predictor.py:245-272 | sample i is built from draw i, in order |
| Predictor.GenerateAdvancedTrainingData | predictor.py:168-279 | 150 rows: 60 LOW, then 50 MODERATE, then 40 HIGH, centred on the real averages; the rows are the corpus for those averages and draws |
| Predictor.AdvancedCorpusLabels | predictor.py:181-272 | the corpus is labelled 0 for its first 60 rows, 1 for the next 50 and 2 for the last 40 |
| Predictor.AdvancedCorpus | predictor.py:181-276 | the 150-row corpus; GenerateAdvancedTrainingData computes it and AdvancedCorpusLabels states its labels |
| Predictor.CorpusConcat | predictor.py:181-276 | the three loops' outputs, concatenated, line up with the 150 draws at offsets 0, 60 and 110 |
| Predictor.CorpusLabelsAndThresholds | predictor.py:181-272 | labels 0/1/2 by position, the same thresholds throughout, and each block's alert classes |
| Predictor.ChooseConfig | predictor.py:349-417 | advanced iff water level and 3-level label are present: 12 features, 150/10/3/1; else 6 features, 100/8/5/2; the target is never a feature |
| Predictor.TrainingUsesTheWrittenLabel | predictor.py:349-358 | after labelling, training targets the column just written, in the same mode |
| Predictor.ChooseSplit | predictor.py:385-397 | an 80/20 split iff more than 80 rows and more than one class, stratified unless stratification raises |
| Predictor.CoerceNumeric | predictor.py:366-369 | numbers kept, unparseable or missing cells become 0 |
| Predictor.Arity | predictor.py:342-452 | the too-few-rows result is the only 2-tuple |
| Predictor.TrainingPlan | predictor.py:366-397 | X holds the mode's features and y the target label of every row |
| Predictor.Label | predictor.py:371 | `df[target].astype(int)` for one row; TrainingPlan builds y from it |
| Predictor.TrainingColumnsPresent | predictor.py:370-371 | the feature and target columns exist, as `df[features]` and `df[target]` require |
| Predictor.TrainModel | predictor.py:340-452 | too few rows iff under 10; failure iff the fit raises; otherwise the fitted model with its features and mode |
| Predictor.PyIndex | predictor.py:473 | Python list indexing, counting negative indices from the end and failing outside |
| Predictor.MaxOf | predictor.py:476 | the maximum is an element, and no element exceeds it |
| Predictor.ProbabilityMap | predictor.py:480-485 | LOW/MODERATE/HIGH map to the class probabilities, 0 past the end |
| Predictor.FeatureVector | predictor.py:461-465 | the input's values in feature order; None iff a feature is missing |
| Predictor.Interpret | predictor.py:467-493 | the confidence is the largest probability; the advanced level and colour come from the predicted index; the basic flood probability is p[1], or 1 - p[0] |
| Predictor.Interpretable | predictor.py:467-493 | the output has probabilities, and in advanced mode an index into the three labels; PredictFloodRisk gives None otherwise |
| Predictor.PredictFloodRisk | predictor.py:454-499 | None without a model; a result iff the features are present and the output can be read, and then it is that output's interpretation |
| Predictor.ProbabilityBand | predictor.py:507-517 | the band counts the thresholds 0.2/0.4/0.6/0.8 reached |
| Predictor.RiskLevelText | predictor.py:501-517 | advanced values pass through with `auto`; a probability gets its band's text and colour |
| Predictor.ProbabilityBandMonotone | predictor.py:507-517 | a higher probability never gets a lower band |
| Predictor.StoredRiskOf | predictor.py:528-564 | advanced: the level and its probability, failing iff the key is missing; basic: HIGH iff > 0.6, MODERATE iff in (0.4, 0.6], else LOW |
| Predictor.AdvancedRecommendations | predictor.py:529-549 | the advice stored with an advanced HIGH, MODERATE or LOW level; StoredRiskOf returns it |
| Predictor.PredictionsAreStorable | predictor.py:551 | every prediction can be stored; an advanced one stores its own class's probability |
| Predictor.TextAndStoredLevelDisagreeAtPointSix | predictor.py:512-558 | at probability 0.6 the text says CAO while the stored level is MODERATE |
| FloodPredictionGui.CalculateAlertLevel | flood_prediction_gui.py:706-715 | the ladder with thresholds 180/220/270, each class exactly in its band |
| FloodPredictionGui.CalculateAlertLevelMonotone | flood_prediction_gui.py:706-715 | a higher water level never gets a lower class |
| FloodPredictionGui.WeatherInput | flood_prediction_gui.py:665-672 | the six weather keys; the 3-hour rain is 2.5 × the 1-hour rain |
| FloodPredictionGui.RiverInput | flood_prediction_gui.py:676-691 | the eleven river keys against normal 150 and alerts 180/220/270; the trend flags are never both set |
| FloodPredictionGui.AssembledInput | flood_prediction_gui.py:665-691 | the keys are the weather keys, plus the river keys in advanced mode |
| FloodPredictionGui.AssembledKeepsWeather | flood_prediction_gui.py:665-691 | every weather entry of the assembled map is the weather part's |
| FloodPredictionGui.AssembledKeepsRiver | flood_prediction_gui.py:679-691 | every river entry of the advanced map is the river part's |
| FloodPredictionGui.AssembledInputValues | flood_prediction_gui.py:679-691 | the river update overwrites no weather value |
| FloodPredictionGui.FormSuppliesFeatures | flood_prediction_gui.py:665-694 | the form supplies every feature of the mode it is assembled for |
| FloodPredictionGui.BasicBand | flood_prediction_gui.py:783-791 | THẤP below 0.3, TRUNG BÌNH below 0.7, else CAO |
| FloodPredictionGui.BasicAdvice | flood_prediction_gui.py:826-841 | high advice iff > 0.7, medium iff in (0.4, 0.7], else low |
| FloodPredictionGui.AdviceNeverAboveBand | flood_prediction_gui.py:783-841 | the advice is never more urgent than the band, and strictly less at 0.35 and at 0.7 |
| FloodPredictionGui.BasicSampleRanges | flood_prediction_gui.py:934-945 | each basic synthetic field lies within its draw's range; the label is 0 or 1 |
| FloodPredictionGui.BasicSample | flood_prediction_gui.py:934-945 | one basic synthetic row; facts in BasicSampleRanges and BasicSyntheticLabelsIgnoreRules |
| FloodPredictionGui.BasicSyntheticLabelsIgnoreRules | flood_prediction_gui.py:944 | a basic synthetic row can be labelled 1 while no rule holds |
| FloodPredictionGui.BasicSyntheticData | flood_prediction_gui.py:931-948 | 100 rows, row i built from draw i |
| FloodPredictionGui.BasicCorpus | flood_prediction_gui.py:931-948 | the 100 basic rows in order; BasicSyntheticData computes it and BasicFrameLabels states its labels |
| FloodPredictionGui.AdvancedTrainingFrame | flood_prediction_gui.py:914-921 | every combined row with its 0-2 label, in order, then the 150-row corpus centred on the combined rows' averages; the advanced columns |
| FloodPredictionGui.BasicTrainingFrame | flood_prediction_gui.py:922-954 | every weather row (if any) with its 0/1 label, in order, then the 100 basic rows built from the draws; the 0/1 label and the basic inputs are present, the water level is not |
| FloodPredictionGui.TrainingFrame | flood_prediction_gui.py:912-954 | advanced iff the join returned rows that all decode; the rows are those of the chosen mode's frame; the columns each mode trains on |
| FloodPredictionGui.TrainingRows | flood_prediction_gui.py:912-954 | the rows each mode trains on; TrainingFrame computes them and TrainingLabelsInScale states their labels |
| FloodPredictionGui.AdvancedFrameLabels | flood_prediction_gui.py:914-921 | the advanced frame has 150 more rows than the join, every label is 0-2, and the corpus rows are labelled 0, 1, 2 in blocks of 60, 50, 40 |
| FloodPredictionGui.BasicFrameLabels | flood_prediction_gui.py:922-954 | every label of the basic frame is 0 or 1 |
| FloodPredictionGui.TrainingLabelsInScale | flood_prediction_gui.py:912-954 | every training row carries a label of its mode's scale: 0-2 in advanced mode, 0/1 in basic mode |
| FloodPredictionGui.CombineTables | flood_prediction_gui.py:950-954 | real rows followed by synthetic rows, or the synthetic frame alone |
| FloodPredictionGui.UnpackTrainResult | flood_prediction_gui.py:957-962 | a model iff training succeeded; a 2-tuple falls back to the locally chosen mode |
| FloodPredictionGui.Controller.constructor | flood_prediction_gui.py:32-34 | no model, no features, basic mode |
| FloodPredictionGui.Controller.OnTrainingComplete | flood_prediction_gui.py:975-991 | the three fields are set together; the status reports success iff there is a model |
| FloodPredictionGui.Controller.AssembleInput | flood_prediction_gui.py:665-691 | the in-place dict update builds the specified input map |
| FloodPredictionGui.Controller.PerformPrediction | flood_prediction_gui.py:657-704 | a warning without a model; otherwise the prediction is displayed, or an error when it fails |
| FloodPredictionGui.Controller.TrainedModelGetsItsFeatures | flood_prediction_gui.py:659-694 | a model trained through the window never misses a feature of the form's input |
| FloodPredictionGui.Controller.TrainPredictionModel | flood_prediction_gui.py:907-973 | the frame is the chosen mode's frame and the model is exactly what the fit returns on it; the state stays valid and the status matches the model; without a model there are no features and the mode is basic; a trained model is advanced iff the join returned rows that all decode |
| Visualizer.FirstTruthy | visualizer.py:23-24 | the first key holding a non-empty list gives the result; empty iff no key does |
| Visualizer.Truthy | visualizer.py:23-24 | a present, non-empty list, as `or` tests it; facts in FirstTruthy |
| Visualizer.ExtractSeries | visualizer.py:15-25 | invalid JSON gives two empty lists; otherwise the timestamp and value chains of the decoded object |
| Visualizer.ExtractSeriesFallbacks | visualizer.py:23-24 | ts, then timestamps; precip-surface, then precip, then precipitation; an empty list falls through |
| Visualizer.RainMm | visualizer.py:37 | a null value becomes 0.0 |
| Visualizer.RowRecords | visualizer.py:30-37 | one record per zipped pair: min(len(ts), len(vals)) records carrying the row's location |
| Visualizer.AllRecords | visualizer.py:29-37 | every row's records in row order; facts in AllRecordsCount, RecordsComeFromRows and BuildDataframe |
| Visualizer.AllRecordsCount | visualizer.py:29-37 | the record count is the sum over rows of the shorter series' length |
| Visualizer.RecordsComeFromRows | visualizer.py:29-37 | every record carries the location name of some input row |
| Visualizer.AppendRowRecords | visualizer.py:31-37 | the inner loop appends exactly one row's records |
| Visualizer.BuildDataframe | visualizer.py:27-41 | all rows' records in order, with columns location/time/rain_mm even when there is none |

## Left out

- Database, network and file I/O are not modelled: SQL queries, connections, `fetch_windy_data`, `save_*`, `check_duplicate_*` and the `.env` handling. Rows read from the database are parameters.
- The tkinter widgets, message boxes, charts, reports and exports are not modelled. The window's outcomes are returned as values.
- Threads, `root.after`, subprocesses and `time.sleep` are not modelled. `TrainPredictionModel` runs the background work and then the completion callback in sequence.
- `datetime.now()` becomes the `Clock` parameter and `now` strings.
- `math.sin` is not computed: the sine's value is a clock field in [-1, 1].
- `level_ratio ** 1.8` is the function parameter `pow18`.
- Random distributions are not modelled, only the values they can produce. Exponential draws are a non-negative parameter.
- The random forest's fit, prediction and probabilities are an opaque classifier. Accuracy, the classification report and feature importances are not modelled. An exception among them is part of the fit failing.
- Floating point is modelled as exact reals. `round(x, 2)` on the simulator's output is not modelled.
- JSON decoding is a parameter: a payload carries its decoded object, or None when it is not valid JSON.
- Python's dynamic typing is not modelled, except for the stored river level (see Findings). Fields are numbers or lists of numbers. `float(...)` on a non-number, `.get` on a decoded value that is not an object, and `sum` over non-numbers would raise in the code; the model's typed fields do not represent such values.
- `Predictor.CoerceNumeric`: the training rows are typed, so on them the coercion is the identity and `TrainingPlan` reads the numbers directly; the coercion is modelled on its own over cells that may be unparseable or missing.
- The per-station loop of the crawler's `main` and its `except` that prints and skips a failing station are not modelled; `SimulateRiverLevelAsWritten` returns None where that `except` would catch.
- `pd.to_datetime` in `build_dataframe` is not modelled. A record's `time` is the raw timestamp.
- The advanced model's result text and risk display in the window are not modelled.
- The synthetic names (`Low_Risk_{i}` and the like) are built with a decimal rendering. `created_at` is the `now` parameter.
- `avg_water_level` is computed by the generator but never used, and is not modelled.
- `Draws.Choose`: states only that the result is one of the values, not the probability of each.
- `Predictor.TrainModel`: the fit parameter receives the whole X/y plan with its split decision. Which rows `train_test_split` puts in each part is not modelled.
- `FloodPredictionGui.Controller.TrainPredictionModel`: a load or labelling step that raises in the background thread (reporting through `on_training_error`) is not modelled. Weather JSON that fails to decode is modelled and makes the combined path fall back to weather-only data.

## Findings

| source | as written | input that shows it | evidently intended | confidence | as-written member | corrected member |
|---|---|---|---|---|---|---|
| river_level_crawler.py:433 | `new_level = prev_level + total_change`, where `prev_level` is the `Decimal` read from the DECIMAL(6,2) `water_level` column by a default cursor (river_level_crawler.py:352-374) and `total_change` is a float | any station with a stored reading: `Decimal + float` raises TypeError, and `main` skips the station, so after the first run no station is simulated again | `float(prev_level) + total_change`, as `predictor.py:89` converts the stored level | not executed; high | RiverLevelCrawler.SimulateRiverLevelAsWritten | RiverLevelCrawler.SimulateRiverLevel |
