/**
 * The rainfall visualiser's data preparation: reading the time series out of
 * a stored precipitation payload and flattening the stored rows into one
 * record per (timestamp, value) pair.
 */
module Visualizer {
  import opened Wrappers

  /** A JSON field of the payload: a list of numbers (JSON null as None), or null. */
  datatype Field = List(items: seq<Option<real>>) | Null

  /** A decoded JSON object. */
  type JsonObject = map<string, Field>

  /**
   * The stored `precipitation` column: JSON text, whose decoding (None when
   * it is not valid JSON) is carried alongside, or an already parsed object.
   */
  datatype Payload = Text(decoded: Option<JsonObject>) | Parsed(obj: JsonObject)

  /** Python truthiness of `js.get(key)`: a present, non-empty list. */
  predicate Truthy(js: JsonObject, key: string)
  {
    key in js && js[key].List? && |js[key].items| > 0
  }

  /** `js.get(k1) or js.get(k2) or ... or []`: the first truthy field, else the empty list. */
  function FirstTruthy(js: JsonObject, keys: seq<string>): (r: seq<Option<real>>)
    ensures |r| > 0 <==> exists i :: 0 <= i < |keys| && Truthy(js, keys[i])
    ensures |r| > 0 ==> exists i :: 0 <= i < |keys| && Truthy(js, keys[i]) && r == js[keys[i]].items
                                    && forall j :: 0 <= j < i ==> !Truthy(js, keys[j])
    decreases |keys|
  {
    if |keys| == 0 then []
    else if Truthy(js, keys[0]) then js[keys[0]].items
    else
      var rest := FirstTruthy(js, keys[1..]);
      assert forall i :: 1 <= i < |keys| ==> keys[i] == keys[1..][i - 1];
      if |rest| > 0 then
        ghost var k :| 0 <= k < |keys[1..]| && Truthy(js, keys[1..][k]) && rest == js[keys[1..][k]].items
                       && forall j :: 0 <= j < k ==> !Truthy(js, keys[1..][j]);
        assert keys[1..][k] == keys[k + 1];
        rest
      else
        rest
  }

  const TimestampKeys: seq<string> := ["ts", "timestamps"]
  const ValueKeys: seq<string> := ["precip-surface", "precip", "precipitation"]

  /** The timestamps and values of a payload; invalid JSON text gives two empty lists. */
  datatype Series = Series(ts: seq<Option<real>>, vals: seq<Option<real>>)

  /** `extract_series` */
  function ExtractSeries(p: Payload): (s: Series)
    ensures p.Text? && p.decoded.None? ==> s == Series([], [])
    ensures p.Parsed? ==> s == Series(FirstTruthy(p.obj, TimestampKeys), FirstTruthy(p.obj, ValueKeys))
    ensures p.Text? && p.decoded.Some? ==>
              s == Series(FirstTruthy(p.decoded.value, TimestampKeys), FirstTruthy(p.decoded.value, ValueKeys))
  {
    match p
    case Text(None) => Series([], [])
    case Text(Some(js)) => Series(FirstTruthy(js, TimestampKeys), FirstTruthy(js, ValueKeys))
    case Parsed(js) => Series(FirstTruthy(js, TimestampKeys), FirstTruthy(js, ValueKeys))
  }

  /** The three fallback chains spelled out key by key. */
  lemma ExtractSeriesFallbacks(js: JsonObject)
    ensures var s := ExtractSeries(Parsed(js));
            && (Truthy(js, "ts") ==> s.ts == js["ts"].items)
            && (!Truthy(js, "ts") && Truthy(js, "timestamps") ==> s.ts == js["timestamps"].items)
            && (!Truthy(js, "ts") && !Truthy(js, "timestamps") ==> s.ts == [])
            && (Truthy(js, "precip-surface") ==> s.vals == js["precip-surface"].items)
            && (!Truthy(js, "precip-surface") && Truthy(js, "precip") ==> s.vals == js["precip"].items)
            && (!Truthy(js, "precip-surface") && !Truthy(js, "precip") && Truthy(js, "precipitation")
                ==> s.vals == js["precipitation"].items)
            && (!Truthy(js, "precip-surface") && !Truthy(js, "precip") && !Truthy(js, "precipitation")
                ==> s.vals == [])
  {
    var s := ExtractSeries(Parsed(js));
    if !Truthy(js, "ts") && Truthy(js, "timestamps") {
      assert TimestampKeys[1] == "timestamps";
    }
    if !Truthy(js, "precip-surface") {
      if Truthy(js, "precip") {
        assert ValueKeys[1] == "precip";
      } else if Truthy(js, "precipitation") {
        assert ValueKeys[2] == "precipitation";
      }
    }
  }

  /** A row read from the weather table. */
  datatype StoredRow = StoredRow(locationName: string, precipitation: Payload)

  /** One point of the plotted series; `time` is the raw timestamp. */
  datatype Record = Record(location: string, time: Option<real>, rainMm: real)

  /** `float(v) if v is not None else 0.0` */
  function RainMm(v: Option<real>): (mm: real)
    ensures v.Some? ==> mm == v.value
    ensures v.None? ==> mm == 0.0
  {
    v.GetOr(0.0)
  }

  function Min(a: nat, b: nat): nat { if a <= b then a else b }

  /** The records `zip(ts, vals)` yields for one row. */
  function RowRecords(r: StoredRow): (recs: seq<Record>)
    ensures var s := ExtractSeries(r.precipitation);
            && |recs| == Min(|s.ts|, |s.vals|)
            && forall i :: 0 <= i < |recs| ==>
                 recs[i] == Record(r.locationName, s.ts[i], RainMm(s.vals[i]))
  {
    var s := ExtractSeries(r.precipitation);
    seq(Min(|s.ts|, |s.vals|), i requires 0 <= i < Min(|s.ts|, |s.vals|) =>
      Record(r.locationName, s.ts[i], RainMm(s.vals[i])))
  }

  /** The records of all rows, row after row in input order. */
  function AllRecords(rows: seq<StoredRow>): seq<Record>
  {
    if |rows| == 0 then [] else AllRecords(rows[..|rows| - 1]) + RowRecords(rows[|rows| - 1])
  }

  /** Total number of records: the sum over rows of the shorter series' length. */
  function RecordCount(rows: seq<StoredRow>): nat
  {
    if |rows| == 0 then 0
    else
      var s := ExtractSeries(rows[|rows| - 1].precipitation);
      RecordCount(rows[..|rows| - 1]) + Min(|s.ts|, |s.vals|)
  }

  lemma {:induction false} AllRecordsCount(rows: seq<StoredRow>)
    ensures |AllRecords(rows)| == RecordCount(rows)
  {
    if |rows| > 0 {
      AllRecordsCount(rows[..|rows| - 1]);
    }
  }

  /** Every record carries the location name of a row it came from. */
  lemma {:induction false} RecordsComeFromRows(rows: seq<StoredRow>)
    ensures forall k :: 0 <= k < |AllRecords(rows)| ==>
              exists i :: 0 <= i < |rows| && AllRecords(rows)[k].location == rows[i].locationName
  {
    if |rows| > 0 {
      var init := rows[..|rows| - 1];
      RecordsComeFromRows(init);
      var prefix := AllRecords(init);
      var last := RowRecords(rows[|rows| - 1]);
      forall k | 0 <= k < |AllRecords(rows)|
        ensures exists i :: 0 <= i < |rows| && AllRecords(rows)[k].location == rows[i].locationName
      {
        if k < |prefix| {
          var i :| 0 <= i < |init| && prefix[k].location == init[i].locationName;
          assert rows[i] == init[i];
        } else {
          assert AllRecords(rows)[k] == last[k - |prefix|];
          assert AllRecords(rows)[k].location == rows[|rows| - 1].locationName;
        }
      }
    } else {
      assert AllRecords(rows) == [];
    }
  }

  /** The records of a row list followed by one more row. */
  lemma AllRecordsSnoc(rows: seq<StoredRow>, i: nat)
    requires i < |rows|
    ensures AllRecords(rows[..i + 1]) == AllRecords(rows[..i]) + RowRecords(rows[i])
  {
    assert rows[..i + 1][..i] == rows[..i];
  }

  /** The columns of the visualiser's table. */
  const RecordColumns: seq<string> := ["location", "time", "rain_mm"]

  /** The table `build_dataframe` returns. */
  datatype RecordTable = RecordTable(columns: seq<string>, records: seq<Record>)

  /** The inner loop of `build_dataframe`: one row's zipped pairs appended to `records`. */
  method AppendRowRecords(records: seq<Record>, r: StoredRow) returns (out: seq<Record>)
    ensures out == records + RowRecords(r)
  {
    var s := ExtractSeries(r.precipitation);
    var n := Min(|s.ts|, |s.vals|);
    ghost var expected := RowRecords(r);
    out := records;
    var j := 0;
    while j < n
      invariant 0 <= j <= n
      invariant out == records + expected[..j]
    {
      var rainMm := if s.vals[j].Some? then s.vals[j].value else 0.0;
      assert expected[j] == Record(r.locationName, s.ts[j], rainMm);
      assert expected[..j + 1] == expected[..j] + [expected[j]];
      out := out + [Record(r.locationName, s.ts[j], rainMm)];
      j := j + 1;
    }
    assert expected[..n] == expected;
  }

  /**
   * `build_dataframe`: every row's zipped (timestamp, value) pairs appended
   * in order; the columns are location, time and rain_mm whether or not
   * there is any record.
   */
  method BuildDataframe(rows: seq<StoredRow>) returns (df: RecordTable)
    ensures df.records == AllRecords(rows)
    ensures df.columns == RecordColumns
    ensures |df.records| == RecordCount(rows)
  {
    var records: seq<Record> := [];
    var i := 0;
    while i < |rows|
      invariant 0 <= i <= |rows|
      invariant records == AllRecords(rows[..i])
    {
      records := AppendRowRecords(records, rows[i]);
      AllRecordsSnoc(rows, i);
      i := i + 1;
    }
    assert rows[..|rows|] == rows;
    AllRecordsCount(rows);
    if |records| == 0 {
      df := RecordTable(RecordColumns, []);
    } else {
      df := RecordTable(RecordColumns, records);
    }
  }
}
