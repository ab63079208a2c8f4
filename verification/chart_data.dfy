/**
 * The sample-to-chart-point transform (`chartData` and `chartData7Days` in app/page.js).
 * A point is a JavaScript object, modelled as a map from field name to value; the
 * spread of `measure_data` that ends the object literal is map union, whose right
 * operand wins on shared keys.
 */
module ChartData {
  import opened JsValues
  import Catalog

  /** One sensor reading as returned by the history API. */
  datatype Sample = Sample(measureTime: string, measureData: map<string, real>)

  /** A chart-ready point: field name to value. */
  type Point = map<string, JsValue>

  /** The three fields the transform computes before spreading the raw readings. */
  const ComputedKeys: set<string> := {"time", "fullTime", "value"}

  /** Celsius to Fahrenheit, `c * 9/5 + 32`, over exact reals. */
  function ToFahrenheit(c: real): (f: real)
    ensures (f - 32.0) * 5.0 / 9.0 == c
  {
    c * 9.0 / 5.0 + 32.0
  }

  /** The `value` field before the spread: the selected reading, converted for `atmp`. */
  function SelectedValue(data: map<string, real>, metric: string): (v: JsValue)
    ensures v.Num? <==> metric in data
    ensures metric in data && metric == Catalog.TemperatureKey ==> (v.n - 32.0) * 5.0 / 9.0 == data[metric]
    ensures metric in data && metric != Catalog.TemperatureKey ==> v.n == data[metric]
    ensures metric !in data ==> (v == NaN <==> metric == Catalog.TemperatureKey)
  {
    if metric == Catalog.TemperatureKey then
      // undefined * 9/5 + 32 is NaN
      if metric in data then Num(ToFahrenheit(data[metric])) else NaN
    else
      if metric in data then Num(data[metric]) else Undefined
  }

  /** Every raw reading as a number field, as the spread `...item.measure_data` copies it. */
  function RawFields(data: map<string, real>): (r: Point)
    ensures r.Keys == data.Keys
    ensures forall k :: k in data ==> r[k] == Num(data[k])
  {
    map k | k in data :: Num(data[k])
  }

  /** The point built from one sample; `parse` stands for `parseISO(...).getTime()`. */
  function ToPoint(s: Sample, metric: string, parse: string -> int): (p: Point)
    ensures p.Keys == ComputedKeys + s.measureData.Keys
    ensures forall k :: k in s.measureData ==> p[k] == Num(s.measureData[k])
    ensures "time" !in s.measureData ==> p["time"] == Num(parse(s.measureTime) as real)
    ensures "fullTime" !in s.measureData ==> p["fullTime"] == Str(s.measureTime)
    ensures "value" !in s.measureData ==> p["value"] == SelectedValue(s.measureData, metric)
  {
    map["time" := Num(parse(s.measureTime) as real),
        "fullTime" := Str(s.measureTime),
        "value" := SelectedValue(s.measureData, metric)]
    + RawFields(s.measureData)
  }

  /** `samples.map(...)`: one point per sample, in the same order. */
  function MapPoints(samples: seq<Sample>, metric: string, parse: string -> int): (r: seq<Point>)
    ensures |r| == |samples|
    ensures forall i :: 0 <= i < |samples| ==> r[i] == ToPoint(samples[i], metric, parse)
  {
    if samples == [] then []
    else [ToPoint(samples[0], metric, parse)] + MapPoints(samples[1..], metric, parse)
  }

  /** `data?.map(...) || []`: an absent series yields no points. */
  function Series(data: Option<seq<Sample>>, metric: string, parse: string -> int): (r: seq<Point>)
    ensures data.None? ==> r == []
    ensures data.Some? ==> |r| == |data.value|
    ensures data.Some? ==> forall i :: 0 <= i < |r| ==> r[i] == ToPoint(data.value[i], metric, parse)
  {
    match data
    case None => []
    case Some(samples) => MapPoints(samples, metric, parse)
  }

  /** The transform distributes over concatenation: it keeps the order of the samples. */
  lemma {:induction false} MapPointsAppend(a: seq<Sample>, b: seq<Sample>, metric: string, parse: string -> int)
    ensures MapPoints(a + b, metric, parse) == MapPoints(a, metric, parse) + MapPoints(b, metric, parse)
  {
    if a == [] {
      assert a + b == b;
    } else {
      assert (a + b)[1..] == a[1..] + b;
      MapPointsAppend(a[1..], b, metric, parse);
    }
  }

  /** An empty series yields no points, just as an absent one does. */
  lemma EmptySeries(metric: string, parse: string -> int)
    ensures Series(Some([]), metric, parse) == []
    ensures Series(None, metric, parse) == []
  {
  }

  /**
   * The `value` of the `i`th point, unless a raw reading named `value` overrides it:
   * for `atmp` the reading converted to Fahrenheit, for every other metric the raw
   * reading unchanged; `NaN` or `undefined` when the sample lacks the reading.
   */
  lemma PointValue(samples: seq<Sample>, metric: string, parse: string -> int, i: nat)
    requires i < |samples| && "value" !in samples[i].measureData
    ensures var data := samples[i].measureData;
      Series(Some(samples), metric, parse)[i]["value"] ==
        if metric == "atmp" then
          (if "atmp" in data then Num(data["atmp"] * 9.0 / 5.0 + 32.0) else NaN)
        else
          (if metric in data then Num(data[metric]) else Undefined)
  {
  }

  /**
   * The `time` and `fullTime` fields of a point: the parsed and the verbatim
   * `measure_time`, unless a raw reading of that name overrides them.
   */
  lemma PointTime(samples: seq<Sample>, metric: string, parse: string -> int, i: nat)
    requires i < |samples|
    ensures var p := Series(Some(samples), metric, parse)[i];
      var data := samples[i].measureData;
      && p["time"] == (if "time" in data then Num(data["time"]) else Num(parse(samples[i].measureTime) as real))
      && p["fullTime"] == (if "fullTime" in data then Num(data["fullTime"]) else Str(samples[i].measureTime))
  {
  }

  /** Selecting another metric changes no field of a point but `value`. */
  lemma PointChangesOnlyValue(s: Sample, m1: string, m2: string, parse: string -> int)
    ensures ToPoint(s, m1, parse).Keys == ToPoint(s, m2, parse).Keys
    ensures forall k :: k in ToPoint(s, m1, parse) && k != "value" ==>
      ToPoint(s, m1, parse)[k] == ToPoint(s, m2, parse)[k]
  {
  }

  /**
   * Selecting another metric changes neither the number of points, nor their fields,
   * nor their `time` and `fullTime`, nor any raw reading: only `value` may change.
   */
  lemma MetricChangesOnlyValue(data: Option<seq<Sample>>, m1: string, m2: string, parse: string -> int)
    ensures |Series(data, m1, parse)| == |Series(data, m2, parse)|
    ensures forall i :: 0 <= i < |Series(data, m1, parse)| ==>
      var p1 := Series(data, m1, parse)[i];
      var p2 := Series(data, m2, parse)[i];
      && p1.Keys == p2.Keys
      && forall k :: k in p1 && k != "value" ==> p1[k] == p2[k]
  {
    if data.Some? {
      forall i | 0 <= i < |data.value|
        ensures var p1 := Series(data, m1, parse)[i];
          var p2 := Series(data, m2, parse)[i];
          && p1.Keys == p2.Keys
          && forall k :: k in p1 && k != "value" ==> p1[k] == p2[k]
      {
        PointChangesOnlyValue(data.value[i], m1, m2, parse);
      }
    }
  }
}
