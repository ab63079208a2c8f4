/** The fixed, ordered metric catalog of the dashboard (`metrics` in app/page.js). */
module Catalog {
  import opened JsValues

  /** One catalog entry: the key into a sample's `measure_data`, a label and a description. */
  datatype Metric = Metric(key: string, display: string, description: string)

  /** The catalog, in declaration order (the order of the selector buttons). */
  const Metrics: seq<Metric> := [
    Metric("rco2_corrected", "CO2 reading", "CO2 in parts per million"),
    Metric("atmp", "Ambient Temp. F", "The ambient temperature in Fahrenheit"),
    Metric("tvoc", "TVOC (raw)", "Total Volatile Organic Compounds in ppm (raw reading)"),
    Metric("tvocIndex", "TVOC Index", "Total Volatile Organic Compounds Index"),
    Metric("rhum_corrected", "Relative Humidity", "Relative Humidity"),
    Metric("pm02_corrected", "PM2.5", "Particulate Matter 2.5 ug / m3")
  ]

  /** The CO2 metric: the initial selection and the one whose Y axis has a floor. */
  const Co2Key: string := "rco2_corrected"

  /** The ambient temperature metric, reported in Celsius and shown in Fahrenheit. */
  const TemperatureKey: string := "atmp"

  /** True when `key` names an entry of the catalog. */
  predicate IsKey(key: string) {
    exists i :: 0 <= i < |Metrics| && Metrics[i].key == key
  }

  /** The first entry of `entries` whose key is `key`, or `None` (`undefined`). */
  function Find(entries: seq<Metric>, key: string): (r: Option<Metric>)
    ensures r.Some? <==> exists i :: 0 <= i < |entries| && entries[i].key == key
    ensures r.Some? ==> r.value in entries && r.value.key == key
  {
    if entries == [] then None
    else if entries[0].key == key then Some(entries[0])
    else
      var rest := Find(entries[1..], key);
      assert forall i :: 1 <= i < |entries| ==> entries[i] == entries[1..][i - 1];
      rest
  }

  /** `metrics[key]`: the catalog entry for `key`, `None` when there is none. */
  function Lookup(key: string): (r: Option<Metric>)
    ensures r.Some? <==> IsKey(key)
    ensures r.Some? ==> r.value.key == key && r.value in Metrics
  {
    Find(Metrics, key)
  }

  /** No two catalog entries share a key (the keys of an object literal are distinct). */
  lemma KeysDistinct()
    ensures forall i, j :: 0 <= i < j < |Metrics| ==> Metrics[i].key != Metrics[j].key
  {
  }

  /** Looking up the key of the `i`th entry yields that very entry. */
  lemma LookupEntry(i: nat)
    requires i < |Metrics|
    ensures Lookup(Metrics[i].key) == Some(Metrics[i])
  {
    KeysDistinct();
  }

  /** The initial selection is a catalog key. */
  lemma DefaultIsKey()
    ensures IsKey(Co2Key) && IsKey(TemperatureKey)
  {
    assert Metrics[0].key == Co2Key;
    assert Metrics[1].key == TemperatureKey;
  }
}
