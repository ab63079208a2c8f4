/**
 * The `Home` component's own state: the selected metric (`useState` in app/page.js),
 * changed only by the metric buttons.
 */
module Home {
  import opened JsValues
  import opened Catalog
  import opened ChartData
  import opened View

  class Dashboard {
    var selectedMetric: string

    /** The selection is always a catalog key. */
    ghost predicate Valid()
      reads this
    {
      IsKey(selectedMetric)
    }

    /** The first render: CO2 is selected. */
    constructor ()
      ensures Valid()
      ensures selectedMetric == Co2Key
    {
      selectedMetric := Co2Key;
      DefaultIsKey();
    }

    /** A click on the `button`th selector button selects that catalog entry's key. */
    method ClickMetric(button: nat)
      requires button < |Metrics|
      modifies this
      ensures Valid()
      ensures selectedMetric == Metrics[button].key
    {
      selectedMetric := Metrics[button].key;
    }

    /**
     * One render of the component given the two fetch states; the catalog lookups
     * never fail, so it shows the error panel or the page.
     */
    method Show(s24: FetchState, s7: FetchState, parse: string -> int, now: string) returns (v: View)
      requires Valid()
      ensures v.ErrorPanel? <==> s24.error.Some? || s7.error.Some?
      ensures v.Dashboard? <==> s24.error.None? && s7.error.None?
      ensures v.Dashboard? ==> Some(Metric(selectedMetric, v.page.title, v.page.description)) == Lookup(selectedMetric)
      ensures v == Render(selectedMetric, s24, s7, parse, now)
    {
      v := Render(selectedMetric, s24, s7, parse, now);
    }
  }

  /**
   * Selecting TVOC after the first render retitles the page "TVOC (raw)"; in both
   * charts the points keep their number, keys, `time` and `fullTime`, and their
   * `value` becomes the raw `tvoc` reading unless a raw `value` reading overrides it.
   */
  method SelectTvoc(s24: FetchState, s7: FetchState, parse: string -> int, now: string)
    requires s24.error.None? && s7.error.None?
  {
    var d := new Dashboard();
    var before := d.Show(s24, s7, parse, now);
    d.ClickMetric(2);
    var after := d.Show(s24, s7, parse, now);
    assert after.page.title == "TVOC (raw)" by {
      LookupEntry(2);
    }
    DefaultIsKey();
    PageCharts(Co2Key, s24, s7, parse, now);
    PageCharts("tvoc", s24, s7, parse, now);
    if !s24.isLoading {
      SwitchToTvoc(s24.data, parse, before.page.history24.points, after.page.history24.points);
    }
    if !s7.isLoading {
      SwitchToTvoc(s7.data, parse, before.page.history7.points, after.page.history7.points);
    }
  }

  /** What switching from CO2 to TVOC does to the points of one series. */
  lemma SwitchToTvoc(data: Option<seq<Sample>>, parse: string -> int, before: seq<Point>, after: seq<Point>)
    requires before == Series(data, Co2Key, parse) && after == Series(data, "tvoc", parse)
    ensures |after| == |before|
    ensures forall i :: 0 <= i < |after| ==> after[i].Keys == before[i].Keys
    ensures forall i :: 0 <= i < |after| ==> after[i]["time"] == before[i]["time"]
    ensures forall i :: 0 <= i < |after| ==> after[i]["fullTime"] == before[i]["fullTime"]
    ensures data.Some? ==> forall i ::
      (0 <= i < |after| && "tvoc" in data.value[i].measureData && "value" !in data.value[i].measureData) ==>
        after[i]["value"] == Num(data.value[i].measureData["tvoc"])
  {
    MetricChangesOnlyValue(data, Co2Key, "tvoc", parse);
    if data.Some? {
      forall i | 0 <= i < |after| && "tvoc" in data.value[i].measureData && "value" !in data.value[i].measureData
        ensures after[i]["value"] == Num(data.value[i].measureData["tvoc"])
      {
        PointValue(data.value, "tvoc", parse, i);
      }
    }
  }
}
