/**
 * What the dashboard renders for a given selected metric and the state of its two
 * history fetches: the error panel, or the page with its title, metric buttons, the
 * 24-hour and 7-day charts and the "Last updated" footer.
 */
module View {
  import opened JsValues
  import opened Catalog
  import opened ChartData

  /** A failed fetch, carrying the error's message. */
  datatype FetchError = FetchError(message: string)

  /** The state of one polled series: its data, its error, whether it is loading. */
  datatype FetchState = FetchState(data: Option<seq<Sample>>, error: Option<FetchError>, isLoading: bool)

  /** One end of an axis domain: a constant, or the data's minimum or maximum. */
  datatype Bound = Fixed(x: real) | DataMin | DataMax

  datatype YDomain = YDomain(lower: Bound, upper: Bound)

  /** A chart panel: the loading spinner, or a chart with its points, Y domain and tooltip label. */
  datatype Panel = Spinner | Chart(points: seq<Point>, yDomain: YDomain, tooltipLabel: string)

  /** A metric selector button; `active` is the highlighted style. */
  datatype Button = Button(key: string, caption: string, active: bool)

  datatype Page = Page(
    title: string,
    description: string,
    buttons: seq<Button>,
    history24: Panel,
    history7: Panel,
    lastUpdated: Option<string>)

  /**
   * The rendered view. `LookupFailed` is the TypeError thrown by reading `.display`
   * of `metrics[selectedMetric]` when the selection is not a catalog key.
   */
  datatype View = ErrorPanel(message: Option<string>) | Dashboard(page: Page) | LookupFailed

  /** The CO2 floor of the Y axis: the outdoor ambient baseline in ppm. */
  const Co2Floor: real := 375.0

  /** The Y-axis domain handed to both charts. */
  function YAxisDomain(metric: string): (d: YDomain)
    ensures d.upper == DataMax
    ensures d.lower == Fixed(Co2Floor) <==> metric == Co2Key
    ensures metric != Co2Key ==> d.lower == DataMin
  {
    if metric == Co2Key then YDomain(Fixed(Co2Floor), DataMax) else YDomain(DataMin, DataMax)
  }

  /** `e?.message`: the error's message, `undefined` when there is no error. */
  function MessageOf(e: Option<FetchError>): (m: Option<string>)
    ensures m.Some? <==> e.Some?
    ensures e.Some? ==> m.value == e.value.message
  {
    match e
    case None => None
    case Some(err) => Some(err.message)
  }

  /** `error?.message || error7Days?.message`. */
  function ErrorMessage(e24: Option<FetchError>, e7: Option<FetchError>): (m: Option<string>)
    ensures e24.Some? && e24.value.message != "" ==> m == Some(e24.value.message)
    ensures !(e24.Some? && e24.value.message != "") ==>
      m == (if e7.Some? then Some(e7.value.message) else None)
    ensures (e24.Some? || e7.Some?) && m.None? ==> e7.None? && e24.value.message == ""
  {
    Or(MessageOf(e24), MessageOf(e7))
  }

  /** `data && data.length > 0`. */
  predicate HasSamples(data: Option<seq<Sample>>) {
    data.Some? && |data.value| > 0
  }

  /** The timestamp the footer formats, with `now` for `new Date().toISOString()`. */
  function FooterTime(d24: Option<seq<Sample>>, d7: Option<seq<Sample>>, now: string): string {
    if HasSamples(d24) then d24.value[|d24.value| - 1].measureTime
    else if HasSamples(d7) then d7.value[|d7.value| - 1].measureTime
    else now
  }

  /**
   * The "Last updated" footer: present exactly when one series has samples; it shows
   * the last sample of the 24-hour series, else the last sample of the 7-day series.
   */
  function LastUpdated(d24: Option<seq<Sample>>, d7: Option<seq<Sample>>, now: string): (r: Option<string>)
    ensures r.Some? <==> HasSamples(d24) || HasSamples(d7)
    ensures HasSamples(d24) ==> r == Some(d24.value[|d24.value| - 1].measureTime)
    ensures !HasSamples(d24) && HasSamples(d7) ==> r == Some(d7.value[|d7.value| - 1].measureTime)
  {
    if HasSamples(d24) || HasSamples(d7) then Some(FooterTime(d24, d7, now)) else None
  }

  /** The selector: one button per catalog entry, in catalog order. */
  function Buttons(metric: string): (bs: seq<Button>)
    ensures |bs| == |Metrics|
    ensures forall i :: 0 <= i < |bs| ==> bs[i].key == Metrics[i].key && bs[i].caption == Metrics[i].display
    ensures forall i :: 0 <= i < |bs| ==> (bs[i].active <==> bs[i].key == metric)
  {
    seq(|Metrics|, i requires 0 <= i < |Metrics| => Button(Metrics[i].key, Metrics[i].display, Metrics[i].key == metric))
  }

  /** A chart panel of one series: the spinner while loading, else its points. */
  function ChartPanel(s: FetchState, metric: string, caption: string, parse: string -> int): (p: Panel)
    ensures p.Spinner? <==> s.isLoading
    ensures p.Chart? ==>
      && p.points == Series(s.data, metric, parse)
      && |p.points| == (if s.data.Some? then |s.data.value| else 0)
      && p.yDomain == YAxisDomain(metric)
      && p.tooltipLabel == caption
  {
    if s.isLoading then Spinner else Chart(Series(s.data, metric, parse), YAxisDomain(metric), caption)
  }

  /**
   * The whole component for one render. Either fetch failing replaces the whole view
   * by the error panel, whose message prefers the 24-hour error's; otherwise the
   * catalog lookups fail exactly when the selection is not a catalog key, and the
   * page shows the selected entry's display label and description.
   */
  function Render(metric: string, s24: FetchState, s7: FetchState, parse: string -> int, now: string): (v: View)
    ensures v.ErrorPanel? <==> s24.error.Some? || s7.error.Some?
    ensures v.ErrorPanel? ==> v.message == ErrorMessage(s24.error, s7.error)
    ensures v.LookupFailed? <==> s24.error.None? && s7.error.None? && !IsKey(metric)
    ensures v.Dashboard? ==> Lookup(metric) == Some(Metric(metric, v.page.title, v.page.description))
  {
    if s24.error.Some? || s7.error.Some? then
      ErrorPanel(ErrorMessage(s24.error, s7.error))
    else
      match Lookup(metric)
      case None => LookupFailed
      case Some(entry) =>
        Dashboard(Page(
          entry.display,
          entry.description,
          Buttons(metric),
          ChartPanel(s24, metric, entry.display, parse),
          ChartPanel(s7, metric, entry.display, parse),
          LastUpdated(s24.data, s7.data, now)))
  }

  /** The `new Date()` fallback never shows: the footer does not depend on `now`. */
  lemma FallbackUnreachable(d24: Option<seq<Sample>>, d7: Option<seq<Sample>>, now1: string, now2: string)
    ensures LastUpdated(d24, d7, now1) == LastUpdated(d24, d7, now2)
  {
  }

  /** Exactly the button of the selected metric is highlighted, when it is a catalog key. */
  lemma OneActiveButton(metric: string)
    ensures IsKey(metric) ==> exists i :: 0 <= i < |Metrics| && Buttons(metric)[i].active
    ensures forall i, j :: 0 <= i < |Metrics| && 0 <= j < |Metrics| && Buttons(metric)[i].active && Buttons(metric)[j].active ==> i == j
    ensures forall i :: 0 <= i < |Metrics| && Buttons(metric)[i].active ==> Metrics[i].key == metric
  {
    KeysDistinct();
    if IsKey(metric) {
      var i :| 0 <= i < |Metrics| && Metrics[i].key == metric;
      assert Buttons(metric)[i].active;
    }
  }

  /**
   * A page without errors: the selector buttons, the two charts with identical
   * transform and Y domain, the spinner exactly while loading, and the footer chosen
   * from both series.
   */
  lemma PageCharts(metric: string, s24: FetchState, s7: FetchState, parse: string -> int, now: string)
    requires s24.error.None? && s7.error.None? && IsKey(metric)
    ensures Render(metric, s24, s7, parse, now).Dashboard?
    ensures var p := Render(metric, s24, s7, parse, now).page;
      && p.buttons == Buttons(metric)
      && (p.history24.Spinner? <==> s24.isLoading)
      && (p.history7.Spinner? <==> s7.isLoading)
      && (p.history24.Chart? ==>
            && p.history24.points == Series(s24.data, metric, parse)
            && p.history24.yDomain == YAxisDomain(metric)
            && p.history24.tooltipLabel == p.title)
      && (p.history7.Chart? ==>
            && p.history7.points == Series(s7.data, metric, parse)
            && p.history7.yDomain == YAxisDomain(metric)
            && p.history7.tooltipLabel == p.title)
      && p.lastUpdated == LastUpdated(s24.data, s7.data, now)
  {
  }

  /** The footer prefers the 24-hour series whether the 7-day one ends earlier or later. */
  lemma FooterPrefers24Hours()
    ensures LastUpdated(Some([Sample("2024-01-01T10:00:00Z", map[])]),
                        Some([Sample("2024-01-01T09:00:00Z", map[])]), "now")
            == Some("2024-01-01T10:00:00Z")
    ensures LastUpdated(Some([Sample("2024-01-01T10:00:00Z", map[])]),
                        Some([Sample("2024-01-01T11:00:00Z", map[])]), "now")
            == Some("2024-01-01T10:00:00Z")
    ensures LastUpdated(Some([]), None, "now") == None
  {
  }

  /** The footer shows the last sample, not the latest one, when samples arrive out of order. */
  lemma FooterShowsLastNotLatest()
    ensures LastUpdated(Some([Sample("2024-01-01T10:00:00Z", map[]), Sample("2024-01-01T09:00:00Z", map[])]),
                        None, "now")
            == Some("2024-01-01T09:00:00Z")
  {
  }
}
