/**
 * The map view: one coloured marker per report, the selection a marker click makes, and
 * the weather layer added once the (mocked) weather record has arrived.
 */
module MapView {
  import opened Wrappers
  import opened Reports

  /** The marker colour by severity: red, amber, green, and grey for any other string. */
  function MarkerColor(severity: string): (color: string)
    ensures color == "#ef4444" <==> severity == "High"
    ensures color == "#f59e0b" <==> severity == "Medium"
    ensures color == "#10b981" <==> severity == "Low"
    ensures color == "#6b7280" <==> severity != "High" && severity != "Medium" && severity != "Low"
  {
    match severity
    case "High" => "#ef4444"
    case "Medium" => "#f59e0b"
    case "Low" => "#10b981"
    case _ => "#6b7280"
  }

  /** The colour function is total and takes exactly four values; lower-case "high" is grey. */
  lemma MarkerColorRange(severity: string)
    ensures MarkerColor(severity) in {"#ef4444", "#f59e0b", "#10b981", "#6b7280"}
    ensures MarkerColor("high") == "#6b7280"
  {
  }

  /** A map marker: its React key, its position, its icon colour and the report a click selects. */
  datatype Marker = Marker(key: int, lat: real, lng: real, color: string, report: Report)

  function MarkerFor(r: Report): Marker {
    Marker(r.id, r.lat, r.lng, MarkerColor(r.severity), r)
  }

  /** `reports.map(report => <Marker ...>)`. */
  function Markers(reports: seq<Report>): (markers: seq<Marker>)
    ensures |markers| == |reports|
    ensures forall i :: 0 <= i < |reports| ==> markers[i].report == reports[i]
    decreases |reports|
  {
    if reports == [] then []
    else
      var rest := Markers(reports[1..]);
      assert forall i :: 0 < i < |reports| ==> reports[i] == reports[1..][i - 1];
      [MarkerFor(reports[0])] + rest
  }

  /** One marker per report, in input order, at that report's position and coloured by its severity. */
  lemma {:induction false} MarkersPerReport(reports: seq<Report>)
    ensures |Markers(reports)| == |reports|
    ensures forall i :: 0 <= i < |reports| ==>
              var m := Markers(reports)[i];
              m.key == reports[i].id && m.lat == reports[i].lat && m.lng == reports[i].lng &&
              m.color == MarkerColor(reports[i].severity) && m.report == reports[i]
    decreases |reports|
  {
    if reports != [] {
      MarkersPerReport(reports[1..]);
      forall i | 0 < i < |reports|
        ensures Markers(reports)[i] == Markers(reports[1..])[i - 1]
      {
      }
    }
  }

  // ---------------------------------------------------------------- selection and weather

  datatype WeatherData = WeatherData(temp: real, description: string, humidity: real, windSpeed: real, precipitation: real)

  /** The record the mocked weather fetch always delivers. */
  const MockWeather := WeatherData(24.0, "Light rain", 78.0, 12.0, 15.0)

  /** The view's own state: the weather once fetched and the report last clicked. */
  datatype ViewState = ViewState(weather: Option<WeatherData>, selected: Option<Report>)

  const InitialState := ViewState(None, None)

  /** The mount effect: the weather becomes the mock record; the selection is untouched. */
  function WeatherArrives(st: ViewState): (st': ViewState)
    ensures st'.weather == Some(MockWeather) && st'.selected == st.selected
  {
    st.(weather := Some(MockWeather))
  }

  /** What a handler did: the new view state and the report handed to `onReportSelect`. */
  datatype Selection = Selection(state: ViewState, notified: Report)

  /** A click on a marker selects its report and passes the same report to the parent. */
  function ClickMarker(st: ViewState, m: Marker): (r: Selection)
    ensures r.state.selected == Some(m.report) && r.notified == m.report
    ensures r.state.weather == st.weather
  {
    Selection(st.(selected := Some(m.report)), m.report)
  }

  /** The popup's "View Details" button notifies the parent but does not change the selection. */
  function ViewDetails(st: ViewState, m: Marker): (r: Selection)
    ensures r.state == st && r.notified == m.report
  {
    Selection(st, m.report)
  }

  /** Clicking the marker drawn for the i-th report selects and reports exactly that report. */
  lemma ClickSelectsItsReport(st: ViewState, reports: seq<Report>, i: int)
    requires 0 <= i < |reports|
    ensures |Markers(reports)| == |reports|
    ensures ClickMarker(st, Markers(reports)[i]).state.selected == Some(reports[i])
    ensures ClickMarker(st, Markers(reports)[i]).notified == reports[i]
  {
    MarkersPerReport(reports);
  }

  /** A layer the weather overlay puts on the map. */
  datatype Overlay = RainRectangle(color: string)

  /**
   * The overlay effect: nothing at all without weather data; otherwise a layer group that
   * holds a blue rain rectangle exactly when precipitation is positive.
   */
  function WeatherLayer(weather: Option<WeatherData>): (layer: Option<seq<Overlay>>)
    ensures layer.None? <==> weather.None?
    ensures layer.Some? ==> |layer.value| <= 1
    ensures layer.Some? ==> (layer.value != [] <==> weather.value.precipitation > 0.0)
  {
    match weather
    case None => None
    case Some(w) => Some(if w.precipitation > 0.0 then [RainRectangle("#3b82f6")] else [])
  }

  /** A rain overlay is on the map iff weather data is present and precipitation is positive. */
  predicate RainShown(weather: Option<WeatherData>) {
    var layer := WeatherLayer(weather);
    layer.Some? && layer.value != []
  }

  lemma RainShownIff(weather: Option<WeatherData>)
    ensures RainShown(weather) <==> weather.Some? && weather.value.precipitation > 0.0
  {
  }

  /** Before the fetch there is no overlay; once the mock record (15% precipitation) is in, rain is drawn. */
  lemma MockWeatherShowsRain()
    ensures !RainShown(InitialState.weather)
    ensures RainShown(WeatherArrives(InitialState).weather)
  {
  }
}
