/** The chart controls of the dashboard (app.py:83-101): which chart is drawn,
    with which title, and what is reported when drawing fails. The figure
    itself is built and rendered by plotly, which is a parameter here. */
module Charts {
  import opened Wrappers
  import opened Requests
  import opened Tables

  datatype ChartKind = Line | Bar | Scatter

  /** The `chart_type` value that selects each kind. */
  function KindName(k: ChartKind): string {
    match k
    case Line => "line"
    case Bar => "bar"
    case Scatter => "scatter"
  }

  /** The `if`/`elif` chain on `chart_type` (app.py:93-98). */
  function ParseKind(chartType: string): (r: Option<ChartKind>)
    ensures r.Some? <==> chartType in {"line", "bar", "scatter"}
    ensures r.Some? ==> KindName(r.value) == chartType
  {
    if chartType == "line" then Some(Line)
    else if chartType == "bar" then Some(Bar)
    else if chartType == "scatter" then Some(Scatter)
    else None
  }

  /** Each kind is selected by its own name and by no other. */
  lemma KindNameRoundTrip(k: ChartKind, chartType: string)
    ensures ParseKind(KindName(k)) == Some(k)
    ensures ParseKind(chartType) == Some(k) <==> chartType == KindName(k)
  {
  }

  /** `chart_type` when the request does not give one (app.py:85). */
  const DefaultChartType: string := "line"

  /** `f'{y_col} vs {x_col}'`: the y column's name, then " vs ", then the x
      column's name; given the y name's length, both names can be read back. */
  function Title(x: string, y: string): (title: string)
    ensures |title| == |y| + 4 + |x|
    ensures title[..|y|] == y && title[|y|..|y| + 4] == " vs " && title[|y| + 4..] == x
  {
    y + " vs " + x
  }

  /** What is asked of plotly: `px.line`/`px.bar`/`px.scatter` over two columns. */
  datatype Figure = Figure(kind: ChartKind, x: string, y: string, title: string)

  /** plotly: build the figure and render it with `to_html`, or fail with the
      exception's message. */
  type Renderer = (Table, Figure) -> Result<string, string>

  /** The chart markup (`chart_div`) and the notices flashed while building it. */
  datatype Chart = Chart(html: string, notices: seq<string>)

  const ChartErrorPrefix: string := "Chart error: "

  /** The message of the `UnboundLocalError` raised at app.py:99 when no branch
      assigned `fig` (wording of Python 3.11 and later). */
  const UnboundFigure: string :=
    "cannot access local variable 'fig' where it is not associated with a value"

  /** The guard at app.py:91: both axes chosen and both are columns of the table. */
  function ChartRequested(t: Table, x: Option<string>, y: Option<string>): (ok: bool)
    ensures ok <==> x.Some? && x.value != "" && y.Some? && y.value != ""
                    && (exists i :: 0 <= i < |t.columns| && t.columns[i].name == x.value)
                    && (exists j :: 0 <= j < |t.columns| && t.columns[j].name == y.value)
  {
    var names := ColumnNames(t);
    assert x.Some? && x.value in names ==>
             exists i :: 0 <= i < |t.columns| && t.columns[i].name == x.value;
    assert y.Some? && y.value in names ==>
             exists j :: 0 <= j < |t.columns| && t.columns[j].name == y.value;
    Truthy(x) && Truthy(y) && x.value in names && y.value in names
  }

  /** app.py:90-101. */
  function BuildChart(t: Table, x: Option<string>, y: Option<string>, chartType: string,
                      render: Renderer): (c: Chart)
    ensures !ChartRequested(t, x, y) ==> c == Chart("", [])
    ensures ChartRequested(t, x, y) && ParseKind(chartType).None? ==>
              c == Chart("", [ChartErrorPrefix + UnboundFigure])
    ensures ChartRequested(t, x, y) && ParseKind(chartType).Some? ==>
              var out := render(t, Figure(ParseKind(chartType).value, x.value, y.value,
                                          Title(x.value, y.value)));
              c == if out.Success? then Chart(out.value, [])
                   else Chart("", [ChartErrorPrefix + out.error])
    ensures |c.notices| <= 1
    ensures c.notices != [] ==> c.html == "" && ChartErrorPrefix <= c.notices[0]
  {
    if !ChartRequested(t, x, y) then Chart("", [])
    else match ParseKind(chartType)
      case None => Chart("", [ChartErrorPrefix + UnboundFigure])
      case Some(kind) =>
        match render(t, Figure(kind, x.value, y.value, Title(x.value, y.value)))
        case Success(html) => Chart(html, [])
        case Failure(e) => Chart("", [ChartErrorPrefix + e])
  }
}
