/** The three routes of app.py with Flask, pandas, plotly and the filesystem
    abstracted: each handler returns its response as a value, and the notices
    it flashes travel with that response. */
module Handlers {
  import opened Wrappers
  import opened Sequences
  import opened Extensions
  import opened Requests
  import opened Tables
  import opened Charts
  import opened Datasets

  /** Where a redirect goes. */
  datatype Target =
    | SameUrl                  // `redirect(request.url)`
    | IndexPage                // `url_for('index')`
    | DashboardFor(filename: string)  // `url_for('dashboard', filename=...)`

  /** What `render_template('dashboard.html', ...)` receives (app.py:103-112). */
  datatype View = View(
    preview: seq<Row>,
    filename: Option<string>,
    sample: Option<string>,
    columns: seq<string>,
    numericColumns: seq<string>,
    chart: string,
    selectedX: Option<string>,
    selectedY: Option<string>,
    chartType: string)

  datatype Response =
    | Redirect(target: Target, notices: seq<string>)
    | IndexView(samples: seq<string>)
    | DashboardView(view: View, notices: seq<string>)
    | Attachment(downloadName: string, mimetype: string, body: Bytes)
    | ServerError(cause: string)   // an exception no handler catches

  /** pandas' `read_csv` on a file's bytes: the table, or the exception's message. */
  type Parser = Bytes -> Result<Table, string>

  /** pandas' `to_csv(index=False)`. */
  type Serializer = Table -> Bytes

  const NoFilePart: string := "No file part"
  const NoFileSelected: string := "No file selected"
  const OnlyCsvAllowed: string := "Only CSV files are allowed"
  const DashboardNotFound: string := DownloadNotFound + " Please upload or choose a sample."
  const DownloadNotFound: string := "Dataset not found."
  const ReadErrorPrefix: string := "Error reading CSV: "
  const DownloadName: string := "dataset.csv"
  const CsvMimetype: string := "text/csv"

  /** The multipart field the upload form posts. */
  const DatasetField: string := "dataset"

  // ---------------------------------------------------------------- index

  /** An uploaded file: its client-side name and its bytes. */
  datatype FileStorage = FileStorage(filename: string, content: Bytes)

  datatype Request = Get | Post(files: map<string, FileStorage>)

  predicate IsCsvName(f: string) {
    EndsWith(f, ".csv")
  }

  /** The sample listing (app.py:54): the names ending in `.csv`, case
      sensitively, in listing order. */
  function SampleFiles(listing: seq<string>): (samples: seq<string>)
    ensures IsSubsequence(samples, listing)
    ensures forall f :: f in samples <==> f in listing && EndsWith(f, ".csv")
    ensures forall f :: multiset(samples)[f] == if EndsWith(f, ".csv") then multiset(listing)[f] else 0
  {
    Filter(listing, IsCsvName)
  }

  /** Every listed sample would also pass the upload check ... */
  lemma SamplesAreAllowed(listing: seq<string>, f: string)
    requires f in SampleFiles(listing)
    ensures AllowedFile(f)
  {
    var n := |f|;
    assert f[n - 4] == ".csv"[0];
    assert f[n - 3..] == "csv";
    assert Lower("csv") == "csv" by {
      assert Lower("csv")[0] == 'c' && Lower("csv")[1] == 's' && Lower("csv")[2] == 'v';
    }
  }

  /** ... but not conversely: an upper-case extension is accepted on upload
      and left out of the sample listing. */
  lemma UpperCaseSampleNotListed()
    ensures AllowedFile("DATA.CSV")
    ensures SampleFiles(["DATA.CSV", "a.csv"]) == ["a.csv"]
  {
    AfterLastDotAt("DATA.CSV", 4);
    assert Lower("CSV") == "csv" by {
      assert Lower("CSV")[0] == 'c' && Lower("CSV")[1] == 's' && Lower("CSV")[2] == 'v';
    }
    assert !IsCsvName("DATA.CSV") by { assert "DATA.CSV"[5] != "csv"[0]; }
    assert IsCsvName("a.csv") by { assert "a.csv"[1..] == ".csv"; }
    assert ["DATA.CSV", "a.csv"][1..] == ["a.csv"];
  }

  /** The checks of the upload (app.py:35-51), first failing one first: the
      notice it flashes, or None when the file is accepted. */
  function UploadRejection(files: map<string, FileStorage>): (notice: Option<string>)
    ensures notice == Some(NoFilePart) <==> DatasetField !in files
    ensures notice == Some(NoFileSelected) <==>
              DatasetField in files && files[DatasetField].filename == ""
    ensures notice == Some(OnlyCsvAllowed) <==>
              DatasetField in files && files[DatasetField].filename != ""
              && !AllowedFile(files[DatasetField].filename)
    ensures notice.None? <==> DatasetField in files && AllowedFile(files[DatasetField].filename)
  {
    if DatasetField !in files then Some(NoFilePart)
    else if files[DatasetField].filename == "" then Some(NoFileSelected)
    else if AllowedFile(files[DatasetField].filename) then None
    else Some(OnlyCsvAllowed)
  }

  /** An accepted upload's name ends in a dot and "csv" in any case. */
  lemma AcceptedUploadEndsInCsv(files: map<string, FileStorage>)
    requires UploadRejection(files).None?
    ensures var name := files[DatasetField].filename;
            |name| >= 4 && name[|name| - 4] == '.' && Lower(name[|name| - 3..]) == "csv"
  {
  }

  /** The uploads folder, which the upload handler writes into. */
  class UploadFolder {
    var files: map<string, Bytes>

    constructor (existing: map<string, Bytes>)
      ensures files == existing
    {
      files := existing;
    }

    /** The `index` route (app.py:32-55); `listing` is `os.listdir(DATA_FOLDER)`
        and `sanitize` is werkzeug's `secure_filename`. */
    method Index(req: Request, listing: seq<string>, sanitize: string -> string)
      returns (r: Response)
      modifies this
      ensures req.Get? ==> r == IndexView(SampleFiles(listing)) && files == old(files)
      ensures req.Post? && UploadRejection(req.files).Some? ==>
                r == Redirect(SameUrl, [UploadRejection(req.files).value])
                && files == old(files)
      ensures req.Post? && UploadRejection(req.files).None? ==>
                var file := req.files[DatasetField];
                var name := sanitize(file.filename);
                r == Redirect(DashboardFor(name), []) && files == old(files)[name := file.content]
    {
      if req.Get? {
        r := IndexView(SampleFiles(listing));
        return;
      }
      if DatasetField !in req.files {
        r := Redirect(SameUrl, [NoFilePart]);
        return;
      }
      var file := req.files[DatasetField];
      if file.filename == "" {
        r := Redirect(SameUrl, [NoFileSelected]);
        return;
      }
      // `if file` is true here: a FileStorage is truthy when its filename is
      if file.filename != "" && AllowedFile(file.filename) {
        var name := sanitize(file.filename);
        files := files[name := file.content];
        r := Redirect(DashboardFor(name), []);
        return;
      }
      r := Redirect(SameUrl, [OnlyCsvAllowed]);
    }
  }

  /** The redirect after an accepted upload leads to a dashboard that reads
      exactly the bytes just saved, whatever else either folder holds. */
  lemma UploadedDatasetIsShown(uploads: map<string, Bytes>, samples: map<string, Bytes>,
                               files: map<string, FileStorage>, sanitize: string -> string)
    requires UploadRejection(files).None?
    requires sanitize(files[DatasetField].filename) != ""
    ensures var file := files[DatasetField];
            var name := sanitize(file.filename);
            Locate(FileSystem(uploads[name := file.content], samples), map["filename" := name])
              == Some(file.content)
  {
  }

  // ------------------------------------------------------------ dashboard

  /** The `dashboard` route (app.py:58-112). */
  function Dashboard(args: Args, fs: FileSystem, parse: Parser, render: Renderer): (r: Response)
    ensures Locate(fs, args).None? ==> r == Redirect(IndexPage, [DashboardNotFound])
    ensures Locate(fs, args).Some? && parse(Locate(fs, args).value).Failure? ==>
              r == Redirect(IndexPage, [ReadErrorPrefix + parse(Locate(fs, args).value).error])
    ensures Locate(fs, args).Some? && parse(Locate(fs, args).value).Success? ==>
              var t := parse(Locate(fs, args).value).value;
              var x, y := Arg(args, "x_col"), Arg(args, "y_col");
              var chartType := ArgOr(args, "chart_type", DefaultChartType);
              var chart := BuildChart(t, x, y, chartType, render);
              && r.DashboardView?
              && r.view.preview == Preview(t)
              && r.view.columns == ColumnNames(t)
              && r.view.numericColumns == NumericColumns(t)
              && r.view.filename == Arg(args, "filename")
              && r.view.sample == Arg(args, "sample")
              && r.view.selectedX == x && r.view.selectedY == y
              && r.view.chartType == chartType
              && r.view.chart == chart.html && r.notices == chart.notices
  {
    match Locate(fs, args)
    case None => Redirect(IndexPage, [DashboardNotFound])
    case Some(bytes) =>
      match parse(bytes)
      case Failure(e) => Redirect(IndexPage, [ReadErrorPrefix + e])
      case Success(t) =>
        var x, y := Arg(args, "x_col"), Arg(args, "y_col");
        var chartType := ArgOr(args, "chart_type", DefaultChartType);
        var chart := BuildChart(t, x, y, chartType, render);
        DashboardView(
          View(Preview(t), Arg(args, "filename"), Arg(args, "sample"), ColumnNames(t),
               NumericColumns(t), chart.html, x, y, chartType),
          chart.notices)
  }

  // ------------------------------------------------------------- download

  /** The `download` route (app.py:115-137). `read_csv` is not guarded here,
      so a parse failure escapes the handler. */
  function Download(args: Args, fs: FileSystem, parse: Parser, serialize: Serializer): (r: Response)
    ensures Locate(fs, args).None? ==> r == Redirect(IndexPage, [DownloadNotFound])
    ensures Locate(fs, args).Some? && parse(Locate(fs, args).value).Failure? ==>
              r == ServerError(parse(Locate(fs, args).value).error)
    ensures Locate(fs, args).Some? && parse(Locate(fs, args).value).Success? ==>
              r == Attachment(DownloadName, CsvMimetype, serialize(parse(Locate(fs, args).value).value))
  {
    match Locate(fs, args)
    case None => Redirect(IndexPage, [DownloadNotFound])
    case Some(bytes) =>
      match parse(bytes)
      case Failure(e) => ServerError(e)
      case Success(t) => Attachment(DownloadName, CsvMimetype, serialize(t))
  }

  // ---------------------------------------------------- cross-route facts

  /** When no dataset is found, neither route reads a file: the outcome is the
      same whatever the parser, plotly or the serializer would do. */
  lemma NotFoundReadsNothing(args: Args, fs: FileSystem, parse1: Parser, parse2: Parser,
                             render1: Renderer, render2: Renderer,
                             serialize1: Serializer, serialize2: Serializer)
    requires Locate(fs, args).None?
    ensures Dashboard(args, fs, parse1, render1) == Dashboard(args, fs, parse2, render2)
    ensures Download(args, fs, parse1, serialize1) == Download(args, fs, parse2, serialize2)
  {
  }

  /** Both routes resolve alike: the download sends the user back exactly when
      the dashboard reports the dataset as not found. */
  lemma DownloadRedirectsIffDashboardNotFound(args: Args, fs: FileSystem, parse: Parser,
                                              render: Renderer, serialize: Serializer)
    ensures Download(args, fs, parse, serialize).Redirect? <==>
              Dashboard(args, fs, parse, render) == Redirect(IndexPage, [DashboardNotFound])
  {
    if Locate(fs, args).Some? && parse(Locate(fs, args).value).Failure? {
      var e := parse(Locate(fs, args).value).error;
      assert (ReadErrorPrefix + e)[0] == ReadErrorPrefix[0] == 'E';
      assert DashboardNotFound[0] == DownloadNotFound[0] == 'D';
    }
  }

  /** A parsed table always yields a view, whether or not the chart could be
      drawn; a failed chart leaves only an empty chart and one notice. */
  lemma ChartFailureIsNotFatal(args: Args, fs: FileSystem, parse: Parser, render: Renderer)
    requires Locate(fs, args).Some? && parse(Locate(fs, args).value).Success?
    ensures var r := Dashboard(args, fs, parse, render);
            r.DashboardView? && |r.notices| <= 1
            && (r.notices != [] ==> r.view.chart == "" && ChartErrorPrefix <= r.notices[0])
  {
  }

  /** The sales example: a bar chart of revenue against month, with revenue the
      only numeric column. */
  lemma SalesDashboardExample(args: Args, fs: FileSystem, parse: Parser, render: Renderer,
                              t: Table, html: string)
    requires args == map["sample" := "sales.csv", "x_col" := "month",
                         "y_col" := "revenue", "chart_type" := "bar"]
    requires t.columns == [Column("month", false), Column("revenue", true)]
    requires "sales.csv" in fs.samples && parse(fs.samples["sales.csv"]) == Success(t)
    requires render(t, Figure(Bar, "month", "revenue", "revenue vs month")) == Success(html)
    ensures var r := Dashboard(args, fs, parse, render);
            && r.DashboardView?
            && r.view.numericColumns == ["revenue"]
            && r.view.columns == ["month", "revenue"]
            && r.view.chart == html && r.notices == []
  {
    SalesColumns(t);
    SalesRequest(args, fs);
    assert ChartRequested(t, Some("month"), Some("revenue"));
    assert Title("month", "revenue") == "revenue vs month";
    assert BuildChart(t, Some("month"), Some("revenue"), "bar", render) == Chart(html, []);
  }

  lemma SalesRequest(args: Args, fs: FileSystem)
    requires args == map["sample" := "sales.csv", "x_col" := "month",
                         "y_col" := "revenue", "chart_type" := "bar"]
    requires "sales.csv" in fs.samples
    ensures Locate(fs, args) == Some(fs.samples["sales.csv"])
    ensures Arg(args, "x_col") == Some("month") && Arg(args, "y_col") == Some("revenue")
    ensures ArgOr(args, "chart_type", DefaultChartType) == "bar"
  {
    assert Arg(args, "filename") == None;
    assert Resolve(args) == Some(Path(Samples, "sales.csv"));
  }

  lemma SalesColumns(t: Table)
    requires t.columns == [Column("month", false), Column("revenue", true)]
    ensures ColumnNames(t) == ["month", "revenue"] && NumericColumns(t) == ["revenue"]
  {
    var columns := t.columns;
    assert columns[1..][1..] == [];
    assert Filter(columns[1..], IsNumeric) == [Column("revenue", true)];
    assert Filter(columns, IsNumeric) == [Column("revenue", true)];
  }
}
