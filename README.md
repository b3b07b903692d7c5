# CSV dashboard: handler logic model

This project models the decision logic of a small Flask application. A user uploads a
CSV dataset or picks a bundled sample. The user then sees a ten-row preview and the
table's columns, chooses two columns and a chart kind to plot, and can download the
dataset again as `dataset.csv`. The model keeps what the route handlers in `app.py`
decide and drops the libraries they call:

- `allowed_file`: the upload extension check (`Extensions`).
- `get_numeric_columns`: the list of numeric columns, and the ten-row preview (`Tables`).
- The chart controls: the `chart_type` dispatch, the title, and the chart-error notice (`Charts`).
- Dataset resolution from `filename` or `sample`, which is shared by the dashboard and the download (`Datasets`).
- The `index`, `dashboard` and `download` routes, each returning its response as a value (`Handlers`).

The upload writes into the uploads folder. It is modelled as the class
`Handlers.UploadFolder`, which holds a `map` from file name to bytes, and as its method
`Index`. Dashboard and download only read. They are functions of the request arguments
and of a `FileSystem` value that holds both folders.

Flask's flashed messages travel inside the response as its `notices`. Redirects name
their target. A dashboard view carries everything `render_template` receives.

These are parameters, left uninterpreted:

- pandas' `read_csv` is a `Parser` (bytes to a table or an error message).
- `to_csv` is a `Serializer`.
- plotly's figure construction and `to_html` together are a `Renderer`.
- werkzeug's `secure_filename` is a `sanitize` function.
- `os.listdir` of the samples folder is a given sequence.

The model states two things through these parameters. A dataset that is not found is
never read: the outcome does not depend on the parser. The chart is requested with the
title `"<y> vs <x>"`: the renderer receives that figure.

Two behaviours of the code worth stating plainly:

- The code does not require that only one of `filename` and `sample` be given. A
  non-empty `filename` wins and `sample` is ignored (`Datasets.FilenameTakesPrecedence`).
- An unknown `chart_type` does not crash the dashboard. No branch assigns `fig`, and
  the resulting `UnboundLocalError` is caught by `except Exception`. The dashboard
  still renders, with an empty chart and a "Chart error: ..." notice
  (`Charts.BuildChart`, `Handlers.ChartFailureIsNotFatal`). An empty `chart_type=` is
  unknown too: the default `line` applies only when the argument is absent.

## Model

| member | source | states |
|---|---|---|
| Extensions.AfterLastDot | app.py:24 | `rsplit('.', 1)[1]`: present exactly when the name contains a dot; it is the suffix after a dot and contains no dot itself |
| Extensions.AllowedFile | app.py:23-24 | `allowed_file` holds iff the name is at least four characters, the fourth from last is `.`, and the last three lower-case to `csv` |
| Extensions.AcceptedExamples | app.py:23-24 | `report.CSV` and `a.txt.csv` are accepted |
| Extensions.RejectedExamples | app.py:23-24 | `report.txt`, `a.csv.txt`, `noext` and `name.` are rejected |
| Tables.ColumnNames | app.py:87 | one name per column, in column order |
| Tables.NumericColumns | app.py:27-28 | the numeric columns' names: an order-preserving subsequence of all column names that lists every numeric column and only numeric columns; entry k is the name of the k-th numeric column from the left, so the result is fixed even when names repeat |
| Tables.NumericColumnsRepeatedName | app.py:27-28 | for columns `a` (text), `b`, `a` (both numeric) the result is `["b", "a"]` |
| Tables.NumericColumnsExtremes | app.py:27-28 | all columns numeric gives the full name list; no numeric column gives the empty list |
| Tables.Preview | app.py:80 | `head(10)`: a prefix of the rows, of length ten or the row count, whichever is smaller |
| Charts.ParseKind | app.py:93-98 | only `line`, `bar` and `scatter` select a chart kind, each the kind of that name |
| Charts.KindNameRoundTrip | app.py:93-98 | a kind's name selects that kind and no other name does |
| Charts.Title | app.py:94 | the title is the y name, then ` vs `, then the x name; given the y name's length, both names can be read back |
| Charts.ChartRequested | app.py:91 | a chart is attempted iff both axes are given, non-empty, and each is the name of some column of the table |
| Charts.BuildChart | app.py:83-101 | no chart and no notice unless both axes are non-empty column names; a known kind renders the figure titled `y + " vs " + x`; a render failure or an unknown kind gives an empty chart and one "Chart error: " notice |
| Datasets.Resolve | app.py:60-67 | a path exists iff `filename` or `sample` is non-empty; `filename` selects the uploads folder and wins over `sample` |
| Datasets.Locate | app.py:63-71 | bytes are read iff the resolved path exists in its folder, and they are that file's bytes |
| Datasets.FilenameTakesPrecedence | app.py:64-67 | with a non-empty `filename`, dropping `sample` changes nothing |
| Handlers.SampleFiles | app.py:54 | the sample listing keeps exactly the names ending in `.csv` (case-sensitive), each as often as it is listed, in listing order |
| Handlers.SamplesAreAllowed | app.py:54 | every listed sample also passes `allowed_file` |
| Handlers.UpperCaseSampleNotListed | app.py:54 | `DATA.CSV` passes `allowed_file` but is not listed as a sample |
| Handlers.UploadRejection | app.py:35-51 | the checks run in order: no `dataset` part, then empty filename, then disallowed extension; each has its own notice; no notice iff the part exists and its name is allowed |
| Handlers.AcceptedUploadEndsInCsv | app.py:44 | an accepted upload's name ends in `.` followed by `csv` in any case |
| Handlers.UploadFolder.Index | app.py:32-55 | GET lists the samples; a rejected POST redirects back with its notice and leaves the folder unchanged; an accepted POST stores the bytes under the sanitized name (overwriting, nothing else changes) and redirects to the dashboard with that name |
| Handlers.UploadedDatasetIsShown | app.py:45-48 | the dashboard the upload redirects to reads exactly the bytes just saved |
| Handlers.Dashboard | app.py:58-112 | not found: redirect with the not-found notice; parse failure: redirect with "Error reading CSV: " and the cause; otherwise a view with the preview, all columns, the numeric columns, the chart and its notices, and the echoed `filename`, `sample`, `x_col`, `y_col` and `chart_type` (default `line`) |
| Handlers.Download | app.py:115-137 | not found: redirect with "Dataset not found."; parse failure: an uncaught error; otherwise an attachment `dataset.csv` of type `text/csv` holding the serialized table |
| Handlers.NotFoundReadsNothing | app.py:69-71 | when no dataset is found, dashboard and download give the same outcome whatever the parser, renderer and serializer |
| Handlers.DownloadRedirectsIffDashboardNotFound | app.py:117-128 | the download redirects exactly when the dashboard reports the dataset as not found |
| Handlers.ChartFailureIsNotFatal | app.py:90-103 | a parsed table always yields a view; a chart notice means an empty chart and there is at most one |
| Handlers.SalesDashboardExample | app.py:83-98 | a bar chart of `revenue` against `month` lists `revenue` as the only numeric column and shows the rendered chart titled `revenue vs month` |

## Left out

- Flask routing, `request`, `redirect`, `url_for` and `render_template` are left out. Responses are values. Flashed notices are a field of the response, not session state.
- pandas parsing, dtype inference, `head().to_html` and `to_csv` are parameters or given inputs. The preview is kept as rows, not HTML. The CSV round trip depends on pandas formatting and is not stated.
- plotly figure construction and `to_html` are one `Renderer` parameter. Only the chosen kind, the axes and the title are modelled.
- werkzeug's `secure_filename` is a parameter with no properties. The model assumes it returns a usable file name. An empty result would make `file.save` write to the folder path itself; this is not modelled.
- `os.makedirs`, the order of `os.listdir`, and `os.path.join` edge cases are left out. Those edge cases include absolute names, `..`, and a name that is a directory; existence is key membership.
- Extensions.Lower: `str.lower()` is modelled on ASCII letters only. No character outside ASCII lower-cases to `c`, `s` or `v`, so the `csv` test is exact. Lower-cased text that is not compared to `csv` may differ from Python's.
- Charts.BuildChart: the notice text for an unknown kind uses the `UnboundLocalError` wording of Python 3.11 and later. Older interpreters word it differently.
- Handlers.UploadFolder.Index: the `if file` truthiness test is modelled as "filename is non-empty", which is werkzeug's rule. Concurrent uploads of the same name are not modelled.
- The app configuration (`secret_key`, folder constants), `BytesIO`, `send_file` streaming and `app.run` are left out.
