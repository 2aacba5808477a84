# Data-Explorer client core, modelled in Dafny

Data-Explorer is a browser client: the user drops a CSV file, the client
posts it to a remote analysis service, and the charts the service returns
are drawn in a themed grid. This project models the two parts of
`frontend/src/App.jsx` that hold logic:

- **The upload / view state machine.** `FileUploader` keeps the selected `file` and an
  `isLoading` flag. Its `handleFileProcessing` handler validates the name, sends one
  request and routes the outcome either to `App`'s `appData = {charts, fileName}` or
  to an alert. `App` shows the uploader exactly when `charts` is falsy or has length 0.
  Reset restores the initial `appData`. This is the class `Upload.Session`. The async
  handler is split into `BeginUpload` (validation and the state set before the
  `await`) and `FinishUpload` (the outcome for an abstract `Response`, and the `finally`).
- **The dashboard.** `ChartsDashboard` lays a fixed theme over each chart's layout (module
  `Theme`) and heads each card with `layout.title.text` or `"Chart N"` (module `Dashboard`).

The JavaScript that these expressions depend on is modelled in `JsValues`:
- JSON values (`JVal`) and their truthiness; an empty array is truthy.
- `x || y`.
- Property reads `x.k` (null throws a TypeError) and `x?.k`.
- Object spread `{...x}` (an array or string spreads under its decimal indices).
- The string conversion inside `new Error(x)`.

`Decimal` renders the natural numbers used as indices and card ordinals.

Three behaviours of the code that a reader might not expect, kept as they are:
- The code does not refuse a new file while a request is in flight, and neither does
  `BeginUpload`.
- The code does not discard a response that arrives after a reset, and the model adds
  no such guard.
- The code does not isolate a failing chart from its siblings: one null chart makes
  the whole grid throw (`Dashboard.NullChartAbortsDashboard`). When `charts` is a
  non-empty value that is not a list, the dashboard throws too
  (`Dashboard.RenderDashboard`, the TypeError of `charts.map`).

Files: `wrappers.dfy`, `decimal.dfy`, `jsvalues.dfy`, `theme.dfy`, `dashboard.dfy`, `upload.dfy`.

## Model

| member | source | states |
|---|---|---|
| `Upload.IsCsvName` | frontend/src/App.jsx:237 | `selectedFile.name.endsWith(".csv")`, with no contract of its own: what it accepts is stated by `IsCsvNameShape` and `IsCsvNameExamples` |
| `Upload.IsCsvNameShape` | frontend/src/App.jsx:238 | every name `base + ".csv"` passes the extension check, and every passing name has that shape |
| `Upload.IsCsvNameExamples` | frontend/src/App.jsx:238 | the check is case-sensitive and suffix-only: `DATA.CSV`, `notes.txt` and `data.csv.gz` are refused; `sales.csv` and `.csv` pass |
| `Upload.Session.BeginUpload` | frontend/src/App.jsx:237-247 | a request is sent iff a file is given and its name ends in `.csv`. On refusal: an alert, and `file`, `isLoading` and `appData` unchanged. On acceptance: `file` is the selection and `isLoading` is true |
| `Upload.DeliveredCharts` | frontend/src/App.jsx:257-259 | `data.charts \|\| data`: the envelope's `charts` when truthy; otherwise the whole body (bare list, falsy or missing `charts`); a TypeError on a null body |
| `Upload.NotOkMessage` | frontend/src/App.jsx:253-255 | the error message of a non-OK response: the ToString of any truthy `detail` (a non-empty string as it is, 42 as "42"); the TypeError text "Cannot convert object to primitive value" when that conversion throws (an object `detail` with its own `toString` key, or a list holding one); `"Upload failed"` when `detail` is missing or falsy, the body is not an object, or the body does not parse; a TypeError message for a null body |
| `Upload.Settle` | frontend/src/App.jsx:248-262 | charts are delivered, under the selected file's name, iff the response is OK with a non-null body. Every other path gives an alert prefixed `"Failed to upload file: "` |
| `Upload.ChartListDelivered` | frontend/src/App.jsx:259 | a chart list, in the envelope or bare, is delivered unchanged, an explicit `charts: []` included. The dashboard replaces the uploader iff the list is non-empty |
| `Upload.Session.FinishUpload` | frontend/src/App.jsx:248-265 | the outcome is `Settle`'s. `appData` is replaced only on delivery. `isLoading` is false on every path. Delivering a non-empty list unmounts the uploader, which drops its file |
| `Upload.Session.Remove` | frontend/src/App.jsx:335-343 | the Remove button, offered while not loading, clears `file` and nothing else |
| `Upload.Session.Reset` | frontend/src/App.jsx:425 | `appData` becomes `{charts: [], fileName: ""}`, the initial value. The uploader shows again, with no file after the dashboard, whatever was loaded |
| `Upload.Session.constructor` | frontend/src/App.jsx:404 | initial page: no file, not loading, `appData = {charts: [], fileName: ""}`, uploader shown |
| `Dashboard.ShowsUploader` | frontend/src/App.jsx:356 | `!charts \|\| charts.length === 0`: holds for every falsy value; on a list iff it is empty; on a string iff it is empty; on a boolean or number iff it is falsy (a truthy one has no `length`) |
| `Dashboard.ShowsUploaderOnLists` | frontend/src/App.jsx:416 | `!charts \|\| charts.length === 0` holds on a list iff it is empty, and on an object iff it has a zero `length` field |
| `Dashboard.ChartLabel` | frontend/src/App.jsx:377 | the fallback heading is `"Chart "` followed by the canonical decimal numeral of `index + 1` |
| `Dashboard.CardTitle` | frontend/src/App.jsx:377 | the heading throws iff the chart is null. Any heading other than the fallback label is a truthy `layout.title.text` |
| `Dashboard.TitleGiven` | frontend/src/App.jsx:377 | a truthy `layout.title.text` is the heading |
| `Dashboard.RenderCard` | frontend/src/App.jsx:376-392 | a card fails only for a null chart. It carries the heading, the chart's `data` untouched, and `MergeLayout` of its layout |
| `Dashboard.DashboardShowsEveryChart` | frontend/src/App.jsx:374-396 | a list of N non-null charts gives N cards (none for N = 0), in order, each rendered at its own index |
| `Dashboard.NullChartAbortsDashboard` | frontend/src/App.jsx:375-377 | the first null chart makes the whole grid throw, with the TypeError of reading `layout` |
| `Dashboard.RenderDashboard` | frontend/src/App.jsx:355-396 | nothing is rendered when the uploader condition holds. A value that is not a list throws the TypeError of `charts.map`. A list throws iff one of its charts is null, and then with the TypeError of reading `layout`; otherwise it gives one card per chart |
| `Dashboard.Collect` | frontend/src/App.jsx:375 | `map` over precomputed callback completions throws iff some callback throws, with the message of one that does; otherwise it returns one result per element |
| `Dashboard.CollectNormal` | frontend/src/App.jsx:375 | `map` returns every callback result in order when none throws |
| `Dashboard.CollectThrows` | frontend/src/App.jsx:375 | `map` throws the first callback's exception, in index order |
| `Theme.MergeLayout` | frontend/src/App.jsx:381-389 | the output keys are the caller's plus the six override keys. Callers' other keys keep their values. `autosize` is true, both backgrounds are transparent, `font` is replaced wholesale, each axis is merged |
| `Theme.MergeAxis` | frontend/src/App.jsx:387-388 | an axis keeps every caller key with its value except `gridcolor` and `zerolinecolor`, which take the theme colours |
| `Theme.AxisKeysSurvive` | frontend/src/App.jsx:387-388 | a caller axis key other than the two grid colours (an axis title) survives the full layout merge |
| `Theme.ThemedLayout` | frontend/src/App.jsx:381-389 | the literal spread expression, which reads the axes through `chart.layout?.xaxis`, equals `MergeLayout` of the spread copy, for any layout value. A missing or null layout counts as `{}` |
| `Theme.MergeLayoutIdempotent` | frontend/src/App.jsx:381-389 | theming an already themed layout gives the same layout |
| `Theme.MergeAxisIdempotent` | frontend/src/App.jsx:387-388 | merging the theme into an already themed axis changes nothing |
| `JsValues.Spread` | frontend/src/App.jsx:382 | `{...v}` copies an object's fields. An array's elements, or a string's one-character strings, sit under exactly their decimal indices. Nothing is copied for null, undefined, booleans or numbers |
| `JsValues.SpreadReadsNamedProperty` | frontend/src/App.jsx:387 | a non-numeral key other than `length` reads the same through `v?.key` as through `{...v}` |
| `JsValues.JsString` | frontend/src/App.jsx:255 | the ToString inside `new Error(x)` throws iff `x` is an object with its own `toString` key or a list holding such a value at any depth, and then with V8's "Cannot convert object to primitive value"; what it prints otherwise is stated by the rows below |
| `JsValues.JsStringOfScalars` | frontend/src/App.jsx:255 | `new Error(x)` keeps a string `x` as it is; an object prints as `[object Object]` when it has no own `toString` key and throws when it has one; null prints as `null`, booleans as `true`/`false` |
| `JsValues.IntegerToString` | frontend/src/App.jsx:255 | an integer with at most 21 digits prints as its plain decimal numeral, with a `-` when negative |
| `JsValues.NumberToStringThresholds` | frontend/src/App.jsx:255 | Number::toString switches to exponent notation at 10^21 and below 1e-6; 20 trailing zeros and `0.00000d` still print plainly |
| `JsValues.ArrayToStringLaw` | frontend/src/App.jsx:255 | every list whose elements all convert prints as their texts joined by `,`, a null element contributing the empty string |
| `JsValues.ArrayToStringExample` | frontend/src/App.jsx:255 | one instance: `["a", null, 2]` prints as `a,,2` |
| `JsValues.ArrayWithToStringKeyThrows` | frontend/src/App.jsx:255 | one instance: `["a", {"toString": 1}]` makes the conversion throw |
| `Decimal.NatToStringShift` | frontend/src/App.jsx:255 | a positive number times 10^z prints as its own numeral followed by z zeros |
| `Decimal.ReadNatToString` | frontend/src/App.jsx:377 | reading back the numeral printed for `n` gives `n` |
| `Decimal.NatToStringOfRead` | frontend/src/App.jsx:377 | every canonical numeral is the one printed for the number it denotes |

## Left out

- Network and browser effects. `fetch` and `FormData` are abstracted to one `Response` value per request. `alert` becomes the returned text. `console.error` is dropped.
- Concurrency. Two requests in flight, and a response that settles after a reset, are not modelled. `FinishUpload` settles the request of the file currently selected.
- Upload.Session.FinishUpload: the handler uses the file it was called with, not the `file` state. Without interleavings the two are the same.
- Rendering. Plotly drawing and its `config` are not modelled. A heading is kept as the JSON value read from `layout.title.text`; React's handling of it is not modelled. In particular a truthy object heading makes React throw ("Objects are not valid as a React child"), which takes down the whole page; `Dashboard.DashboardShowsEveryChart` counts such a card as rendered.
- Decoration. SVG icons, `injectStyles`, the particles header, animations and the `isDragging` flag have no data dependency.
- Numbers. They are exact decimals: float rounding, NaN and infinities do not arise in the model.
- JsValues.Spread: a string is spread one Dafny character per index, where JavaScript uses one UTF-16 code unit per index; the two differ for characters outside the Basic Multilingual Plane.
- Dashboard.ChartLabel: it prints `index + 1` in plain decimal. JavaScript switches to exponent notation only from 10^21 on.
- TypeError texts. They follow the V8 engine's wording. Other engines word them differently.
- backend/app.py is not part of this model: routing, pandas and the Gemini call are I/O and foreign libraries.
- backend/data_processing.py is not part of this model: its DataFrame transformations are floating-point computations in pandas.
- frontend/src/components/Chart.jsx is not part of this model: it only fetches data and makes a fixed Plotly call.
