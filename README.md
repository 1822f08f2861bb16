# Fruit harvest width estimator: submit logic and prediction endpoint

This project models the decision logic of a two-part application that estimates the size of fruit at harvest.

- The **form** (`orchard-frontend/src/App.js`) has a submit handler. It checks the inputs in a fixed order, where the first failure wins. It then clears the previous result, sends the request and stores the answer. On the way it labels the server's histogram bins and keeps the labelled list only if every count is a number. A guard then decides whether a chart is drawn.
- The **`/predict` endpoint** (`backend/app.py`) checks that five fields are present, in a fixed order. It refuses a harvest date before the scan date, predicts each fruit's diameter from its three axes and the growth rate, averages the predictions and counts them into 5 mm bins.

Modules:

- `Frontend` (frontend.dfy). Class `App` holds the form inputs and the state `{error, loading, avgSize, histogram}`. `App.Submit` runs the handler's steps and takes the outcome of the HTTP request as a parameter: `Ok`, `OkWithoutHistogramList`, `NonOk` or `Exn`. `AfterSubmit` is the same handler written as a function on values. `Submit` is proved equal to it, and the lemmas are about `AfterSubmit`. Labelling (`LabelBins`), the type check (`AllNumeric`), normalisation (`Normalise`) and the chart guard (`ShowsChart`) are functions.
- `Backend` (backend.dfy). `Predict` is the handler without its database query. The request body is a map from field name to a typed JSON value. The fruit rows the query selects are an input sequence. The three loops of the handler are methods proved against specification functions: `CheckFields` against `FirstMissing`, `PredictDiameters` against `Predicted`, and `CountBins` against `CountInBin` and `NumBins`. `CountBins` keeps the array of bins, as the source does.
- `Format` (format.dfy). This module renders an integer the way a template literal does. It also proves that the rendering is injective, so distinct bin starts give distinct labels.
- `Pipeline` (pipeline.dfy). This module states what the form does with the histograms that the endpoint produces.
- `Wrappers` (wrappers.dfy). This module holds `Option` and `Result`.

Dates are day numbers, and an empty date field is `None`. Diameters and the growth rate are exact `real`s. A JSON count is either `Num(n)` or `NotNum`.

Behaviours worth noting:

- **Same-day dates.** The form refuses them: the harvest date must be strictly later. The endpoint accepts them, because it only refuses `days_delta < 0`. Both checks are modelled as written.
- **Bin width.** The form labels each bin as 20 mm wide (`App.js:151`). The endpoint's bins are 5 mm wide (`app.py:93`). Both are kept, so neighbouring labels overlap (`Pipeline.PredictionIsCharted`).
- **Submitting during a request.** The handler has no in-flight check. Only the button is disabled while `loading` is set, so `App.Submit` requires `!loading`.
- **What the type check tests.** The type check at line 157 tests only that counts are numbers and labels are strings. Non-empty labels are tested only by the chart guard at line 256, which `ShowsChart` models.
- **Malformed responses.** A body that is not JSON ends in the `catch` like any other exception (`Exn`). A body whose `histogram` is not a list stores the average first and then fails in `map` (`OkWithoutHistogramList`).

## Model

| member | source | states |
|---|---|---|
| Frontend.Validate | orchard-frontend/src/App.js:113-125 | A request goes out exactly when all three required inputs are filled, the scan date is strictly before the harvest date and min ≤ max. Otherwise the message is the one of the first failing check, in the order required inputs, then date order, then diameter range. The missing-inputs message appears whatever the other fields hold. Equal dates get the date-order message, and min == max is accepted. |
| Frontend.LabelBins | orchard-frontend/src/App.js:151-155 | Labelling keeps length and order: element i is labelled `"{bin_start}–{bin_start+20} mm"` for bin i's start and keeps bin i's count. |
| Frontend.AllNumeric | orchard-frontend/src/App.js:157 | The `every` check holds exactly when every bin's count is a number. |
| Frontend.Normalise | orchard-frontend/src/App.js:151-161 | All or nothing. If every count is a number, the stored histogram is the full labelled list. If any count is not a number, it is `[]`. |
| Frontend.Label | orchard-frontend/src/App.js:153 | The label of a bin starting at `start` opens with the decimal text of `start` up to the en dash and ends in `" mm"`. |
| Format.IntToStringInjective | orchard-frontend/src/App.js:153 | Two integers rendered to the same decimal text are equal. |
| Format.NatToStringRoundTrip | orchard-frontend/src/App.js:153 | Reading back the digits of a rendered natural number gives the number. |
| Format.BeforeSeparator | orchard-frontend/src/App.js:153 | The part of a label before the en dash is the rendered bin start. |
| Frontend.LabelInjective | orchard-frontend/src/App.js:153 | Two bins whose labels are equal have the same start. |
| Frontend.NormalisedLabelsDistinct | orchard-frontend/src/App.js:152-158 | After normalisation, bins with distinct starts have distinct labels. |
| Frontend.AfterSubmit | orchard-frontend/src/App.js:112-167 | A validation failure writes its message and changes nothing else. When a request is sent, `loading` ends false. After a non-ok response the error is `"Failed to connect to backend: Server error: " + statusText`. After an exception it is the prefix plus the exception's message. On both failures the previous average and histogram are gone. On success the error stays cleared, the average is stored and the histogram is the normalised server list. When the histogram is not a list, the average is still stored, the histogram is `[]` and the error is the prefix plus the exception's message. |
| Frontend.Settle | orchard-frontend/src/App.js:131-166 | Every outcome of the request ends with `loading` false. The error is cleared exactly on success. An average is stored exactly when the response was ok, and every non-success outcome leaves the histogram empty. |
| Frontend.ShowsChart | orchard-frontend/src/App.js:252-256 | The chart is drawn exactly when an average is stored, the histogram is non-empty, every count passes the type check of line 157 and every label is non-empty. |
| Frontend.ChartAfterOk | orchard-frontend/src/App.js:252-256 | After a successful response, the chart is shown exactly when the server sent at least one bin and every count is a number. |
| Frontend.NoChartAfterFailure | orchard-frontend/src/App.js:144-166 | A failed request leaves an error message and no chart. |
| Frontend.ValidationFailureKeepsChart | orchard-frontend/src/App.js:113-125 | A validation failure keeps the previous histogram, and the chart is shown exactly when it was shown before. |
| Frontend.App.constructor | orchard-frontend/src/App.js:101-109 | Initial state: empty dates and growth rate, diameters 20 and 120, no error, not loading, no average, empty histogram. |
| Frontend.App.StartRequest | orchard-frontend/src/App.js:127-129 | Once validation has passed and before any outcome, `loading` is true, `avgSize` is null and `histogram` is `[]`. |
| Frontend.App.Submit | orchard-frontend/src/App.js:112-167 | The form inputs are unchanged. A request is made exactly when validation passes. The new `{error, loading, avgSize, histogram}` is `AfterSubmit` of the old state, the form and the outcome. |
| Backend.FirstMissingFrom | backend/app.py:51-53 | The index found is that of a field the request lacks, and every required field before it is present. |
| Backend.CheckFields | backend/app.py:51-53 | The loop reports no missing field exactly when all five are present. Otherwise it names the first missing field in the order scan_date, harvest_date, growth_rate, min_diameter, max_diameter. |
| Backend.ParseRequest | backend/app.py:55-59 | Conversion succeeds exactly when both dates are dates and the three numbers are numbers. A failure names a field whose converter refuses its value. On success the converted day numbers and growth rate are those of the request. |
| Backend.PredictDiameters | backend/app.py:84-88 | One prediction per fruit, in row order. Prediction i is the mean of fruit i's three axes plus growth_rate × days_delta. |
| Backend.Predicted | backend/app.py:86-87 | With no days elapsed the prediction is the mean of the three axes. With non-negative growth and a non-negative delta it is never below that mean. |
| Backend.Average | backend/app.py:90 | The average times the number of predictions is their sum. |
| Backend.Max | backend/app.py:94 | `max` returns an element of the predictions that no other prediction exceeds. |
| Backend.AverageWithinRange | backend/app.py:90 | The average, the sum over the count, lies between the smallest and the largest prediction. |
| Backend.NumBins | backend/app.py:94-95 | The last of the floor(max/5)+1 bins is the 5 mm range that holds the maximum, and there is at least one bin when the maximum is non-negative. |
| Backend.BinIndex | backend/app.py:97 | The index never exceeds the last bin. It is either the last bin or the 5 mm bin [5i, 5i+5) that holds the diameter, and it is non-negative for a non-negative diameter. |
| Backend.BinIndexIsRange | backend/app.py:93-97 | For non-negative diameters, bin i receives exactly the diameters in [5i, 5i+5). The clamp to the last bin never applies. |
| Backend.HistogramStep | backend/app.py:96-98 | Counting one more diameter adds one to its own bin and leaves every other bin unchanged. |
| Backend.HistogramConserves | backend/app.py:95-98 | For non-negative diameters the bin counts sum to the number of diameters. |
| Backend.CountBins | backend/app.py:93-98 | There are floor(max/5)+1 bins. Bin i holds the number of diameters d with min(floor(d/5), len−1) = i. The counts sum to the number of diameters. |
| Backend.Enumerate | backend/app.py:100 | One entry per bin, in order. Entry i starts at 5·i and carries bin i's count, so the counts read back from the entries are the bin counts. |
| Backend.Predict | backend/app.py:46-105 | A missing field gives a 400 naming the first missing field. A conversion failure gives a 500. A harvest date before the scan date gives a 400, and only then, so the same day is accepted. No fruits gives average 0 and an empty histogram. Otherwise the average is the mean of the predictions and there are floor(max/5)+1 bins. Bin i starts at 5·i and holds the count for bin i. The counts sum to the number of fruits. |
| Pipeline.PredictionIsCharted | orchard-frontend/src/App.js:151-161 | A non-empty endpoint histogram is charted in full. Bin i keeps its count and is labelled from 5·i to 5·i+20 mm, so the 20 mm labels of 5 mm bins overlap. |
| Pipeline.NoFruitsShowsAverageOnly | backend/app.py:77-82 | The endpoint's reply for no matching fruit shows an average of 0 and no chart. |

## Left out

- Styles, JSX and the chart library are presentation only. The one exception is the display guard at `App.js:252-256`, which `ShowsChart` models.
- `fetch`, the endpoint URL, request serialisation, `response.json()` and `async`/`await` scheduling are transport. The outcome of a request is a parameter of `Submit`.
- Concurrency: the only guard in the code is the disabled button, modelled as `requires !loading` on `Submit`.
- The `onChange` handlers of the inputs only copy the field values. The form fields are set by the constructor and read by `Submit`.
- Date strings and their parsing (`new Date`, `strptime`) are left out, and dates are day numbers. A date string that parses to an invalid date is not modelled.
- `parseFloat` and `NaN`, `round(…, 2)`, `toFixed(2)` and floating-point rounding are left out. Diameters, the growth rate and the average are exact reals.
- Label: it renders integral bin starts only. Non-integral starts and JavaScript's exponent notation for very large numbers are not modelled.
- `console.warn` and `logging` have no effect on the state.
- Flask routing, CORS, `request.json`, `jsonify`, environment variables and the database connection are I/O. A body that is not a JSON object is not modelled.
- The SQL query and its `BETWEEN` filter on the mean diameter are left out. The fruit rows are an input that is assumed to be already filtered, in the order the database returns them.
- Backend.ParseRequest: the text of the Python exception for a value that does not convert is not modelled. `ServerError` carries the name of the field instead.
- Backend.Predict: negative predicted diameters are excluded by its precondition. In Python a negative index from -1 down to -len(bins) counts into a bin from the end of the list. An index below -len(bins), or any index when the maximum is negative and `bins` is empty, raises an IndexError that the handler turns into a 500.
- Backend.Predict: the response's `round(avg, 2)` is not modelled. The average is exact.
- A response without `average_diameter` is not modelled. It would store `undefined` as the average.
