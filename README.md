# Website status checker — Dafny model

The modelled application is a small Flask service (`app.py`). It takes an uploaded CSV or XLSX
spreadsheet with a `domain` column and sends one HTTP GET per row. It classifies each outcome
into a status code and a fixed message, and adds both as two new columns. The annotated table is
kept as the downloadable report and as the session's result set. A single-URL check replaces the
result set with one record and leaves the report alone.

The model has five modules:

- `Wrappers` (`wrappers.dfy`): `Option` and `Result`.
- `Text` (`text.dfy`): Python's `str.strip()` over the exact whitespace set of `str.isspace()`,
  and `str(n)` for integers together with a parser that inverts it.
- `Status` (`status.dfy`): the decision table of `check_status`. The network outcome is its input:
  `Some(code)` for a received response, `None` for a request that raised.
- `Frame` (`frame.dfy`): an abstract pandas DataFrame. It has ordered column names, cells by
  column, and a row count. It supports column assignment (`df[name] = values`) and
  `to_dict(orient='records')`.
- `App` (`app.dfy`): suffix dispatch, the annotation loop (`CheckAll`, a method with a loop, as in
  the source), the annotated table, and the class `Service`. `Service` holds the two pieces of
  state the handlers update. `results` is the session's result set. `report` is the report buffer,
  absent before the first upload.

The HTTP GET is the parameter `network: string -> Option<int>`. The pandas readers are the
parameter `parse: Format -> Table`. The class invariant `Service.Valid` says that every stored
record is consistent: its `status_code` is missing exactly when its message is "Could not
connect". Every operation preserves it.

The single-URL check clears the stored list and then appends, despite the "Append" comment at
app.py:84. The model keeps that behaviour: the result set becomes exactly one record.

## Model

| member | source | states |
|---|---|---|
| `Status.Classify` | app.py:11-24 | The returned code is the received code, and absent exactly when no response arrived. The message is "Site is Live" iff the code is 200, "404 Not Found" iff it is 404, "Server Error" iff 500 <= code < 600, "HTTP {code}" for every other code, and "Could not connect" iff there was no response. |
| `Status.HttpMessage` | app.py:21-22 | Every "HTTP {code}" message begins with the fixed "HTTP " prefix, followed by at least one character. |
| `Status.MessageCarriesOtherCodes` | app.py:14-22 | Reading the code back out of any message gives the original code for every code without a fixed message, and nothing for the fixed messages. |
| `Status.SameMessageSameResponse` | app.py:11-24 | Two responses with the same message are the same response, unless both are codes in 500-599. |
| `Text.TrimStartCutsSpaces` | app.py:52 | The left trim removes a prefix made only of whitespace, and what remains does not start with whitespace. |
| `Text.TrimEndCutsSpaces` | app.py:52 | The right trim removes a suffix made only of whitespace, and what remains does not end with whitespace. |
| `Text.StripIsTrimmedSlice` | app.py:52 | `strip()` returns a slice `s[i..j]` of its input. Everything outside the slice is whitespace, and the result neither starts nor ends with whitespace. |
| `Text.IsSpace` | app.py:52 | The characters `strip()` removes are exactly those Python's `str.isspace()` accepts: tab through carriage return, the four separators U+001C-U+001F, space, U+0085, U+00A0, U+1680, U+2000-U+200A, U+2028, U+2029, U+202F, U+205F and U+3000. |
| `Text.Strip` | app.py:52 | `str.strip()`, applied to the cell text at app.py:52 and to the submitted URL at app.py:82. It is the left trim followed by the right trim; what it promises is stated by `Text.StripIsTrimmedSlice`. |
| `Text.StripIdempotent` | app.py:52 | A sanity property of the `strip()` abstraction: stripping twice is stripping once. The source never strips twice. |
| `Text.IntRoundTrip` | app.py:22 | The decimal text of any integer, as written into "HTTP {code}" and by `str(url)`, parses back to that integer. |
| `Text.IntToDecimal` | app.py:22 | `str(n)` for an integer, as in `f"HTTP {code}"` and in `str(url)` at app.py:52: a minus sign for negative values, then the shortest decimal numeral of the magnitude. The result is never empty; `Text.IntRoundTrip` states that it reads back to `n`. |
| `Text.IntToDecimalInjective` | app.py:22 | A sanity property of the `str(n)` abstraction: distinct integers have distinct decimal texts. `Status.SameMessageSameResponse` uses the same fact through `Text.IntRoundTrip`. |
| `Frame.CellText` | app.py:52 | `str(url)` of a `domain` cell: text as is, an integer in decimal, a missing cell as `nan`. |
| `App.UrlOf` | app.py:52 | The URL a row is checked at: `str(url).strip()`, that is `Text.Strip` of `Frame.CellText`. |
| `App.EndsWith` | app.py:38-40 | `str.endswith(suffix)`: the suffix is no longer than the name and equals the name's last characters. |
| `App.FormatOf` | app.py:38-43 | A name ending in `.csv` is read as CSV. Otherwise a name ending in `.xlsx` is read as XLSX. Any other name has no format. Each case holds in both directions. |
| `App.CodeCell` | app.py:53-56 | A stored status code is missing exactly when the check returned no code. |
| `App.CheckAll` | app.py:48-54 | The two lists have one entry per `domain` cell. Entry i of each is the code and the message of classifying the response for `strip(str(domain[i]))`, in row order. |
| `Frame.WithColumn` | app.py:56-57 | Assigning a column keeps the table well formed and keeps its height. An existing column is overwritten in place; a new one is added at the end. The named column holds the given cells, and every other column is unchanged. |
| `Frame.Records` | app.py:65 | There is one record per row. Each record's keys are the table's columns, and its values are that row's cells. |
| `App.Annotate` | app.py:48-57 | The annotated table is well formed, has the input's row count and has both new columns. Row i holds the code and the message of checking row i's `domain` cell. |
| `App.AnnotateKeepsTable` | app.py:56-57 | The input's columns are a prefix of the output's. The output's column set is the input's plus exactly `status_code` and `message`. Every other original column keeps its cells. |
| `App.AnnotateFromLists` | app.py:51-57 | Attaching the loop's two lists as columns gives exactly the annotated table. |
| `App.AnnotatedRecordsKeepRows` | app.py:56-65 | The stored records are as many as the input rows and in the same order. Each record's keys are the input's columns plus the two new ones. Each record keeps its row's original cells, including the unstripped `domain`. |
| `App.AnnotatedRecordsCarryOutcomes` | app.py:51-65 | Record i carries row i's code and message, and every record is consistent. |
| `App.Entry` | app.py:82-89 | The single-check record has exactly the keys `domain`, `status_code` and `message`. Its `domain` is the URL as submitted. Its code and message come from checking the stripped URL. It is consistent. |
| `App.Service.constructor` | app.py:9 | The service starts with an empty result set and no report. |
| `App.Service.Upload` | app.py:30-66 | An empty file name gives 400 "No file uploaded". An unsupported suffix gives 400 "Unsupported file format". A table without `domain` gives 400 "Missing 'domain' column". Each of these refusals leaves both the report and the results unchanged. Otherwise the handler redirects to `/results`, and both the report and the results are replaced by the same annotated table. The invariant is kept. |
| `App.Service.CheckUrl` | app.py:76-96 | With no URL or an empty one, the results are unchanged. With a URL, the results become exactly the one new record, and earlier records are discarded. The report is never modified, and the handler always redirects to `/results`. |

## Left out

- The HTTP GET (`requests.get` with its 5-second timeout) is network I/O. Its outcome is the parameter `network`. The function form assumes a URL gets the same answer each time it is requested within one call.
- Exceptions from inside `check_status` other than `RequestException` are not modelled. In `upload` they would reach the generic 500 handler. In `check_url` (app.py:82), which has no `try`, they would become Flask's default 500 with the session unchanged.
- pandas parsing and writing (`read_csv`, `read_excel`, `to_excel`, `to_dict`) are foreign library calls. A parsed file is the parameter `parse`, and the report buffer holds the abstract table rather than XLSX bytes.
- pandas dtype coercion is not modelled. An integer column that contains a missing value becomes float (`200.0`). All numbers are treated as integers, and `NaN`/`None` as one missing cell.
- Cells are text, integers or missing only. Float, boolean and datetime cells are not modelled, so `str(1.5)`, `str(True)` or the text of a `Timestamp` cannot be expressed.
- A record is a map, so the key order of the dicts from `to_dict(orient='records')` (app.py:65) and of `new_entry` (app.py:85-89) is not modelled. Column order is kept only in the table's `columns`.
- The 500 path (`except Exception`, app.py:68-69) is not modelled. It fires when the library calls above fail, or when `check_status` raises something other than `RequestException`. Such a failure is not always harmless. app.py:60 rebinds the report buffer to an empty `BytesIO()` before `to_excel` writes it at app.py:61. So a failure inside `to_excel` leaves `/download` serving an empty or partial file, even though the results are unchanged.
- A request with no `file` field at all is not modelled. Flask rejects it itself before the handler's own check. The model covers only the empty file name (app.py:34-35).
- Flask plumbing is not modelled: routing, templates, `redirect`/`url_for` beyond the redirect target, cookie-session mechanics, `app.run`, the `/` and `/results` pages, and the `/download` stream (app.py:98-107).
- The process-wide report buffer is shared between concurrent requests, and those races are not modelled. The model is one sequential state object.
- Emoji in the messages are kept as their exact code points but have no further meaning in the model.
