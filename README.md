# Data-view lister, modelled in Dafny

The script `el.py` lists the saved Kibana data views of an Elasticsearch cluster. It does four things:

1. It connects to the cluster and pings it.
2. It searches the `.kibana` index for documents with `type.keyword == "index-pattern"`.
3. It turns each hit into a row with the columns **ID**, **Title**, **Time Field** and **Field Count**.
4. It prints the rows as a grid table.

Nearly all of this is calls into the Elasticsearch client and the `tabulate` library. This project models the logic between those calls:

- **`DataViews`** (`data_views.dfy`) is the record mapper of el.py:35-49.
  - A hit is a datatype whose keys are `Option`s.
  - `Project` is the `try` body for one hit. It yields a `Row`, or the first key whose lookup raises `KeyError`. Keys are looked up in the order `_source`, `attributes`, `_id`, `title`.
  - `BuildRows` is the `for` loop. It appends rows to a `seq<Row>` and diagnostic lines to a `seq<string>`, and is proved equal to the recursive specifications `Rows` and `Diagnostics`.
  - The lemmas state which hits become rows, in what order, what each column holds, and what is printed for each skipped hit.
- **`Script`** (`script.dfy`) is the decision procedure of el.py:10-62.
  - The outcomes of the ping and of the search are datatypes: `PingOutcome` and `SearchOutcome`. An exception carries its class and its `str()` text.
  - `Run` maps them to a `Report`: the printed lines and the exit status. The table is the abstract line `Table(rows)`, not text.
  - `Execute` is the same run written as the script executes. It returns early where the script calls `sys.exit(1)`, and it processes the hits with the `BuildRows` loop.
- **`Wrappers`** (`wrappers.dfy`) holds `Option` and `Result`. `Option.GetOr` is Python's `dict.get(key, default)`.

Behaviour of el.py worth knowing:

- The diagnostic for a missing key prints `str(KeyError(key))`, which Python renders as the key in single quotes: `Missing expected key in document: 'title'`. Distinct keys give distinct lines (`MissingKeyLineNamesKey`).
- The `KeyError` handler (el.py:47-49) covers every lookup in the `try` block: `_source`, `attributes`, `_id` and `title`. A hit lacking any of them is skipped with one diagnostic and the loop continues.
- `timeFieldName` is read with a default (el.py:43), so no diagnostic can name it. The assertion at unittest.py:119 expects one; `NeverMissingTimeFieldName` proves that this line is never printed.
- An exception raised by `search()` always goes to the inner handlers (el.py:27-32), an `AuthenticationException` or a `ConnectionError` included, so it prints the search-error message.
- An exception raised while building the client or pinging goes to the outer handlers (el.py:54-62): a connection error, an authentication error, or the catch-all "An unexpected error occurred".
- A response without `hits.hits` raises `KeyError('hits')` outside the per-hit `try`, so the outer catch-all prints `An unexpected error occurred: 'hits'` and the run exits 1.
- The run is deterministic: `Run` is a function of the two outcomes, so two runs that receive the same ping and search outcomes print the same report.

## Model

| member | source | states |
|---|---|---|
| DataViews.MissingKeyLineNamesKey | el.py:47-48 | two skipped hits print the same diagnostic only when they miss the same key: each line names its key unambiguously |
| DataViews.Rows | el.py:35-49 | the loop collects at most one row per hit |
| DataViews.Diagnostics | el.py:47-49 | the loop prints at most one diagnostic per hit |
| DataViews.Where | el.py:36 | the selected hit positions lie inside the hit list |
| DataViews.BuildRows | el.py:35-49 | the append loop produces exactly the rows `Rows(hits)` and prints exactly the lines `Diagnostics(hits)` |
| DataViews.ProjectOkIffRequiredKeys | el.py:37-46 | a hit yields a row if and only if `_source`, `attributes`, `_id` and `title` are all present |
| DataViews.ProjectReportsFirstMissing | el.py:38-42 | the key reported for a skipped hit is the first missing one in the order `_source`, `attributes`, `_id`, `title`, in both directions |
| DataViews.ProjectRowColumns | el.py:41-44 | ID and Title are copied verbatim; Time Field is `timeFieldName` or "N/A" when absent; Field Count is the length of `fields` or 0 when absent |
| DataViews.RowsPlusDiagnostics | el.py:36-49 | every hit gives exactly one row or exactly one diagnostic line, so rows plus diagnostics equal the hit count |
| DataViews.WhereSelects | el.py:36 | the hit positions kept or skipped ascend strictly and are exactly those whose projection succeeds or fails |
| DataViews.RowsFollowHits | el.py:35-46 | the rows are the projections of exactly the hits with every required key, in input order, with no re-sorting |
| DataViews.DiagnosticsFollowHits | el.py:47-49 | the diagnostics are one line per skipped hit, in input order, each naming that hit's first missing key |
| DataViews.AllHitsComplete | el.py:36-46 | if every hit has its required keys, the row count equals the hit count, row i comes from hit i, and no diagnostic is printed |
| DataViews.MissingKeyLineNeverTimeFieldName | el.py:43 | no missing-key diagnostic can name `timeFieldName` |
| DataViews.NeverMissingTimeFieldName | el.py:43 | over any hit list, no printed diagnostic names `timeFieldName` |
| Script.Execute | el.py:10-62 | the script's early-exit control flow, with the hit loop of `BuildRows`, produces exactly the report `Run` describes |
| Script.UnreachableFails | el.py:18-19 | a ping returning false prints exactly "Connection error: Failed to connect to Elasticsearch cluster." (through the handler at el.py:54-56) and exits 1, for every search outcome |
| Script.AuthenticationFailsAtPing | el.py:57-59 | an authentication error while connecting or pinging prints "Authentication failed: " followed by its text, and exits 1 |
| Script.PingErrorsFail | el.py:54-62 | a `ConnectionError` while connecting or pinging prints "Connection error: " followed by its text; any exception other than a connection or authentication error prints "An unexpected error occurred: " followed by its text; each exits 1 |
| Script.NoSearchUnlessReachable | el.py:18-26 | unless the ping succeeds, the run prints one line, exits 1, and does not depend on the search outcome: no search is made |
| Script.SearchErrorsFail | el.py:22-32 | a missing index prints exactly "Index '.kibana' not found."; any other search error, authentication included, prints "An error occurred while searching: " followed by its text; both exit 1 with no rows |
| Script.SuccessIff | el.py:34-52 | the exit status is 0 exactly when the ping succeeds and the response holds a hit list; the printed lines are then the diagnostics in hit order followed by the table of `Rows(hits)` |
| Script.TableOnlyOnSuccess | el.py:10-62 | a failing run prints exactly one message line and exits 1; a table is printed only on success, once, as the last line |
| Script.MissingHitListFails | el.py:60-62 | a response without `hits.hits` prints "An unexpected error occurred: 'hits'" and exits 1 |
| Script.AllCompleteRun | el.py:35-52 | when every hit has its required keys, only the table is printed, with one row per hit in hit order |
| Script.SingleHitRun | el.py:35-52 | a one-hit response prints that hit's diagnostic, if it has one, followed by a table holding its row, if it has one |
| Script.FullHitScenario | unittest.py:12-40 | id "1", title "Test Title", timeFieldName "timestamp" and two fields give the single row (1, Test Title, timestamp, 2) |
| Script.TitleOnlyScenario | unittest.py:96-110 | a hit with only a title gives the row (1, Test Title, N/A, 0) and no diagnostic |
| Script.MissingTitleScenario | el.py:42-48 | a hit without a title prints "Missing expected key in document: 'title'" followed by an empty table, and exits 0 |

## Left out

- Building the client, and the ping and search transport (el.py:1-6, 12-15, 23-26), are network calls into the Elasticsearch client. They appear only as the outcome values `PingOutcome` and `SearchOutcome`.
- The text layout of the table (el.py:7, 52) comes from the `tabulate` library. The table is the abstract line `Table(rows)`; its columns are the four fields of `Row`.
- `print` and `sys.exit` are not performed. A run returns its printed lines and its exit status as a `Report`.
- The hard-coded endpoint and credentials (el.py:13-14) are configuration, not logic.
- `str()` of a client exception is a text the library formats. Each error carries that text as given.
- UnreachableFails: assumes that `str()` of the client library's `ConnectionError("Failed to connect to Elasticsearch cluster.")` is its bare argument. The library's source is not part of this model; the expectation at unittest.py:55 is the only evidence for that format.
- Values of other JSON types are not modelled; every present key holds a string, `fields` a list. In the code:
  - a `fields` value that is a string or a dictionary is counted by `len()` (its characters or its entries);
  - a present `_id`, `title` or `timeFieldName` holding `None` is copied into the row as `None`, so Time Field is then `None`, not "N/A";
  - a `fields` value of `None` or a number, or a hit, `_source` or `attributes` that is not a dictionary, raises `TypeError`; that escapes the per-hit `try` and ends the run through the catch-all at el.py:60-62 with "An unexpected error occurred: …" and exit status 1.
- The search sends no page size, so only the server's default first page of hits is processed. The model takes whatever hit list the response holds.
