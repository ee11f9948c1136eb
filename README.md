# Query gating and usage accounting

A model of the `/ask` pipeline of a small Flask application that answers
questions about BCA (Bachelor of Computer Applications) topics. A request is
answered only when a user is logged in, the request carries a non-empty
query, and the query passes a keyword-based domain filter. An accepted query
goes to an external chat-completion service. Its fixed energy and CO2 cost
estimate is appended to the `query_logs` table. The response reports the
user's count and totals for the current day.

Modules:

- `Classifier` (classifier.dfy): the keyword list and `is_bca_related`.
  `IsBcaRelated` is computed by scanning substrings. It is proved equal to
  "some keyword occurs in the lower-cased query". The file also proves case
  insensitivity and the over-matching of the short keywords "c", "ai" and
  "os". It proves that 12 of the 30 keywords never change a decision, because
  each of them contains "c", "sql" or "oop".
- `ClassifierExamples` (classifier.dfy): "What is DBMS" is accepted and
  "weather today" is rejected.
- `Usage` (usage.dfy): the cost constants (exact `real`s), the log entry and
  the daily summary. `Summarize` computes the summary in one pass over the
  log. It is proved equal to a filter-then-count-and-sum reference. The
  `Ledger` class holds the table as a `seq<Entry>`. `Record` is the INSERT.
  `DailyAggregate` is the `COUNT`/`SUM` query, with SQL's NULL sum over no
  rows.
- `Orchestrator` (orchestrator.dfy): the `Gateway` class stands for the
  completion service. Its `complete` function gives the model's answer. It
  logs every request in `sent`, so "the model was not called" means `sent`
  is unchanged. `Admit` is the three checks before the model call. `AskAi`
  is `ask_ai` as an imperative method over the ledger and the gateway.
- `AskScenarios` (scenarios.dfy): client code that checks end-to-end request
  sequences (rejections, a first query, another user's queries, the next day)
  against `AskAi`'s contract alone.

The logged-in user is an `Option<string>`. The request's `query` field is an
`Option<string>` (missing or JSON null is `None`). The external model is the
function held by `Gateway`.

The database clock is read twice: once for the new row's `created_at` and
once for `CURDATE()` in the aggregate query. `AskAi` therefore takes two
days, `insertDay` and `reportDay`. The promise that the report includes the
row just written (`count >= 1`) holds when the two days are equal. When a
request crosses midnight between the two statements, the new row is written
for the earlier day and is not counted. `AskAi`'s contract states that case
too.

## Model

| member | source | states |
|---|---|---|
| Classifier.IsSubstring | app.py:104 | `keyword in query`: true exactly when the keyword stands at some offset of the query |
| Classifier.AnyKeywordIn | app.py:104 | `any(...)` over a keyword list: true exactly when some listed keyword occurs in the text |
| Classifier.IsBcaRelated | app.py:102-104 | `is_bca_related` is true exactly when some entry of the keyword list occurs as a contiguous substring of the lower-cased query; it is total |
| Classifier.LowerProperties | app.py:103 | lower-casing keeps the length, leaves no upper-case letter and leaves every other character alone |
| Classifier.LowerIdempotent | app.py:103 | lower-casing twice is lower-casing once |
| Classifier.CaseInsensitive | app.py:102-104 | queries that lower-case alike are classified alike, and a query is classified like its lower-cased form |
| Classifier.ShortKeywordsOverMatch | app.py:87-104 | any query whose lower-cased form contains the letter "c", or "ai" or "os" at any position, inside any word, is accepted |
| Classifier.CoveredByCore | app.py:87-101 | every keyword contains one of the 18 core keywords |
| Classifier.CoreKeywordsSuffice | app.py:87-104 | the classifier gives the same answer over the 18 core keywords alone, so 12 listed keywords never change a decision |
| Classifier.EmptyNotRelated | app.py:102-104 | the empty query is never in the domain |
| ClassifierExamples.DbmsQueryAccepted | app.py:102-104 | "What is DBMS" is accepted ("dbms" after lower-casing) |
| ClassifierExamples.WeatherQueryRejected | app.py:102-104 | "weather today" matches no keyword and is rejected |
| Usage.EstimateCost | app.py:144-145 | every accepted query costs 0.00034 kWh, and its CO2 is that energy times the emission factor 0.7, i.e. 0.000238 kg |
| Usage.Matching | app.py:157-161 | the `WHERE username = u AND DATE(created_at) = d` filter keeps exactly the entries of that user and day |
| Usage.MatchingMultiplicity | app.py:157-161 | the filter keeps each matching row as many times as it occurs in the table and no other row, so equal rows (the same question asked twice on one day) each count under `COUNT(*)` |
| Usage.SummarizeIsFilteredSum | app.py:157-163 | the daily count is the number of that user's entries on that day, and the totals are the sums of their energy and CO2 |
| Usage.SummarizeAppend | app.py:148-161 | appending a row adds it to the summary of its own user and day and changes no other summary |
| Usage.SummarizeIgnores | app.py:157-161 | a row of another user or of another day never contributes, wherever it stands in the log |
| Usage.SummarizeZero | app.py:163-172 | the summary is zero exactly when the user has no row that day, and then both totals are 0 |
| Usage.SummarizeCosted | app.py:144-161 | over rows written with the cost model, energy total = count × 0.00034 and CO2 total = energy total × 0.7 |
| Usage.SummarizeRun | app.py:144-161 | N further rows of the same user and day raise the count by N and the totals by N times the per-query cost |
| Usage.Ledger.Record | app.py:148-154 | the INSERT appends exactly one row with the given fields; earlier rows are unchanged |
| Usage.Ledger.DailyAggregate | app.py:156-163 | `COUNT(*)` is the number of matching rows; each `SUM` is NULL when there are none and otherwise the sum over them |
| Orchestrator.Admit | app.py:107-121 | the login check comes first, then the missing or empty query check, then the domain filter; each failure gives its fixed message, and a request passes exactly when all three pass |
| Orchestrator.EmptyQueryFailsBothChecks | app.py:114-121 | an empty query gets the input-error message, though the domain filter would have rejected it too |
| Orchestrator.Gateway.Complete | app.py:124-141 | one outbound request naming "openai/gpt-3.5-turbo" with the query as the single user message; the answer is the model's reply |
| Orchestrator.AskAi | app.py:106-174 | a rejection returns its fixed message and leaves the ledger and the gateway log unchanged. An acceptance sends one request and appends one row (session user, query, answer, 0.00034, 0.000238). It returns the answer, the engine label and that user's summary for the report day. The summary counts the new row (count >= 1) when both clock readings give the same day. If every row carried the cost figures before the call, every row still does after it, and the reported totals are then the count times the per-query cost |

## Left out

- Login, signup, logout and the `/index` page: session and credential handling with password hashing from an external library. The model takes the logged-in user as an `Option<string>`.
- The admin listing (`SELECT * ... ORDER BY created_at DESC` plus template rendering): no logic beyond the read.
- The HTTP call to the completion service and the JSON extraction of `choices[0].message.content`: network I/O. The answer is a total function held by `Gateway`.
- Failures the code does not catch: network errors, a non-2xx reply, a reply without the expected JSON path, database errors. Each one aborts the request with a server error. In the code the INSERT comes after the model call, so a model failure writes no row, but the model does not capture the aborted request.
- Request bodies that are not a JSON object (not JSON at all, or `null`, an array or a bare value, where `data.get` fails), or whose `query` is not a string (for example a number): the model takes the field as an optional string.
- `round(..., 6)` on the reported totals and Python's floating-point arithmetic: the model reports exact `real` sums.
- Python's Unicode `str.lower`: only ASCII letters are lower-cased.
- Usage.Matching: usernames are compared as exact strings. The source's `username=%s` compares under the column's collation, which in MySQL's default collations ignores case (and accents). The session user is the text typed at login, and the login lookup finds the account under the same collation, so one account that logs in once as "ASHA" and once as "asha" has its rows summed together by the source but kept apart by the model. Collations are not modelled.
- MySQL itself, cursors, commits, and the `DATE`/`CURDATE` functions: the table is an in-memory sequence and each clock reading is a day parameter.
- Concurrent requests and isolation between them: each call of `AskAi` runs to completion on its own.
- Flask configuration, the secret key, environment loading and `app.run`.
