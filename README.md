# Vulnerability scanner dashboard: scan-session logic

This project models the decision rules and state bookkeeping of a
web-vulnerability scanner dashboard in Dafny, and proves properties of
that model. The dashboard is a React front end over a FastAPI back end.
There are three parts:

- **The scanner page** (`ScannerPage`, with string built-ins in `JsStrings`):
  - the keyword classifier that picks the attack to visualise (SQL injection, XSS or man-in-the-middle);
  - the simulated progress ticker and its stage display;
  - the severity colour table and the summary badge;
  - the fixed vulnerability catalog;
  - the start-button guard;
  - the editable list of target inputs;
  - the signed-in user's list of saved URLs.
- **The full-scan endpoint** (`Backend`):
  - input precedence (URL, then file, then error);
  - the sequential connections between crawled endpoints;
  - the integer threat level;
  - the vulnerabilities table;
  - the attack-path guard;
  - the single alert;
  - the lazily loaded model.
- **The scan context** (`ScanContext`):
  - `triggerScan` builds the posted form from the options that are present;
  - it then moves `loading`, `error` and `scanResult` through their fixed sequence.

The files:

- `wrappers.dfy`: `Option`.
- `strings.dfy`: the JavaScript string operations the page relies on: `includes`, `toLowerCase`, `join('')` and `trim`.
- `scanner.dfy`: the scanner page.
  - Pure rules are functions with lemmas.
  - `useState` fields are modelled by two classes whose methods update them, `Scanner` and `SavedUrlPanel`.
  - `Scanner.RunTicker` models the interval loop as a `while` loop.
- `backend.dfy`: the endpoint's pure assembly steps as functions, plus `Server`. `Server` is the module-level model cache, together with `FullScan`, a method that follows the handler step by step with the corrected endpoint lookup of the Findings table; `FullScanResponseAsWritten` is the answer with the lookup as written.
- `context.dfy`: the form builder (one conditional append per option) and `ScanProvider`, the context state.

Everything the code reaches outside itself is a parameter:

| external dependency | modelled as |
|---|---|
| Firebase authentication and Firestore | the signed-in user and the stored list, handed to the methods; an add or delete outcome |
| the platform URL parser | an abstract `isValidUrl` predicate |
| `fetch` and `res.json()` | one `FetchOutcome` value |
| the crawler, preprocessor, ML model, graph library and path finder | function parameters; the predictor and path finder return `None` when they raise, the others are taken to return (see Left out) |
| `Math.random()` | a `real` roll in [0, 1) |

## Model

| member | source | states |
|---|---|---|
| JsStrings.Contains | src/pages/ScannerPage.tsx:194-198 | `includes`: true exactly when the word occurs at some position of the text |
| JsStrings.ToLower | src/pages/ScannerPage.tsx:193 | lower-casing keeps the length and maps each character independently |
| JsStrings.ToLowerConcat | src/pages/ScannerPage.tsx:193 | lower-casing the joined text is joining the lower-cased parts |
| JsStrings.ToLowerIdempotent | src/pages/ScannerPage.tsx:193 | lower-casing twice changes nothing further |
| JsStrings.PartOccurrenceSurvivesJoin | src/pages/ScannerPage.tsx:193 | a word found in one lower-cased target is found in the lower-cased concatenation of all targets |
| JsStrings.Join | src/pages/ScannerPage.tsx:193 | `join('')`: the parts one after another; `JoinSlice` states that part k is the slice of the result starting at the total length of the parts before it |
| JsStrings.TrimStart | src/pages/ScannerPage.tsx:405 | the result is a suffix; everything cut off is whitespace, and the result starts with a non-whitespace character or is empty |
| JsStrings.TrimEnd | src/pages/ScannerPage.tsx:405 | the result is a prefix; everything cut off is whitespace, and the result ends with a non-whitespace character or is empty |
| JsStrings.Trim | src/pages/ScannerPage.tsx:405 | `trim()`: `TrimEnd` of `TrimStart`; its empty case is characterised by `TrimEmptyIffBlank` |
| JsStrings.TrimEmptyIffBlank | src/pages/ScannerPage.tsx:405 | `trim()` gives `""` if and only if every character is JavaScript whitespace |
| ScannerPage.RandomIndex | src/pages/ScannerPage.tsx:203 | `Math.floor(Math.random() * n)` is a valid index below n |
| ScannerPage.FirstMentioned | src/pages/ScannerPage.tsx:194-199 | the chosen attack is in the order, its keywords occur, and no attack before it in the order is mentioned; there is none exactly when no attack's keywords occur |
| ScannerPage.Classify | src/pages/ScannerPage.tsx:193-204 | the three keyword tests on the lower-cased joined targets, then `types[Math.floor(roll * 3)]`; characterised by `ClassifyIsFirstMention` |
| ScannerPage.ClassifyIsFirstMention | src/pages/ScannerPage.tsx:193-204 | the attack is the first of Sql, Xss, Mitm whose keywords occur in the lower-cased joined targets, else the random pick from the three |
| ScannerPage.ClassifyDeterministicOnKeyword | src/pages/ScannerPage.tsx:194-199 | once any keyword occurs, the random number does not affect the result |
| ScannerPage.SqlKeywordInAnyTarget | src/pages/ScannerPage.tsx:193-195 | `login` or `auth` in any one target gives SQL injection |
| ScannerPage.KeywordSpansTargets | src/pages/ScannerPage.tsx:193-195 | a keyword can span two targets: neither `lo` nor `gin` mentions a keyword, but together they give SQL injection |
| ScannerPage.RandomPickCoversAll | src/pages/ScannerPage.tsx:200-204 | with no keyword, each of the three attacks comes out for some roll |
| ScannerPage.Increment | src/pages/ScannerPage.tsx:215 | one tick adds between 1 and 10 |
| ScannerPage.IncrementCoversRange | src/pages/ScannerPage.tsx:215 | every increment from 1 to 10 is possible |
| ScannerPage.NextProgress | src/pages/ScannerPage.tsx:208-216 | the progress updater: 100 once the previous value is 100 or more, else the previous value plus one increment; bounded by `TickBounds` |
| ScannerPage.TickBounds | src/pages/ScannerPage.tsx:208-216 | below 100 a tick strictly raises progress by at most 10, never past 109; the tick that stops is exactly the one that sees 100 or more, and it returns 100 |
| ScannerPage.TickOvershoots | src/pages/ScannerPage.tsx:209-215 | from 99 a tick may show 109, and the stopping tick then lowers it to 100 |
| ScannerPage.Highlighted | src/pages/ScannerPage.tsx:450-455 | one flag per stage box, box i lit when `progress >= (i+1)*25-10`; four flags, whose shape `HighlightedIsPrefix` states |
| ScannerPage.HighlightedIsPrefix | src/pages/ScannerPage.tsx:450-455 | stage box i is lit iff `progress >= (i+1)*25-10`, and the lit boxes are always a prefix of the four |
| ScannerPage.ShownTexts | src/pages/ScannerPage.tsx:464-467 | the status lines whose conditions hold, in page order; `ExactlyOneStageText` shows there is always exactly one |
| ScannerPage.ExactlyOneStageText | src/pages/ScannerPage.tsx:464-467 | for every progress value exactly one status line shows, the one for its 25-wide bucket |
| ScannerPage.SeverityColor | src/pages/ScannerPage.tsx:221-229 | `getSeverityColor`: the four listed colours, grey otherwise; characterised by `SeverityColorsDistinct` and `UnknownSeverityColor` |
| ScannerPage.SeverityColorsDistinct | src/pages/ScannerPage.tsx:221-229 | the four known severities get four different colours, none of them the default |
| ScannerPage.UnknownSeverityColor | src/pages/ScannerPage.tsx:221-229 | any other string gets the grey default |
| ScannerPage.BadgeLabel | src/pages/ScannerPage.tsx:510-512 | the badge text Critical, High or Medium for sql, xss or mitm; related to the severity table by `BadgeAgreesWithSeverityColor` |
| ScannerPage.BadgeClass | src/pages/ScannerPage.tsx:504-508 | the badge colour for each attack; `BadgeAgreesWithSeverityColor` shows it is `getSeverityColor` of the badge's severity |
| ScannerPage.BadgeAgreesWithSeverityColor | src/pages/ScannerPage.tsx:504-512 | the badge reads Critical, High or Medium for sql, xss or mitm; its colour is the severity table's colour for that severity |
| ScannerPage.CveLabel | src/pages/ScannerPage.tsx:586 | the CVE line is never empty, and it is the entry's CVE whenever that is non-empty |
| ScannerPage.CatalogIdsUnique | src/pages/ScannerPage.tsx:41-84 | the catalog's ids, which key the rendered rows, are pairwise distinct |
| ScannerPage.CatalogColorsKnown | src/pages/ScannerPage.tsx:41-84 | no catalog entry's badge falls back to the default colour |
| ScannerPage.StartDisabled | src/pages/ScannerPage.tsx:405 | `isScanning \|\| targets[0].trim() === ""`; characterised by `StartEnabledIff` |
| ScannerPage.StartEnabledIff | src/pages/ScannerPage.tsx:405 | the start button is enabled iff no scan runs and the first target has a non-whitespace character |
| ScannerPage.StoreFailure | src/pages/ScannerPage.tsx:143 | the failure message is the fixed prefix `Failed to add URL: ` followed by the error's message, or by `Unknown error` when that is empty |
| ScannerPage.AddUrl | src/pages/ScannerPage.tsx:120-145 | the add-URL handler on values: the three checks in order, then the store outcome; characterised by `AddUrlOutcome` and `AddUrlKeepsDistinct` |
| ScannerPage.AddUrlOutcome | src/pages/ScannerPage.tsx:120-145 | the list grows by exactly the new entry iff signed in, URL valid, URL new and storing succeeds; otherwise the list is unchanged and one error shows; no user, invalid URL and duplicate each give their own message, checked in that order; success shows the added message, and a failed store shows `StoreFailure` of the error's message |
| ScannerPage.AddUrlKeepsDistinct | src/pages/ScannerPage.tsx:133-139 | a list without duplicate URLs stays without them after an add |
| ScannerPage.RemoveById | src/pages/ScannerPage.tsx:152 | an entry is kept iff it was in the list and its id differs |
| ScannerPage.RemoveByIdSplits | src/pages/ScannerPage.tsx:152 | the filter distributes over concatenation, so the kept entries keep their order |
| ScannerPage.RemoveAbsentId | src/pages/ScannerPage.tsx:152 | removing an id no entry has changes nothing |
| ScannerPage.RemoveKeepsDistinct | src/pages/ScannerPage.tsx:152 | removal keeps a duplicate-free list duplicate-free |
| ScannerPage.SavedUrlPanel.Valid | src/pages/ScannerPage.tsx:96-104 | signed out, no saved URLs are shown; required and ensured by every method of the panel |
| ScannerPage.SavedUrlPanel.constructor | src/pages/ScannerPage.tsx:87-91 | no user, no saved URLs, empty input box, no messages |
| ScannerPage.SavedUrlPanel.AuthStateChanged | src/pages/ScannerPage.tsx:96-104 | a user brings their stored list; signing out empties it; nothing else changes |
| ScannerPage.SavedUrlPanel.EditNewUrl | src/pages/ScannerPage.tsx:278 | the input box holds the typed value |
| ScannerPage.SavedUrlPanel.HandleAddUrl | src/pages/ScannerPage.tsx:120-145 | list, messages and input box become what `AddUrl` gives for the old state; the box is cleared only on success; the user is unchanged; duplicate-freedom is kept |
| ScannerPage.SavedUrlPanel.HandleRemoveUrl | src/pages/ScannerPage.tsx:148-154 | without a user or if the delete fails the list is unchanged; otherwise the id is filtered out |
| ScannerPage.Scanner.constructor | src/pages/ScannerPage.tsx:156-163 | one empty target, not scanning, progress 0, not complete, idle visualisation |
| ScannerPage.Scanner.AddTarget | src/pages/ScannerPage.tsx:166-168 | one empty input is appended |
| ScannerPage.Scanner.UpdateTarget | src/pages/ScannerPage.tsx:171-175 | only input `index` changes, to the value, and the count stays |
| ScannerPage.Scanner.RemoveTarget | src/pages/ScannerPage.tsx:178-184 | input `index` is spliced out when more than one is left, otherwise nothing changes; there is always an input |
| ScannerPage.Scanner.StartScan | src/pages/ScannerPage.tsx:187-204 | scanning, not complete, progress 0, visualisation the classifier's choice |
| ScannerPage.Scanner.PressStart | src/pages/ScannerPage.tsx:404-405 | a press starts a scan exactly when the button is enabled, and otherwise changes nothing |
| ScannerPage.Scanner.Tick | src/pages/ScannerPage.tsx:208-216 | progress becomes the updater's value; the tick that sees 100 or more stops the run and marks it complete |
| ScannerPage.Scanner.RunTicker | src/pages/ScannerPage.tsx:207-217 | whatever the random numbers, the interval clears itself after 1 to 101 ticks, with the run complete at exactly 100 |
| Backend.Connections | backend/main.py:52 | n-1 connections for n > 1 endpoints (none otherwise), connection i linking endpoint i to endpoint i+1 |
| Backend.ConnectionsFormPath | backend/main.py:52 | the connections form one chain from the first endpoint to the last |
| Backend.ThreatLevel | backend/main.py:88 | `int(100 * sum(preds) / len(preds)) if preds else 0`, truncating toward zero; bounded by `ThreatLevelIsPercentage` and `ThreatLevelExtremes` |
| Backend.BinarySumBounds | backend/main.py:88 | the sum of 0-or-1 predictions lies between 0 and their number |
| Backend.ThreatLevelIsPercentage | backend/main.py:88 | for 0-or-1 predictions the threat level lies between 0 and 100 |
| Backend.ThreatLevelExtremes | backend/main.py:88 | all ones give 100, all zeros give 0 |
| Backend.Zeros | backend/main.py:76 | the fallback predictions have one 0-or-1 entry per row |
| Backend.FallbackThreatLevel | backend/main.py:73-88 | the fallback predictions give threat level 0, including for an empty frame |
| Backend.Digits | backend/main.py:92 | `str` of a natural number is a non-empty string of decimal digits |
| Backend.DigitsRoundTrip | backend/main.py:92 | reading the digits of n back gives n |
| Backend.DecimalRoundTrip | backend/main.py:92 | `int(str(n)) == n` for every integer |
| Backend.VulnerabilityRows | backend/main.py:91-94 | as many rows as the shorter of endpoints and predictions; row i has endpoint i, score prediction i, and a label that reads back as that prediction |
| Backend.AlertFor | backend/main.py:105-111 | the three-way conditional alert; characterised by `AlertThresholds` |
| Backend.AlertThresholds | backend/main.py:105-111 | critical iff the level is above 75, warning iff above 40 and at most 75, info otherwise |
| Backend.SelectInput | backend/main.py:48-65 | a non-empty URL wins, then a file; no input exactly when neither is present |
| Backend.FileEndpointsAsWritten | backend/main.py:61 | the endpoint lookup as written: the column if present, else the exception `.tolist()` raises on the list default |
| Backend.FileWithoutEndpointColumnFails | backend/main.py:61 | as written, a file without an `endpoint` column makes the request fail |
| Backend.RowNumbers | backend/main.py:61 | n endpoints numbered 0 to n-1 |
| Backend.FileEndpoints | backend/main.py:61 | the corrected lookup: the column if present, else the row numbers; characterised by `FileEndpointsCorrected` |
| Backend.FileEndpointsCorrected | backend/main.py:61 | the corrected lookup never fails, agrees with the code wherever the code succeeds, and numbers the rows otherwise |
| Backend.Prepare | backend/main.py:48-63 | the crawled endpoints with their sequential connections and a frame of them, or the uploaded file's frame, its endpoints (corrected lookup) and no connections, or nothing without input |
| Backend.Predictions | backend/main.py:73-76 | the model's predictions, or `[0] * len(df)` when predicting raises; the fallback's effect is `FailedPredictionReport` |
| Backend.AttackPaths | backend/main.py:80-85 | the path finder's answer from the first to the last endpoint when there are two or more, none when it raises; `NoPathsForOneEndpoint` states the guard |
| Backend.NoPathsForOneEndpoint | backend/main.py:80-85 | with at most one endpoint there are no attack paths, whatever the path finder would say |
| Backend.Analyse | backend/main.py:70-112 | steps 4 to 8 on a prepared input; characterised by `ReportShape` and `FailedPredictionReport` |
| Backend.FullScanResponse | backend/main.py:45-112 | the handler's answer with the corrected endpoint lookup; `UrlTakesPrecedence` and `NoInputIsError` state its input precedence |
| Backend.FullScanResponseAsWritten | backend/main.py:45-112 | the handler's answer as written, among the modelled failures: a crash for an upload without an `endpoint` column, otherwise `FullScanResponse` |
| Backend.CorrectionOnlyChangesMissingColumn | backend/main.py:48-65 | among the modelled failures, the code crashes iff the selected input is an upload without an `endpoint` column; on every other request the code and the corrected model give the same answer; on that one the corrected model reports on the row numbers |
| Backend.ReportShape | backend/main.py:70-112 | every report has exactly one alert, matching its threat level; one row per endpoint that has a prediction; the graph of the prepared endpoints; no paths for one endpoint; a level between 0 and 100 for 0-or-1 predictions |
| Backend.FailedPredictionReport | backend/main.py:73-76 | if the model raises, the report has threat level 0, an info alert and every score 0 |
| Backend.UrlTakesPrecedence | backend/main.py:48-55 | with a non-empty URL the file is ignored, and the graph is built from the crawled endpoints and their sequential connections |
| Backend.NoInputIsError | backend/main.py:64-65 | with neither a URL nor a file the answer is the input error |
| Backend.Server.constructor | backend/main.py:12 | no model is loaded |
| Backend.Server.GetModel | backend/main.py:14-18 | the first call loads and caches the model; later calls return the cached one without loading again |
| Backend.Server.FullScan | backend/main.py:45-112 | without input: the error, and the model is not loaded; otherwise the cached (or newly loaded) model is kept and the answer is the full-scan response for it |
| ScanContext.PresentFields | src/contexts/ScanContext.tsx:34-37 | every key with a truthy option contributes its entry; no entry has an empty value; the form is no longer than the key list (`FieldOrderForm` fixes it exactly over the four keys) |
| ScanContext.PresentFieldsOnlyTruthy | src/contexts/ScanContext.tsx:34-37 | every entry comes from a key whose option is truthy and carries that option's value |
| ScanContext.PresentFieldsKeepOrder | src/contexts/ScanContext.tsx:34-37 | the entries' names are a subsequence of the keys' names, so they keep the order url, scan_type, username, password |
| ScanContext.FieldOrderForm | src/contexts/ScanContext.tsx:34-37 | over the four keys the form is the url, scan_type, username and password entries in turn, each present iff truthy |
| ScanContext.BuildForm | src/contexts/ScanContext.tsx:33-37 | the four conditional appends give exactly the present fields in order |
| ScanContext.Settle | src/contexts/ScanContext.tsx:38-46 | how the `try` block ends for each request outcome; characterised by `SettleCases` |
| ScanContext.SettleCases | src/contexts/ScanContext.tsx:38-46 | the scan succeeds iff the response is ok and its body parses, yielding that body; a response that is not ok fails with "Scan failed"; a thrown request or an unreadable body fails with its own message |
| ScanContext.ErrorText | src/contexts/ScanContext.tsx:46 | the shown error is never empty, and is the message whenever that is non-empty |
| ScanContext.ScanProvider.constructor | src/contexts/ScanContext.tsx:23-26 | no result, no options, not loading, no error |
| ScanContext.ScanProvider.SetScanResult | src/contexts/ScanContext.tsx:23 | only the result changes |
| ScanContext.ScanProvider.SetScanOptions | src/contexts/ScanContext.tsx:24 | only the options change |
| ScanContext.ScanProvider.Begin | src/contexts/ScanContext.tsx:29-31 | loading, error cleared, options recorded, result kept |
| ScanContext.ScanProvider.Finish | src/contexts/ScanContext.tsx:42-48 | on success the result is the data; on failure the error is the message or "Unknown error" and the result is kept; loading ends on both paths |
| ScanContext.ScanProvider.TriggerScan | src/contexts/ScanContext.tsx:28-49 | while in flight: loading, no error, the new options, the old result; afterwards: the form holds the present fields in order, loading is off, and result or error follow the request's outcome |

## Left out

- Firebase sign-in, Firestore reads, writes and deletes, `fetch` and `res.json()`: I/O, so they are parameters (the signed-in user, the stored list, add and delete outcomes, a fetch outcome).
- The crawler, `preprocess_nsl_kdd`, the ML model, `build_graph` and `find_attack_paths`: libraries whose code is not part of this model. They are function parameters. The graph is what they report (nodes and edges).
- `backend/preprocessing.py`: file I/O over pandas; it is not part of this model.
- The other backend routes (`/crawl`, `/predict`, `/network/graph`, `/network/paths`, `/alert`) and `push_alert`: thin wrappers around those libraries.
- The temporary file write and `os.unlink` in the file branch of `fullscan`: file I/O.
- `isValidUrl`: it delegates to the platform URL parser, so it is an abstract predicate.
- `Math.random()` becomes a roll parameter in [0, 1). `setInterval`'s 800 ms timing, React's batching of state updates and the asynchronous interleaving of `await`s are not modelled. Each handler runs to completion on the state it started from.
- `Backend.ThreatLevel`: assumes `predict` returns a Python list of integers. If it returns a NumPy array of two or more elements, `if preds` at backend/main.py:88 raises `ValueError` (the truth value of an array is ambiguous) and the request fails; the model gives a threat level instead. The prediction module is not part of this model, so what `predict` returns is not known here. Floating-point rounding of `100 * sum / len` is not modelled either; the exact quotient is truncated toward zero.
- `JsStrings.ToLower`: lower-cases ASCII letters only. `toLowerCase` is Unicode-aware, and some non-ASCII letters lower-case to text containing ASCII letters: U+0130 becomes `i` followed by a combining dot, so `"APİ".toLowerCase()` contains `api` and the page predicts man-in-the-middle, while the model leaves U+0130 unchanged and falls through to the next test. On such targets the modelled classification can differ.
- The badge text and colour are defined for the idle visualisation (empty text, default colour), though the page never shows the badge while idle.
- The scan-type tabs, scan-depth slider and view-mode toggle: they set display state that no other logic reads.
- The buttons that switch the visualisation after a scan (src/pages/ScannerPage.tsx:232-264): the model has no method for them. They set `visualizationType`, which the summary badge (`BadgeLabel`, `BadgeClass`) reads.
- The JSX, the icons and the animation components: markup.
- `FormData`'s multipart encoding: the form is modelled as a sequence of name/value entries.
- The only re-entry guard for a scan is the disabled start button (src/pages/ScannerPage.tsx:405), which `Scanner.StartScan` expresses as its precondition `!isScanning`. The catalog is rendered in its listed order (src/pages/ScannerPage.tsx:577, 603); the rendering itself is not modelled.
- `Backend.FullScanResponseAsWritten`: the crawler (`crawl_website`, including a result without an `endpoints` key), `preprocess_nsl_kdd` and `pd.read_csv`, the model loader (`load_model` via `get_model`) and `build_graph` are taken to return. In the code nothing catches their exceptions, so any of them fails the request, and a failed `load_model` leaves the cache empty for the next request. Only `mdl.predict` and `find_attack_paths` are caught (backend/main.py:73-76, 82-85), and those two failures are modelled. So `Crashed` comes only from line 61, and `Backend.CorrectionOnlyChangesMissingColumn` speaks only of the modelled failures. The same holds for `Backend.FullScanResponse` and `Backend.Server.FullScan`.
- `Backend.Server.FullScan`: runs the corrected endpoint lookup (`Backend.FileEndpoints`). For an upload without an `endpoint` column, the code raises `AttributeError` at backend/main.py:61; the request then fails, and the model is neither fetched nor used. `FullScan` instead loads the model and answers with a report keyed by row numbers. `Backend.FullScanResponseAsWritten` gives the code's answer, and `Backend.CorrectionOnlyChangesMissingColumn` shows this is the only request on which the two differ.
- `ScannerPage.Classify`: the targets are joined with `''` before the keyword test, so a keyword can span two targets. `KeywordSpansTargets` shows the case.
- `ScannerPage.NextProgress`: progress is not clamped at 100 while running: one tick can show up to 109 before the stopping tick sets it to 100. `TickOvershoots` shows the case.

## Findings

| source | as written | input that shows it | evidently intended | confidence | as-written member | corrected member |
|---|---|---|---|---|---|---|
| backend/main.py:61 | `df.get('endpoint', list(range(len(df)))).tolist()` calls `.tolist()` on the default too, which is a plain list without that method | an uploaded file whose preprocessed frame has no `endpoint` column: the request raises `AttributeError` instead of answering | without the column, the endpoints are the row numbers `0 .. len(df) - 1` | not executed | Backend.FileEndpointsAsWritten and Backend.FullScanResponseAsWritten (shown failing by Backend.FileWithoutEndpointColumnFails and Backend.CorrectionOnlyChangesMissingColumn) | Backend.FileEndpoints (proved by Backend.FileEndpointsCorrected), used by Backend.Prepare and Backend.Server.FullScan |
