# AidRanker in Dafny

AidRanker is a demonstration page and ranking service. The page sends a fixed
batch of five school aid requests to the service's `/rank` endpoint. The
service labels each request's urgency with a zero-shot classifier, scores it
and returns the batch sorted by urgency. The page then shows the original order
and the ranked order side by side, colouring each ranked card by its urgency
label.

This project models the two pieces of logic in that system:

- **The page** (`frontend.dfy`, module `Frontend`). The four state hooks
  (`originalRequests`, `rankedRequests`, `loading`, `error`) become an
  immutable `ViewState`. A ranking attempt is three pure transitions:
  `Begin`, then `Settle` on an abstract HTTP outcome, then `Finish`. The
  urgency colour map, the card, the columns and the banner are pure rendering
  functions that may throw, as React would. `Step`/`Run` turn clicks and
  settlements into an event machine. Its invariant is that at most one
  request is ever in flight, and only while the button is disabled.
- **The service** (`backend.dfy`, module `Backend`). `Handle` is a pure
  function from the parsed request body to a status and a JSON body. It checks
  the token first, then rejects an empty payload, then builds one result per
  record (with the dictionary-merge override), then sorts by aggressive score.
  Every exception becomes a 500. The classifier, SHA-256 and the score
  arithmetic `score * (1 + percent_done)` are opaque. They arrive as the
  function-typed fields of `Oracles`.
- **Support modules.** `json.dfy` (module `Json`) holds JSON values and the
  two truthiness rules: Python's on the service, JavaScript's on the page.
  `sorting.dfy` (module `Sorting`) holds the stable descending sort that
  Python's `list.sort(key=..., reverse=True)` performs. It proves that the
  sort is the only stable ordering into non-increasing keys.
  `integration.dfy` (module `Integration`) sends the page's own payload
  through the service and settles the answer back into the page.

Scores are abstract ordered values (`real`); floating-point rounding is not
modelled.

Three behaviours of the code shape the model:

- The code does not check that a 2xx body carries a `ranked_requests` list. It
  stores the fixture, stores `undefined` as the ranked list and leaves the
  error cleared. The next render then throws at `rankedRequests.map`
  (`Frontend.MissingRankedListBreaksPage`).
- A 2xx response whose body is JSON `null` stores the fixture first. Reading
  `ranked_requests` from `null` then throws, and the `catch` reports
  "Failed to connect to backend" while the old ranked list stays.
- The page state is four independent hooks, not one tagged state. A failed
  attempt therefore leaves the previous comparison on screen beside the error.
- A render that throws unmounts the whole tree, since there is no error
  boundary. No button is left to click (`Frontend.Step`).

## Model

| member | source | states |
|---|---|---|
| Frontend.UrgencyColor | frontend/src/App.js:67-74 | red, amber and green each occur exactly for their own label string; grey occurs exactly for every other value, a missing label included |
| Frontend.Begin | frontend/src/App.js:46-48 | starting an attempt sets `loading`, clears the error and leaves both lists as they were |
| Frontend.FailureMessage | frontend/src/App.js:59-60 | a rejection's message is the body's `error` field when that is truthy, and "Failed to connect to backend" in every other case (no response, no `error` field, a falsy one); it is always truthy |
| Frontend.Settle | frontend/src/App.js:50-62 | a 2xx stores the fixture and the response's `ranked_requests` exactly as received (possibly absent); a `null` 2xx body stores the fixture and the generic error; a failure changes only the error and keeps both lists |
| Frontend.Finish | frontend/src/App.js:64 | completion clears `loading` on every path and changes nothing else |
| Frontend.Attempt | frontend/src/App.js:46-65 | after a whole attempt `loading` is false; there is no error exactly when a non-null 2xx arrived; any stored error is truthy; a failure keeps both lists |
| Frontend.RenderCard | frontend/src/App.js:76-113 | the badge is index + 1; the border is the urgency colour of the record's label; the ranking block (label, badge colour, both scores) appears exactly when `isRanked`; the card throws exactly when the record is `null` or a shown field (school, description, requester, and the label on the ranked column) holds an object |
| Frontend.RenderColumnFrom | frontend/src/App.js:139-160 | a column renders exactly when every one of its cards renders, with one card per element, card i rendered at index i; otherwise it throws the error of one of its cards |
| Frontend.RenderBanner | frontend/src/App.js:128-132 | the banner shows the error exactly when it is truthy; an object error makes React throw |
| Frontend.RenderPage | frontend/src/App.js:115-166 | the button is disabled and reads "Ranking..." exactly while loading; the columns appear exactly when the original list is non-empty; the page renders exactly when the banner renders and, once the columns appear, every original card renders, the ranked value is an array and every ranked card renders; one card per element in each column |
| Frontend.MissingRankedListBreaksPage | frontend/src/App.js:57-58 | a 2xx without a `ranked_requests` array leaves no error and makes the next render throw |
| Frontend.Step | frontend/src/App.js:119-125 | a click while loading, or on a page whose render threw, changes nothing and sends nothing; otherwise it begins an attempt and sends one request; a settlement finishes the pending attempt |
| Frontend.RunReachable | frontend/src/App.js:46-65 | after any sequence of events at most one request is in flight, exactly while loading; the original list is empty or the fixture; a stored error is truthy |
| Backend.VerifyAuthToken | backend/app.py:14-21 | a missing or falsy token is refused; the result is true exactly for a non-empty string whose digest equals the secret's digest; other truthy values raise; the page's secret passes |
| Backend.AcceptsOnlySecret | backend/app.py:14-21 | with a collision-free hash, exactly the secret string is accepted |
| Backend.BuildResult | backend/app.py:38-53 | a record yields a result exactly when it is a dictionary and the classifier and scoring do not raise; the result has the record's keys plus the five computed ones; every key of the record keeps its value, overriding a computed one; absent description and percent_done default to "" and 0.0; absent label and scores are the classifier's top label and score and the aggressive score of that score and percent_done |
| Backend.BuildResults | backend/app.py:37-53 | the loop succeeds exactly when every record does, giving one result per record in input order; on failure the message is that of the first failing record, every earlier record having succeeded |
| Backend.Records | backend/app.py:32-38 | iteration yields records only from a list; a non-empty string or dictionary yields strings, which have no `get`; a number or boolean is not iterable |
| Backend.SortResults | backend/app.py:55 | the sort returns a permutation sorted non-increasing by aggressive score; it raises exactly when two or more rows include a non-numeric score |
| Backend.Handle | backend/app.py:23-60 | statuses are 200/400/401/500 with `{"error": ...}` bodies off 200; a non-dictionary body fails; the token decides 401 before the payload is read, and a token that raises gives a 500 with its message; 400 exactly for a valid token with falsy `requests`; past both checks, 200 exactly when iteration, building and sorting all succeed, otherwise a 500 carrying the message of the first of them to raise; 200 gives one row per record, a permutation of the built results, sorted with ties in input order |
| Sorting.SortDesc | backend/app.py:55 | the sorted sequence is a permutation of the input in non-increasing key order |
| Sorting.SortDescStable | backend/app.py:55 | every key class keeps its input order, as Python's stable sort guarantees with `reverse=True` |
| Sorting.StableSortUnique | backend/app.py:55 | any non-increasing, class-order-preserving arrangement of the input equals `SortDesc`, so the handler's order is fully determined |
| Integration.PageTokenAccepted | frontend/src/App.js:11 | the page's literal token passes the service's check whatever the hash |
| Integration.PayloadOutcome | backend/app.py:28-53 | the page's payload never gets 401 or 400; it gets 200 exactly when every record is classified and scored |
| Integration.RoundTrip | frontend/src/App.js:52-58 | after a successful round trip the page renders; the original column shows the fixture in order with grey borders; the ranked column shows a permutation of the built rows in non-increasing score order, and the row built for record i carries all of record i's fields |

## Left out

- React machinery: hooks scheduling and batching, CSS classes, the progress-bar width, `console.error` and the fixture's literal texts. The fixture is any non-empty sequence of records with a school, a requester, a description and a `percent_done`.
- Transport: axios, `async`/`await`, the `REACT_APP_API_URL` lookup and its default URL. The call is an `HttpOutcome`: a status with a parsed body, or no response.
- Flask plumbing: routing, CORS, `jsonify`'s key ordering, `app.run` and the `/health` endpoint. `Handle` takes the outcome of `get_json`, and Flask's own message for an unparsable body is not modelled.
- The zero-shot classifier, SHA-256 and the floating-point product `score * (1 + percent_done)`. These are opaque functions in `Backend.Oracles`. The classifier is assumed to rank exactly the three candidate labels.
- Backend.SortResults: when two or more rows have a non-numeric score, the model always raises. Python would instead sort rows whose scores are all strings, or all lists of mutually comparable items. The exact text of the `TypeError`, which names the first pair compared, is also not modelled.
- Backend.BuildResult, Backend.Records, Backend.Handle: exception texts name every JSON number's type as `float`, although Python reports integral JSON numbers as `int`. The messages for a non-dictionary record, non-iterable `requests` and a non-dictionary body are affected.
- Frontend.RenderCard: `Math.round(percent_done * 100)` and `toFixed(3)` are not modelled. The card shows the raw values, so the throw from `toFixed` on a non-numeric score is absent. So is React's throw for an array field that contains objects.
- Frontend.RenderBanner: React also throws for an array error that contains objects; only plain object errors throw in the model.
- Frontend.Step: a settlement with no request in flight cannot arise and is ignored. There is no cancellation or timeout in the code either.
