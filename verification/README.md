# Issue tracker request handler — a Dafny model

This project models the request handler of a small issue-tracking REST API
(`routes/api.js`). One path, `/api/issues/:project`, serves four operations
over an `issues` collection in a document store:

- **GET** lists the project's issues and filters them by the query string.
- **POST** creates an issue.
- **PUT** partially updates an issue.
- **DELETE** removes an issue.

Every response has status 200. Failure shows only as an `error` key in the
body.

The document store is a `map<string, Issue>` from document key to document.
Each handler is a pure function from the store, the request and the
environment to a `Reply(store', response)`. The environment is a clock value
`now`, the store-generated key for a new document, the identifier-format
check `validId`, and a `Health` flag that says whether the store call
throws.

Modules, one per part of the handler:

| file | module | what it holds |
|---|---|---|
| js.dfy | `Js` | JavaScript values (`Val`, JSON `Body`, `Query`), falsiness, `??`, `===` |
| issues.dfy | `Issues` | the stored `Issue`, its `Document` view, timestamp normalisation (`Ts`), the GET view, `Response` |
| list.dfy | `ListIssues` | GET: project scan, per-document post-processing, the filter chain, its reference definition |
| create.dfy | `CreateIssue` | POST: required-field check, defaulting, write, response |
| update.dfy | `UpdateIssue` | PUT: validation ladder, body spread, not-found |
| delete.dfy | `DeleteIssue` | DELETE: validation ladder, delete-by-key |
| lifecycle.dfy | `Lifecycle` | invariants across requests and round trips between the operations |
| client_ids.dfy | `ClientIds` | the client-`_id` discrepancy (see Findings) and the corrected create |

Modelling choices:

- The map key and the stored `id` field are separate. POST writes under the
  generated key and stores `id: req.body._id ?? key`.
- PUT spreads the whole body into the document. Afterwards the document
  carries an `_id` field (`Issue.spreadId`), and its other fields may hold
  any JSON value. Keys the handler does not name are kept in `extras`.
- GET builds `{_id: data.id, ...data}`, so a stored `_id` field wins over
  `id` (`Issues.ShownId`).
- A timestamp that is a string stays a string (`Ts.Text`). A native
  timestamp becomes a `Date` (`Ts.Native`). Any other value makes
  `.toDate()` throw, and the whole GET answers with the caught error.
- Every filter step asks `req.query.hasOwnProperty(key)`. Express 4's
  extended query parser keeps a query key named `hasOwnProperty` as an own
  property holding the query value. The first such call then throws, and GET
  answers with the caught error (`ListIssues.ShadowingKey`).
- JavaScript `===` between a `Date` and a query string is always false. So
  the `created_on` and `updated_on` filters can only match timestamps stored
  as strings.

## Model

| member | source | states |
|---|---|---|
| `Issues.Normalize` | routes/api.js:41-44 | a timestamp is shown exactly when it is a string or a native timestamp; a string is kept as the same text, and a native timestamp becomes a Date for the same instant |
| `Issues.ToView` | routes/api.js:36-47 | a document can be shown exactly when both of its timestamps can be normalised, and the view's timestamps are those normalised values |
| `Issues.ViewIsSpread` | routes/api.js:38-46 | a shown document's non-timestamp fields are exactly `{_id: data.id, ...data}` with `id` deleted: every stored field is copied, a stored `_id` wins over `id`, nothing else is added; both timestamps are the normalised stored values |
| `ListIssues.Scan` | routes/api.js:30-35 | the project query returns only documents of that project, includes every one of them that the store enumerates, and nothing from outside the store |
| `ListIssues.ScanIsProjectDocuments` | routes/api.js:30-35 | when `order` lists each document key exactly once, the scan returns each document of the project exactly as many times as there are project keys holding it, and nothing else; so its length is the number of project keys |
| `ListIssues.Views` | routes/api.js:35-49 | post-processing succeeds exactly when every scanned document can be shown; it keeps length and position |
| `ListIssues.ChainIsConjunction` | routes/api.js:65-107 | applying the filters one after another keeps exactly the issues that pass all of them at once |
| `ListIssues.FiltersCommute` | routes/api.js:65-107 | applying the same filters in any order gives the same result |
| `ListIssues.FiltersMeanMatch` | routes/api.js:65-107 | passing the handler's filter chain is equivalent to agreeing with every recognised query key (the reference `MatchesQuery`) |
| `ListIssues.GetIssues` | routes/api.js:60-118 | a store failure, a document whose timestamp `.toDate()` cannot convert, or a query carrying the key `hasOwnProperty` answers with the caught error; otherwise the response is the subsequence of the project's issues that match the query |
| `ListIssues.MatchingViewsMembers` | routes/api.js:65-107 | an issue is in the GET result exactly when it belongs to the project's issues and matches the query |
| `ListIssues.MatchingViewsKeepsOrder` | routes/api.js:68-106 | filtering distributes over concatenation, so the result keeps the store's order |
| `ListIssues.UnrecognisedKeysIgnored` | routes/api.js:65-107 | adding a query key that is neither one of the nine recognised ones nor `hasOwnProperty` leaves the GET response unchanged |
| `ListIssues.OpenFilterCoercion` | routes/api.js:65-69 | `open=` with an empty value filters nothing; `open=true` and `open=false` keep exactly the issues whose `open` is that boolean |
| `ListIssues.OtherOpenValuesMatchNothing` | routes/api.js:65-69 | any other `open` value is compared as a string, so it matches no issue whose `open` is a boolean |
| `ListIssues.TimestampFiltersMatchOnlyStrings` | routes/api.js:95-104 | under a `created_on` or `updated_on` filter, every returned issue has that timestamp stored as a string |
| `ListIssues.FilterScenario` | tests/2_functional-tests.js:441-460 | with creators Alice×3 and Carol, and assignees Bob×2 and Eric×2, `created_by=Alice` keeps 3 issues and adding `assigned_to=Bob` keeps 2 |
| `CreateIssue.Echo` | routes/api.js:150-163 | the POST response is built exactly when the read-back document has native timestamps |
| `CreateIssue.Create` | routes/api.js:120-168 | rejected with 'required field(s) missing' and no change exactly when the project or a required field is falsy; otherwise a failing store write answers with the caught error and changes nothing, and a healthy one writes one document under the generated key and leaves the others unchanged; the new document has `id` equal to the reported id (`_id ?? key`), no other fields than the handler's, `open = true`, the path's project, the submitted fields, `assigned_to`/`status_text` defaulted to '' only when null or absent, and `created_on = updated_on = now`; the response echoes the submission and reports the client's `_id`, or the generated key when none was sent |
| `CreateIssue.CreateAddsOne` | routes/api.js:135-148 | with a key the store does not hold, a successful create grows the store by exactly one document |
| `UpdateIssue.MergeIsSpread` | routes/api.js:195-198 | the merged document equals the old document overwritten by every body field, then `updated_on := now` |
| `UpdateIssue.Update` | routes/api.js:170-212 | the ladder is applied in order: a falsy `_id` gives 'missing _id'; all six update fields falsy (this includes `open: false` and '') gives 'no update field(s) sent' with the `_id`; an `_id` that fails the format check, or a failing store call, gives 'could not update'; a missing document gives 'Issue not found'; success comes exactly when every rung passes and the document exists, and only then does the store change, in the addressed document only |
| `UpdateIssue.Commit` | routes/api.js:193-212 | once the ladder has passed: a store failure gives 'could not update', an absent key gives 'Issue not found', otherwise 'successfully updated' and only the addressed document changes, by the spread |
| `DeleteIssue.Delete` | routes/api.js:215-242 | a falsy `_id` gives 'missing _id'; a malformed `_id` or a store failure gives 'could not delete'; otherwise the key is removed and 'successfully deleted' is returned whether or not the key existed |
| `DeleteIssue.DeleteIsIdempotent` | routes/api.js:227-233 | deleting twice gives the same response and the same store as deleting once |
| `DeleteIssue.DeletingAbsentKeySucceeds` | routes/api.js:227-233 | deleting a well-formed key the store does not hold reports success and leaves the store unchanged |
| `Lifecycle.CreateKeepsTimeline` | routes/api.js:144-145 | a create at time `now` keeps every native timestamp before a later clock value, and keeps `created_on <= updated_on` |
| `Lifecycle.UpdatedCreatedOn` | routes/api.js:195-198 | after a successful update, `updated_on` is the update's clock value and `created_on` is the body's value or the old one |
| `Lifecycle.UpdateMovesPastCreation` | routes/api.js:195-198 | with a strictly increasing clock, a successful update leaves `updated_on` strictly after a native `created_on` |
| `Lifecycle.UpdateKeepsTimeline` | routes/api.js:193-202 | an update keeps every native timestamp before a later clock value, and keeps `created_on <= updated_on` |
| `Lifecycle.DeleteKeepsTimeline` | routes/api.js:227-229 | a delete keeps both timestamp invariants |
| `Lifecycle.PresentableDocumentIsListed` | routes/api.js:30-49 | in a store whose documents GET can present, a project document that the store enumerates appears in the listing whenever its view matches the query |
| `Lifecycle.CreatedIssueIsListed` | routes/api.js:137-163 | after a create, listing the project shows an issue with the `_id`, fields, `open` and timestamps that the POST response reported |
| `Lifecycle.DeletingCreatedIssueRestoresStore` | routes/api.js:135-148 | when the client sent no `_id`, deleting by the reported `_id` succeeds and returns the store to its state before the create |
| `Lifecycle.UpdatedIssueIsListedById` | tests/2_functional-tests.js:494-503 | when every rung of the PUT ladder passes and the document exists, then after the update `GET ?_id=<key>` finds the issue, which shows that key as its `_id` and has `updated_on` set to the update's clock |
| `ClientIds.ClientIdDeleteMissesIssue` | routes/api.js:135-138 | when a POST sent its own `_id`, DELETE with the reported `_id` answers 'successfully deleted' and leaves the issue in the store |
| `ClientIds.DeleteSuiteScenario` | tests/2_functional-tests.js:207-236 | the delete suite's request sequence succeeds without deleting the issue it created |
| `ClientIds.ClientIdUpdateMissesIssue` | routes/api.js:194-211 | when a POST sent its own `_id`, PUT with the reported `_id` answers 'Issue not found' |
| `ClientIds.CreateUnderClientId` | routes/api.js:135-138 | corrected create: the reported `_id` is the document key, and the stored `id` and the listed `_id` both equal it |
| `ClientIds.CorrectionKeepsGeneratedKeys` | routes/api.js:135-148 | when the client sends no `_id`, the corrected create gives the same store and response as the create as written |
| `ClientIds.CorrectedCreateThenDeleteRestores` | routes/api.js:135-138 | with the corrected create, deleting by the reported `_id` succeeds and returns the store to its state before the create, for every body |

## Left out

- Firestore calls (`doc`, `setDoc`, `getDoc`, `getDocs`, `query`, `updateDoc`, `deleteDoc`) are modelled as operations on a map. Generic store failures are one `Health` input per request. What a caught exception contains is not modelled (`Response.Caught`).
- A POST whose write succeeds but whose read-back fails is not modelled. A failing store means nothing was written. The read-back race with concurrent requests (routes/api.js:137-152) and async scheduling in general are out of scope.
- `isFirebasePushId` is not part of this model. It is the parameter `validId: string -> bool`, and a non-string `_id` is treated as failing it.
- `new Date()` is the integer parameter `now`, and both timestamps written by one POST take the same value. Date parsing and formatting are not modelled.
- The order in which `getDocs` returns documents is the parameter `order`. `ListIssues.ScanIsProjectDocuments` states the scan's completeness under `ListIssues.Enumerates` (every key listed once); the handler functions themselves accept any `order`.
- Express routing, JSON encoding, status codes and console logging are not modelled.
- The query parser's configuration is not part of this model. The model assumes Express 4's default, which keeps a `hasOwnProperty` key, and treats every other prototype-named key as an ordinary unrecognised key.
- JSON numbers are integers, so there is no floating point and no NaN. Arrays and nested objects in bodies and queries are not modelled. Repeated query keys, which the query parser turns into arrays, are not modelled either.
- `updateDoc` reads a dotted body key such as `a.b` as a nested field path. The model stores every extra body key as one flat field in `extras`.
- Lifecycle.UpdateMovesPastCreation: states `created_on < updated_on` only for a native `created_on`: a PUT body may overwrite `created_on` with a string, and comparing a string timestamp with a native one needs Date parsing, which is not modelled.
- The test harness (chai-http, mocha, async callbacks) is not modelled. Its scenarios appear only as `ListIssues.FilterScenario` and `ClientIds.DeleteSuiteScenario`.

## Findings

| source | as written | input that shows it | evidently intended | confidence | as-written member | corrected member |
|---|---|---|---|---|---|---|
| routes/api.js:135-138 | POST always writes under a freshly generated key, but stores and reports the client's `_id` as the issue's id. PUT and DELETE then address documents by that `_id`. | POST `{_id: 'Rh0nr1x23Iru4JCQgvjo', issue_title, issue_text, created_by}` to an empty store, then DELETE `{_id: 'Rh0nr1x23Iru4JCQgvjo'}`: the answer is 'successfully deleted', but the issue is still stored under the generated key. A PUT with that `_id` answers 'Issue not found'. | The issue is stored under the client's `_id` when one is sent, so that the reported `_id` addresses the stored document | medium, not executed | `ClientIds.ClientIdDeleteMissesIssue` | `ClientIds.CorrectedCreateThenDeleteRestores` |
