# Competitor sales tracker: the Apps Script endpoint

This project models the server side of the competitor sales tracker. The
server is a Google Apps Script web app over one spreadsheet. Its source comes
in two versions, `google-apps-script-fixed.js` and
`google-apps-script-clean.js`.

The fixed version has two operations:

- `getInitialData` reads three reference sheets into the form's drop-down
  data:
  - PROMOTORES: each promoter with their list of stores.
  - TIENDAS: the list of all stores.
  - MODELOS: each of our models with its competitors.
- `handleRequest` dispatches on the `action` parameter. For `submitData` it
  takes the JSON payload from the POST body or from the `data` parameter,
  validates the five required fields, and appends one row per competitor to
  DATA_VENTAS. It creates that sheet, with its header row, on first use.

Every answer is a JSON object with CORS headers. When the `callback` parameter
is non-empty (truthy, `!!callback`) the answer is JSONP instead, and JSONP
answers never set a status. An empty `?callback=` gets plain JSON with its
status code.

The clean version differs from the fixed one in a few places:

- Its `createResponse` turns a falsy status into 200.
- It lists promoters in `for…in` order, so keys that are array indices come
  first.
- It keeps the store set as an object of `true` flags.
- Its `handleRequest` answers only `getData`.
- Its `testSetup` reports which sheets are missing.

The modules follow the structure of the program:

- `JsValues` (js_values.dfy) covers:
  - cell values and their truthiness;
  - `toString()`, and `trim()` over the ECMAScript white-space set;
  - JSON values, property reads, and `x || ''`.
- `Workbook` (workbook.dfy) holds the sheet titles and column constants and
  the spreadsheet as classes. The sales sheet is an object whose rows are only
  ever appended to. The reference sheets are read-only tables, and a missing
  sheet is `None`.
- `ReferenceData` (reference_data.dfy) gives the three drop-down tables as
  functions of rows. Its lemmas say what each table holds.
- `ReferenceExamples` (reference_examples.dfy) works through small cases of
  those tables.
- `Responses` (responses.dfy) covers the response payloads and their JSON
  form, the CORS headers, and JSON and JSONP framing with round trips.
- `FixedScript` (fixed_script.dfy) models the fixed script:
  - The loops of `getInitialData` are methods proved against
    `ReferenceData`.
  - `handleRequest` is a method over the spreadsheet objects, proved against
    the function `Handle`.
- `FixedProperties` (request_properties.dfy) states what `Handle` promises.
- `ObjectKeys` (object_keys.dfy) gives the `for…in` key order of a plain
  object, as section 10.1.11.1 (OrdinaryOwnPropertyKeys) of ECMAScript 2022
  defines it: array-index keys, below 2^32 - 1, come first.
- `CleanScript` (clean_script.dfy) models the clean script's own `getInitialData`,
  `createResponse`, `handleRequest` and `testSetup`, and compares them with
  the fixed ones.

Some behaviour outside the program is passed in or fixed by assumption:

- `JSON.parse` is a parameter `parse`. Its failure carries the message of the
  exception it throws.
- `JSON.stringify` is a parameter `stringify`.
- `new Date()` is a parameter `now`.
- A spreadsheet that `openById` cannot open is a `null` spreadsheet.
- The messages of the `TypeError`s from reading a property of `null` are
  taken to be V8's.

The code accepts an empty `competitors` array
(google-apps-script-fixed.js:305). Such a submission is answered as saved
with zero rows, and it writes nothing but a new sheet's header.

## Model

| member | source | states |
|---|---|---|
| JsValues.TrimStrips | google-apps-script-fixed.js:125-126 | `trim()` removes a run of white space at each end and keeps the text between them |
| JsValues.TrimPadded | google-apps-script-fixed.js:125-126 | a text padded with white space on both sides trims back to the text itself |
| JsValues.TrimIdempotent | google-apps-script-fixed.js:125-126 | trimming twice gives the same result as trimming once |
| JsValues.TrimIntToString | google-apps-script-fixed.js:125-126 | a number cell's text has nothing to trim |
| JsValues.DecimalRoundTrip | google-apps-script-fixed.js:125 | reading back the decimal text of a natural number gives that number |
| JsValues.CellTextOfText | google-apps-script-fixed.js:126 | a text cell reads as its trimmed text |
| ReferenceData.FirstOccurrencesOrdered | google-apps-script-fixed.js:128-130 | the distinct keys come in the order in which each first occurs |
| ReferenceData.GroupPromotersMembers | google-apps-script-fixed.js:122-144 | a promoter is listed exactly when some row passes the raw-cell test and trims to that name |
| ReferenceData.GroupPromotersOrdered | google-apps-script-fixed.js:122-144 | promoters are listed once each, in order of first appearance |
| ReferenceData.GroupPromotersStores | google-apps-script-fixed.js:126-134 | each promoter's list holds every non-empty store of their rows as often as those rows give it, duplicates kept, and never `''` |
| ReferenceData.StoresOfUnnamed | google-apps-script-fixed.js:128-134 | a name that no row carries has no stores |
| ReferenceData.PromotersInStep | google-apps-script-fixed.js:139-144 | listing one more key appends that key's entry, in key order |
| ReferenceData.StoreListSpec | google-apps-script-fixed.js:153-162 | the store list holds each trimmed non-empty store that some row gives, exactly once, in order of first occurrence |
| ReferenceData.ModelCompetitorsKeys | google-apps-script-fixed.js:171-179 | every trimmed non-empty model is a key, even one with no competitor, and nothing else is |
| ReferenceData.ModelCompetitorsExcluded | google-apps-script-fixed.js:180-182 | a model's list never holds `''` or the model itself |
| ReferenceData.ModelCompetitorsCounts | google-apps-script-fixed.js:171-185 | a model's list holds the competitor of each of its rows as often as such rows occur: duplicates are kept |
| ReferenceData.CompetitorMapStep | google-apps-script-fixed.js:176-183 | one more row changes the map exactly as the loop body does: a row without a model changes nothing; otherwise the model gets a key if it is new, and the competitor is appended when it is set and differs from the model |
| ReferenceData.CompetitorsOfEmpty | google-apps-script-fixed.js:176-183 | a model that no row names has an empty list |
| ReferenceExamples.PlainPromoterRow | google-apps-script-fixed.js:124-126 | a row of two already-trimmed texts gives that promoter and that store |
| ReferenceExamples.BlankPromoterRow | google-apps-script-fixed.js:124-125 | a promoter cell of blanks only is truthy, so its row is kept under the promoter `''` |
| ReferenceExamples.FalsyPromoterRow | google-apps-script-fixed.js:124 | a falsy promoter cell skips its row |
| ReferenceExamples.ShortPromoterRow | google-apps-script-fixed.js:126 | a row with no store cell gives a line with no store |
| ReferenceExamples.GroupingScenario | google-apps-script-fixed.js:122-144 | rows (a, s1), (a, s2), a skipped row and (b, s1) group into a with [s1, s2] and b with [s1] |
| ReferenceExamples.StoreListScenario | google-apps-script-fixed.js:153-162 | stores s1, '', s2, s1 give the list [s1, s2] |
| ReferenceExamples.ModelCompetitorsScenario | google-apps-script-fixed.js:171-185 | a model listed as its own competitor, a model with no competitor and a row with no model give exactly the expected map |
| Responses.CorsValues | google-apps-script-fixed.js:18-26 | the five CORS headers and their values |
| Responses.PayloadJson | google-apps-script-fixed.js:187-194 | the `status` field is `success` exactly for the success answers |
| Responses.StringsRoundTrip | google-apps-script-fixed.js:191 | a list of strings reads back from its JSON form |
| Responses.PromotersRoundTrip | google-apps-script-fixed.js:190 | the promoter list reads back from its JSON form |
| Responses.CompetitorsRoundTrip | google-apps-script-fixed.js:192 | the model-to-competitors map reads back from its JSON form |
| Responses.PayloadRoundTrip | google-apps-script-fixed.js:187-194 | every answer the endpoint builds reads back from its JSON form |
| Responses.JsonpRoundTrip | google-apps-script-fixed.js:237-248 | `callback(json)` unwraps to the JSON, and every body that unwraps is of that shape |
| FixedScript.CreateResponse | google-apps-script-fixed.js:219-234 | the body is the JSON text and the CORS headers are set; the client sees the given status, or 200 when none is given, and a status is set only when it is not 200 |
| FixedScript.CreateJsonpResponse | google-apps-script-fixed.js:237-248 | the body unwraps to the JSON text, is served as JavaScript with the CORS headers, and has no status |
| FixedScript.Reply | google-apps-script-fixed.js:200-202 | JSONP mode gives a JSONP body with no status; otherwise the answer is JSON with the given status |
| FixedScript.PromoterMapSpec | google-apps-script-fixed.js:128-134 | `promoterMap` has a key exactly for each name of a kept row, and that key's value is the name's non-empty stores in row order |
| FixedScript.PromoterRowStep | google-apps-script-fixed.js:122-136 | one more row keeps the loop's keys and map equal to their definitions |
| FixedScript.GatherPromoters | google-apps-script-fixed.js:122-136 | the loop leaves the distinct names in order of first appearance, with a map whose keys are those names and whose values are their stores |
| FixedScript.ListPromoters | google-apps-script-fixed.js:139-144 | the `forEach` lists one entry per key, in key order, each with that key's stores |
| FixedScript.CollectPromoters | google-apps-script-fixed.js:114-144 | the `promoters` list is the grouping of the sheet's data rows |
| FixedScript.StoreRowStep | google-apps-script-fixed.js:153-162 | one more row keeps the store list the order-preserving de-duplication of the non-empty stores seen so far |
| FixedScript.CollectStores | google-apps-script-fixed.js:146-162 | the `stores` list is the de-duplicated list of the sheet's non-empty stores |
| FixedScript.ModelMapAgrees | google-apps-script-fixed.js:171-185 | the map the loop builds row by row is the model-to-competitors map |
| FixedScript.ModelRowStep | google-apps-script-fixed.js:171-185 | one more row keeps the loop's map equal to its definition |
| FixedScript.CollectModelCompetitors | google-apps-script-fixed.js:164-185 | `modelCompetitors` is the model-to-competitors map of the sheet's data rows |
| FixedScript.GetInitialData | google-apps-script-fixed.js:102-216 | the answer is the three tables of the open spreadsheet, or the load failure with 500 when it cannot be opened, framed for the request |
| FixedScript.MissingReferenceSheets | google-apps-script-fixed.js:114-167 | a missing reference sheet gives an empty list or map, not an error |
| FixedScript.ValidateFields | google-apps-script-fixed.js:300-305 | the five checks report the fields that fail them, in check order |
| FixedScript.MissingFieldsMembers | google-apps-script-fixed.js:300-305 | a field is reported exactly when it is required and fails its test: a falsy value, or for `competitors` anything but an array |
| FixedScript.MissingFieldsOrdered | google-apps-script-fixed.js:300-305 | each field is reported at most once, in the order of the checks |
| FixedScript.Validated | google-apps-script-fixed.js:300-316 | the payload is rejected exactly when a field is reported, and otherwise its fields are taken as sent |
| FixedScript.BuildRows | google-apps-script-fixed.js:344-359 | the batch holds one row per competitor, in order, or no batch when a competitor is `null` |
| FixedScript.HandleRequest | google-apps-script-fixed.js:251-417 | the response and the sales rows afterwards are those that `Handle` gives for the request and the spreadsheet as it was |
| FixedScript.SaveSubmission | google-apps-script-fixed.js:318-392 | the response and the sales rows afterwards are those of `Save`: a new sheet gets its header, then the batch is appended after the existing rows |
| FixedProperties.OnlySubmitWrites | google-apps-script-fixed.js:270-404 | anything but `submitData` leaves the sales rows alone: `getData` gets the initial data and any other action the 400 invalid-action answer |
| FixedProperties.StatusOfOutcome | google-apps-script-fixed.js:251-417 | no status is set exactly for the success answers; 400 goes with an unreadable payload, missing fields and an unknown action, and 500 with everything else; JSONP never sets a status |
| FixedProperties.SalesAppendOnly | google-apps-script-fixed.js:326-369 | existing sales rows are kept, in place, and a sheet the request creates starts with the header row |
| FixedProperties.SaveWrites | google-apps-script-fixed.js:318-392 | the sales rows change only in a save of a validated `submitData` payload, and only by appending |
| FixedProperties.SaveAppends | google-apps-script-fixed.js:343-375 | a save without a `null` competitor is answered with the competitor count and appends exactly one row per competitor after the rows before |
| FixedProperties.SavedSubmission | google-apps-script-fixed.js:343-375 | a valid save is answered with the competitor count and appends one row per competitor with one timestamp, the four fields as sent, and name, sales and stock or `''` when falsy |
| FixedProperties.NullCompetitorKeepsHeader | google-apps-script-fixed.js:326-392 | a `null` competitor fails the save with 500 after a new sheet's header row is written and before any data row is |
| FixedProperties.MissingFieldsRejected | google-apps-script-fixed.js:300-316 | a payload failing validation is answered 400 with exactly its missing fields and writes nothing |
| FixedProperties.NoDataRejected | google-apps-script-fixed.js:284-296 | with neither a POST body nor `data` the answer is 400 'Invalid request data format' with the no-data message |
| FixedProperties.PostBodyFirst | google-apps-script-fixed.js:278-283 | a non-empty POST body wins over the `data` parameter |
| FixedProperties.NullPayloadUnexpected | google-apps-script-fixed.js:405-416 | a `null` payload fails on its first field read and is answered 500 'An unexpected error occurred' |
| ObjectKeys.PropertyOrderPermutes | google-apps-script-clean.js:172-179 | `for…in` visits every key exactly once |
| ObjectKeys.PropertyOrderShape | google-apps-script-clean.js:172-179 | array-index keys come first, in ascending numeric order, and the other keys follow in insertion order |
| ObjectKeys.SortedIndexKeys | google-apps-script-clean.js:172-179 | the array-index keys are visited in ascending numeric order: as many keys as there are array-index keys, all of them array indices |
| ObjectKeys.PropertyOrderPlain | google-apps-script-clean.js:172-179 | without array-index keys the order is the insertion order |
| ObjectKeys.PropertyOrderMembers | google-apps-script-clean.js:172-179 | the reordering keeps membership, length and distinctness |
| ObjectKeys.OtherKeysAppend | google-apps-script-clean.js:172-179 | keys that are not indices keep their relative order |
| ObjectKeys.IndexKeysFirst | google-apps-script-clean.js:172-179 | keys set as `name`, "12", "3" are visited as "3", "12", `name` |
| CleanScript.CreateResponse | google-apps-script-clean.js:102-118 | the client sees the given status, or 200 when it is omitted or 0; a status is set only when it is not 200 |
| CleanScript.CreateResponseAgrees | google-apps-script-clean.js:102-118 | the two versions of `createResponse` agree exactly when the status is not 0 |
| CleanScript.Reply | google-apps-script-clean.js:235-237 | the CORS headers are set; JSONP mode gives a JSONP body with no status; otherwise the answer is JSON with the falsy-to-200 status |
| CleanScript.CollectPromoters | google-apps-script-clean.js:151-179 | the `promoters` list is the clean grouping: the fixed entries in the `for…in` order of the keys |
| CleanScript.PromotersInMembers | google-apps-script-clean.js:172-179 | listing keys in another order lists the same entries |
| CleanScript.GroupPromotersSameEntries | google-apps-script-clean.js:151-179 | the clean and fixed lists hold the same entries, as a permutation |
| CleanScript.GroupPromotersAgree | google-apps-script-clean.js:151-179 | when no promoter name is an array index, both versions list the promoters identically |
| CleanScript.FlagsTest | google-apps-script-clean.js:192 | `!storeSet[name]` tests that the name has not been seen |
| CleanScript.FlagsAdd | google-apps-script-clean.js:193 | setting a flag adds that name to the seen set |
| CleanScript.CollectStores | google-apps-script-clean.js:184-197 | the store list is the de-duplicated list of non-empty stores, the same as the fixed version's |
| CleanScript.GetInitialData | google-apps-script-clean.js:135-251 | the answer is the clean tables of the open spreadsheet, or the load failure with 500 when it cannot be opened, framed for the request |
| CleanScript.LoadFailure | google-apps-script-clean.js:239-250 | the failure answer is 'Failed to load initial data', with a 500 that is set only outside JSONP mode |
| CleanScript.InitialDataAgrees | google-apps-script-clean.js:135-251 | when no promoter name is an array index, the two versions answer `getData` identically |
| CleanScript.HandleRequest | google-apps-script-clean.js:255-297 | there is an answer exactly for `getData`, and it is the initial-data answer |
| CleanScript.MissingSheets | google-apps-script-clean.js:322-332 | the loop lists the titles of SHEETS that are missing from the spreadsheet, in declaration order |
| CleanScript.AbsentMembers | google-apps-script-clean.js:322-332 | a sheet is reported exactly when its title is missing from the sheet names |
| CleanScript.AbsentAppend | google-apps-script-clean.js:322-332 | the report keeps the order of the titles |
| CleanScript.AbsentStep | google-apps-script-clean.js:322-332 | one more title is reported exactly when it is not among the sheet names |
| CleanScript.AbsentExtremes | google-apps-script-clean.js:322-332 | with every sheet present nothing is reported, and with none present every title is |

## Left out

- `doPost` (google-apps-script-fixed.js:41-51). It sends the `options` action to `doOptions` and everything else to `handleRequest`; only `handleRequest` is modelled.
- `doGet` (google-apps-script-fixed.js:54-81). It sends `options` to `doOptions` and `getData` to `getInitialData`. Every other GET, `submitData` included, gets the HTML "API is running" page and never reaches `handleRequest`. The browser code submits with a JSONP GET (`?action=submitData&data=…&callback=…`, js/script.js:243), so those submissions are answered by that page and write nothing. The model does not capture this routing.
- `doOptions` (google-apps-script-fixed.js:29-38). It returns an empty HTML output with the CORS headers.
- `handleError` (google-apps-script-fixed.js:84-99). It answers a thrown error with JSON `{status: 'error', message, stack}`, where `message` is the error's message or 'An unknown error occurred', and sets the CORS headers.
- The HTML landing page, and the browser code in `js/script.js`. Neither is part of this model.
- The Apps Script services `ContentService`, `SpreadsheetApp`, `setMimeType` and `setHeader`. The model has their visible effect: the `Response` value and the sheet objects.
- The internals of `JSON.parse` and `JSON.stringify`. They are parameters, so the JSON text of an answer is only known through `stringify`.
- Number cells are integers. Floating-point cells, exponent notation and `Date` cells of the reference sheets are not modelled.
- JSON numbers are integers (`JsValues.Json`). A fractional `sales` or `stock` value in a payload cannot be expressed, so the rows written for one are not modelled.
- Console logging. It has no effect on the answers.
- Keys such as `__proto__` that collide with `Object.prototype`. Every map behaves as a plain dictionary.
- The key order of `modelCompetitors` in the JSON text. The map is a Dafny `map`, which has no order.
- `openById` throwing and `openById` returning `null`. Both are modelled as the `null` spreadsheet with the same error answer.
- The `testSetup` of the fixed version (google-apps-script-fixed.js:420-449). When `openById` gives `null` it returns 'Could not access spreadsheet'. Otherwise it reads `SHEET_NAME`, which is declared nowhere, and the `ReferenceError` ends in its `catch`.
- The clean `createJsonpResponse` (google-apps-script-clean.js:121-132 and 300-311). It is identical to the fixed one, so `FixedScript.CreateJsonpResponse` serves both.
- The clean promoter and model loops (google-apps-script-clean.js:155-169 and 206-220). Their code matches the fixed loops, so the fixed methods serve both. For the promoter loop, `!promoterMap[name]` tests for a missing key, since every value it stores is an array and so truthy.
- CleanScript.HandleRequest: the `submitData` branch and the branch for other actions return nothing. The model gives `None` for both.
- The messages of the `TypeError`s for a `null` payload or a `null` competitor. They are assumed to be V8's wording.
