/** google-apps-script-clean.js: the same endpoint written with plain
    objects as maps. Its `createResponse` treats a falsy status as 200; its
    promoter list comes out in `for…in` order; its store set is an object of
    `true` flags; `handleRequest` routes only `getData` to an answer; and
    `testSetup` lists the sheets the spreadsheet lacks. */
module CleanScript {
  import opened JsValues
  import opened Workbook
  import opened ReferenceData
  import opened Responses
  import opened ObjectKeys
  import FixedScript

  // ---------------------------------------------------------------------------
  // Framing
  // ---------------------------------------------------------------------------

  /** `createResponse(data, statusCode)` with `statusCode = statusCode || 200`:
      an omitted status and a status of 0 both become 200. */
  function CreateResponse(stringify: Json -> string, data: Json, statusCode: Option<int>): (r: Response)
    ensures r.body == stringify(data) && r.mimeType == JSON && r.headers == CORS_HEADERS
    ensures HttpStatus(r) == if statusCode.Some? && statusCode.value != 0 then statusCode.value else 200
    ensures r.statusCode.Some? <==> HttpStatus(r) != 200
  {
    var code := if statusCode.Some? && statusCode.value != 0 then statusCode.value else 200;
    Response(stringify(data), JSON, CORS_HEADERS, if code != 200 then Some(code) else None)
  }

  /** The two versions of `createResponse` build the same response for every
      status except 0, which the fixed one sets and this one replaces by
      200. */
  lemma CreateResponseAgrees(stringify: Json -> string, data: Json, statusCode: Option<int>)
    ensures CreateResponse(stringify, data, statusCode) == FixedScript.CreateResponse(stringify, data, statusCode)
            <==> statusCode != Some(0)
  {
    if statusCode == Some(0) {
      assert FixedScript.CreateResponse(stringify, data, statusCode).statusCode == Some(0);
    }
  }

  /** `isJsonp ? createJsonpResponse(payload, callback) : createResponse(payload, statusCode)`. */
  function Reply(stringify: Json -> string, params: FixedScript.Params, payload: Payload, statusCode: Option<int>): (r: Response)
    ensures r.headers == CORS_HEADERS
    ensures FixedScript.IsJsonp(params) ==>
      r.statusCode.None? && r.mimeType == JAVASCRIPT
      && UnwrapJsonp(r.body, params["callback"]) == Some(stringify(PayloadJson(payload)))
    ensures !FixedScript.IsJsonp(params) ==>
      r.mimeType == JSON && r.body == stringify(PayloadJson(payload))
      && HttpStatus(r) == (if statusCode.Some? && statusCode.value != 0 then statusCode.value else 200)
  {
    if FixedScript.IsJsonp(params) then FixedScript.CreateJsonpResponse(stringify, PayloadJson(payload), params["callback"])
    else CreateResponse(stringify, PayloadJson(payload), statusCode)
  }

  // ---------------------------------------------------------------------------
  // getInitialData
  // ---------------------------------------------------------------------------

  /** The `promoters` list: the same entries as the fixed version, listed in
      the `for…in` order of `promoterMap`'s keys. */
  function GroupPromoters(rows: seq<Row>): seq<Promoter> {
    var ls := PromoterLines(rows);
    PromotersIn(ls, PropertyOrder(FirstOccurrences(Names(ls))))
  }

  /** The promoter loop, then the `for…in` loop that lists the entries. The
      promoter loop is the one of the fixed version: `!promoterMap[name]`
      tests for an absent key, since every value set is an array, and the
      keys of the object are recorded in the order they were first set. */
  method CollectPromoters(data: Table) returns (promoters: seq<Promoter>)
    ensures promoters == GroupPromoters(Body(data))
  {
    var keys, promoterMap := FixedScript.GatherPromoters(data);
    var order := PropertyOrder(keys);
    PropertyOrderMembers(keys);
    promoters := FixedScript.ListPromoters(PromoterLines(Body(data)), order, promoterMap);
  }

  /** An entry of `PromotersIn` is a listed name with that name's stores. */
  lemma PromotersInMembers(ls: seq<PromoterLine>, names: seq<string>, p: Promoter)
    ensures p in PromotersIn(ls, names) <==> p.name in names && p.stores == StoresOf(ls, p.name)
  {
    var r := PromotersIn(ls, names);
    if p.name in names && p.stores == StoresOf(ls, p.name) {
      var i := IndexOf(names, p.name);
      assert r[i] == p;
    }
  }

  /** Both versions list the same promoter entries, each once: only their
      order can differ. */
  lemma GroupPromotersSameEntries(rows: seq<Row>, p: Promoter)
    ensures p in GroupPromoters(rows) <==> p in ReferenceData.GroupPromoters(rows)
    ensures |GroupPromoters(rows)| == |ReferenceData.GroupPromoters(rows)|
  {
    var ls := PromoterLines(rows);
    var keys := FirstOccurrences(Names(ls));
    PropertyOrderMembers(keys);
    PromotersInMembers(ls, keys, p);
    PromotersInMembers(ls, PropertyOrder(keys), p);
  }

  /** When no promoter name is an array index, both versions give the same
      list, in the same order. */
  lemma GroupPromotersAgree(rows: seq<Row>)
    requires forall n :: n in Names(PromoterLines(rows)) ==> !IsArrayIndex(n)
    ensures GroupPromoters(rows) == ReferenceData.GroupPromoters(rows)
  {
    var keys := FirstOccurrences(Names(PromoterLines(rows)));
    PropertyOrderPlain(keys);
  }

  /** `flags` is an object of `true` flags whose keys are `keys`. */
  ghost predicate Flags(flags: map<string, bool>, keys: set<string>) {
    flags.Keys == keys && forall s :: s in flags ==> flags[s]
  }

  /** Reading a flag (`storeSet[storeName]`, `undefined` when absent) tests
      membership. */
  lemma FlagsTest(flags: map<string, bool>, keys: set<string>, x: string)
    requires Flags(flags, keys)
    ensures (x in flags && flags[x]) <==> x in keys
  {
  }

  /** Setting a flag to `true` adds its key. */
  lemma FlagsAdd(flags: map<string, bool>, keys: set<string>, x: string)
    requires Flags(flags, keys)
    ensures Flags(flags[x := true], keys + {x})
  {
  }

  /** The store loop, with `storeSet` an object of `true` flags. */
  method CollectStores(data: Table) returns (stores: seq<string>)
    ensures stores == StoreList(Body(data))
  {
    var cs := StoreCells(Body(data));
    stores := [];
    var storeSet: map<string, bool> := map[];
    ghost var seen: set<string> := {};
    var j := 1;
    while j < |data|
      invariant 1 <= j && j - 1 <= |cs|
      invariant FixedScript.Deduplicated(cs[..j - 1], stores, seen)
      invariant Flags(storeSet, seen)
    {
      ghost var stores0, seen0 := stores, seen;
      var storeName := StoreCellName(data[j]);
      FlagsTest(storeSet, seen, storeName);
      if storeName != "" && !(storeName in storeSet && storeSet[storeName]) {
        FlagsAdd(storeSet, seen, storeName);
        storeSet := storeSet[storeName := true];
        stores := stores + [storeName];
        seen := seen + {storeName};
      }
      assert cs[j - 1] == storeName;
      j := j + 1;
      FixedScript.StoreRowStep(cs, j - 1, stores0, seen0, stores, seen);
    }
    assert cs[..j - 1] == cs;
  }

  /** The answer of `getInitialData`. The model loop of this version is the
      one of the fixed version (`modelsData[k]`, a row, is always truthy). */
  function InitialDataPayload(book: Option<Book>): Payload {
    if book.None? then Failed(LOAD_FAILED, FixedScript.OPEN_ERROR)
    else
      var b := book.value;
      InitialData(GroupPromoters(Body(Values(b.promoters))), StoreList(Body(Values(b.stores))),
                  ModelCompetitors(Body(Values(b.models))))
  }

  function InitialDataResponse(stringify: Json -> string, params: FixedScript.Params, book: Option<Book>): Response {
    Reply(stringify, params, InitialDataPayload(book), if book.None? then Some(500) else None)
  }

  method GetInitialData(stringify: Json -> string, params: FixedScript.Params, ss: Spreadsheet?) returns (r: Response)
    ensures r == InitialDataResponse(stringify, params, Snapshot(ss))
  {
    if ss == null {
      r := Reply(stringify, params, Failed(LOAD_FAILED, FixedScript.OPEN_ERROR), Some(500));
      return;
    }
    var promoters := CollectPromoters(Values(ss.promoters));
    var stores := CollectStores(Values(ss.stores));
    var modelCompetitors := FixedScript.CollectModelCompetitors(Values(ss.models));
    r := Reply(stringify, params, InitialData(promoters, stores, modelCompetitors), None);
  }

  /** The failure answer is 'Failed to load initial data' with a 500 that is
      only set outside JSONP mode. */
  lemma LoadFailure(stringify: Json -> string, params: FixedScript.Params)
    ensures InitialDataPayload(None) == Failed(LOAD_FAILED, FixedScript.OPEN_ERROR)
    ensures var r := InitialDataResponse(stringify, params, None);
      (FixedScript.IsJsonp(params) ==> r.statusCode.None?) && (!FixedScript.IsJsonp(params) ==> HttpStatus(r) == 500)
  {
  }

  /** Where no promoter name is an array index, both versions answer
      `getData` with the same response. */
  lemma InitialDataAgrees(stringify: Json -> string, params: FixedScript.Params, book: Option<Book>)
    requires book.Some? ==> forall n :: n in Names(PromoterLines(Body(Values(book.value.promoters)))) ==> !IsArrayIndex(n)
    ensures InitialDataResponse(stringify, params, book) == FixedScript.InitialDataResponse(stringify, params, book)
  {
    if book.Some? {
      GroupPromotersAgree(Body(Values(book.value.promoters)));
    }
  }

  // ---------------------------------------------------------------------------
  // handleRequest
  // ---------------------------------------------------------------------------

  /** `handleRequest(e)`. Only `getData` gets an answer. The `submitData`
      branch reads `rows`, which is declared nowhere, and the `ReferenceError`
      ends in an empty `catch`; the branch for other actions is empty. Both
      return `undefined` (`None`). */
  method HandleRequest(stringify: Json -> string, params: FixedScript.Params, ss: Spreadsheet?) returns (r: Option<Response>)
    ensures r.Some? <==> FixedScript.Param(params, "action") == Some("getData")
    ensures r.Some? ==> r.value == InitialDataResponse(stringify, params, Snapshot(ss))
  {
    if FixedScript.Param(params, "action") == Some("getData") {
      var response := GetInitialData(stringify, params, ss);
      r := Some(response);
    } else {
      r := None;
    }
  }

  // ---------------------------------------------------------------------------
  // testSetup
  // ---------------------------------------------------------------------------

  /** The titles of `titles` that are not among `names`, in their order. */
  function Absent(titles: seq<string>, names: seq<string>): seq<string> {
    if titles == [] then []
    else Absent(Init(titles), names) + if Last(titles) in names then [] else [Last(titles)]
  }

  /** The `missingSheets` loop: `for…in` over SHEETS visits its keys in
      declaration order (none is an array index), and `indexOf(...) === -1`
      tests for absence. */
  method MissingSheets(sheetNames: seq<string>) returns (missingSheets: seq<string>)
    ensures missingSheets == Absent(SHEET_TITLES, sheetNames)
  {
    var titles := SHEET_TITLES;
    missingSheets := [];
    var i := 0;
    while i < |titles|
      invariant 0 <= i <= |titles|
      invariant missingSheets == Absent(titles[..i], sheetNames)
    {
      if titles[i] !in sheetNames {
        missingSheets := missingSheets + [titles[i]];
      }
      assert Init(titles[..i + 1]) == titles[..i];
      i := i + 1;
    }
    assert titles[..i] == titles;
  }

  /** A sheet is reported exactly when its title is not among the names. */
  lemma {:induction false} AbsentMembers(titles: seq<string>, names: seq<string>, t: string)
    ensures t in Absent(titles, names) <==> t in titles && t !in names
  {
    if titles != [] {
      AbsentMembers(Init(titles), names, t);
      assert titles == Init(titles) + [Last(titles)];
    }
  }

  /** The report keeps the order of the titles: reporting on two runs of
      titles and joining the results is reporting on the joined runs. */
  lemma {:induction false} AbsentAppend(a: seq<string>, b: seq<string>, names: seq<string>)
    ensures Absent(a + b, names) == Absent(a, names) + Absent(b, names)
  {
    if b != [] {
      assert Init(a + b) == a + Init(b) && Last(a + b) == Last(b);
      AbsentAppend(a, Init(b), names);
    } else {
      assert a + b == a;
    }
  }

  /** With every title present nothing is reported; with no sheets at all
      every title is, in order. */
  lemma {:induction false} AbsentExtremes(titles: seq<string>)
    ensures Absent(titles, titles) == []
    ensures Absent(titles, []) == titles
  {
    AbsentNone(titles, titles);
    AbsentNoneFound(titles, []);
  }

  lemma {:induction false} AbsentNone(titles: seq<string>, names: seq<string>)
    requires forall t :: t in titles ==> t in names
    ensures Absent(titles, names) == []
  {
    if titles != [] {
      AbsentNone(Init(titles), names);
      assert Last(titles) in titles;
    }
  }

  lemma {:induction false} AbsentNoneFound(titles: seq<string>, names: seq<string>)
    requires forall t :: t in titles ==> t !in names
    ensures Absent(titles, names) == titles
  {
    if titles != [] {
      var ts, t := Init(titles), Last(titles);
      assert titles == ts + [t];
      AbsentNoneFound(ts, names);
      AbsentStep(ts, t, names);
    }
  }

  /** One more title is reported exactly when it is not among the names. */
  lemma AbsentStep(ts: seq<string>, t: string, names: seq<string>)
    ensures Absent(ts + [t], names) == Absent(ts, names) + if t in names then [] else [t]
  {
    assert Init(ts + [t]) == ts && Last(ts + [t]) == t;
  }
}
