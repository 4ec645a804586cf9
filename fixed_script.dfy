/** google-apps-script-fixed.js: the web-app endpoint. `getInitialData`
    reads the three reference sheets into the form's drop-down data;
    `handleRequest` dispatches on the `action` parameter and, for
    `submitData`, takes the payload, validates it and appends one sales row
    per competitor; every answer is framed as JSON, or as JSONP when a
    `callback` parameter is given. */
module FixedScript {
  import opened JsValues
  import opened Workbook
  import opened ReferenceData
  import opened Responses

  /** `e.parameter`: the query parameters, each a string. */
  type Params = map<string, string>

  function Param(params: Params, key: string): Option<string> {
    if key in params then Some(params[key]) else None
  }

  /** `!!params.callback`. */
  predicate IsJsonp(params: Params) {
    "callback" in params && params["callback"] != ""
  }

  // ---------------------------------------------------------------------------
  // Framing
  // ---------------------------------------------------------------------------

  /** `createResponse(data, statusCode = 200)`; `None` is the omitted
      argument. The status is set only when it is not 200, which the client
      cannot tell from having set it. */
  function CreateResponse(stringify: Json -> string, data: Json, statusCode: Option<int>): (r: Response)
    ensures r.body == stringify(data) && r.mimeType == JSON && r.headers == CORS_HEADERS
    ensures HttpStatus(r) == if statusCode.Some? then statusCode.value else 200
    ensures r.statusCode.Some? <==> HttpStatus(r) != 200
  {
    var code := if statusCode.Some? then statusCode.value else 200;
    Response(stringify(data), JSON, CORS_HEADERS, if code != 200 then Some(code) else None)
  }

  /** `createJsonpResponse(data, callback)`: the JSON wrapped in a call of
      `callback`, served as JavaScript, with no status code. */
  function CreateJsonpResponse(stringify: Json -> string, data: Json, callback: string): (r: Response)
    ensures UnwrapJsonp(r.body, callback) == Some(stringify(data))
    ensures r.mimeType == JAVASCRIPT && r.headers == CORS_HEADERS && r.statusCode.None?
  {
    JsonpRoundTrip(callback, stringify(data), "");
    Response(JsonpText(callback, stringify(data)), JAVASCRIPT, CORS_HEADERS, None)
  }

  /** `isJsonp ? createJsonpResponse(payload, callback) : createResponse(payload, statusCode)`,
      the shape of every return of both handlers. */
  function Reply(stringify: Json -> string, params: Params, payload: Payload, statusCode: Option<int>): (r: Response)
    ensures r.headers == CORS_HEADERS
    ensures IsJsonp(params) ==>
      r.statusCode.None? && r.mimeType == JAVASCRIPT
      && UnwrapJsonp(r.body, params["callback"]) == Some(stringify(PayloadJson(payload)))
    ensures !IsJsonp(params) ==>
      r.mimeType == JSON && r.body == stringify(PayloadJson(payload))
      && HttpStatus(r) == (if statusCode.Some? then statusCode.value else 200)
  {
    if IsJsonp(params) then CreateJsonpResponse(stringify, PayloadJson(payload), params["callback"])
    else CreateResponse(stringify, PayloadJson(payload), statusCode)
  }

  // ---------------------------------------------------------------------------
  // getInitialData
  // ---------------------------------------------------------------------------

  /** The message of the error thrown when the spreadsheet cannot be opened. */
  const OPEN_ERROR := "Could not open spreadsheet with ID: " + SPREADSHEET_ID

  /** `promoterMap` after the lines `ls`, built as the promoter loop builds
      it; `PromoterMapSpec` says what it holds. */
  ghost function PromoterMap(ls: seq<PromoterLine>): map<string, seq<string>> {
    if ls == [] then map[] else AddPromoterLine(PromoterMap(Init(ls)), Last(ls))
  }

  /** One line: a new key starts with no stores, then a non-empty store is
      appended under the key. */
  ghost function AddPromoterLine(groups: map<string, seq<string>>, l: PromoterLine): map<string, seq<string>> {
    if l.Skipped? then groups
    else
      var groups1 := if l.name in groups then groups else groups[l.name := []];
      if l.store != "" then groups1[l.name := groups1[l.name] + [l.store]] else groups1
  }

  /** The map has a key for every promoter name of the lines, and under it
      that promoter's stores. */
  lemma {:induction false} PromoterMapSpec(ls: seq<PromoterLine>)
    ensures forall n :: n in PromoterMap(ls) <==> n in Names(ls)
    ensures forall n :: n in PromoterMap(ls) ==> PromoterMap(ls)[n] == StoresOf(ls, n)
  {
    if ls != [] {
      var ls0, l := Init(ls), Last(ls);
      PromoterMapSpec(ls0);
      if l.Line? && l.name !in PromoterMap(ls0) {
        StoresOfUnnamed(ls0, l.name);
      }
    }
  }

  /** One iteration of the promoter loop: line `i - 1` updates the map, and
      its key joins the insertion order when it is new. */
  lemma PromoterRowStep(all: seq<PromoterLine>, i: nat, keys: seq<string>, groups: map<string, seq<string>>,
                        keys': seq<string>, groups': map<string, seq<string>>)
    requires 0 < i <= |all|
    requires keys == FirstOccurrences(Names(all[..i - 1])) && groups == PromoterMap(all[..i - 1])
    requires var l := all[i - 1];
      && groups' == AddPromoterLine(groups, l)
      && keys' == if l.Line? && l.name !in groups then keys + [l.name] else keys
    ensures keys' == FirstOccurrences(Names(all[..i])) && groups' == PromoterMap(all[..i])
  {
    var ls, l := all[..i - 1], all[i - 1];
    assert Init(all[..i]) == ls && Last(all[..i]) == l;
    assert PromoterMap(all[..i]) == AddPromoterLine(PromoterMap(ls), l);
    PromoterMapSpec(ls);
    if l.Line? {
      assert Names(all[..i]) == Names(ls) + [l.name];
      FirstOccurrencesStep(Names(ls), l.name);
    } else {
      assert Names(all[..i]) == Names(ls);
    }
  }

  /** The body of the promoter loop, once the row is read: a new name gets
      an empty list (and its place in the insertion order), then a non-empty
      store is pushed onto the name's list. */
  method RecordPromoterLine(keys: seq<string>, promoterMap: map<string, seq<string>>, line: PromoterLine)
    returns (keys': seq<string>, promoterMap': map<string, seq<string>>)
    ensures promoterMap' == AddPromoterLine(promoterMap, line)
    ensures keys' == if line.Line? && line.name !in promoterMap then keys + [line.name] else keys
  {
    keys', promoterMap' := keys, promoterMap;
    if line.Line? {
      var promoterName, storeName := line.name, line.store;
      if promoterName !in promoterMap' {
        promoterMap' := promoterMap'[promoterName := []];
        keys' := keys' + [promoterName];
      }
      if storeName != "" {
        promoterMap' := promoterMap'[promoterName := promoterMap'[promoterName] + [storeName]];
      }
    }
  }

  /** The promoter loop, from row 1: `promoterMap` (a `Map`, kept here as its
      entries and its keys in insertion order) gets a key for every promoter
      name and, under it, the stores of that promoter's rows. */
  method GatherPromoters(data: Table) returns (keys: seq<string>, promoterMap: map<string, seq<string>>)
    ensures var ls := PromoterLines(Body(data));
      && keys == FirstOccurrences(Names(ls))
      && (forall n :: n in promoterMap <==> n in keys)
      && (forall n :: n in promoterMap ==> promoterMap[n] == StoresOf(ls, n))
  {
    var ls := PromoterLines(Body(data));
    keys, promoterMap := [], map[];
    var i := 1;
    while i < |data|
      invariant 1 <= i && i - 1 <= |ls|
      invariant keys == FirstOccurrences(Names(ls[..i - 1]))
      invariant promoterMap == PromoterMap(ls[..i - 1])
    {
      ghost var keys0, map0 := keys, promoterMap;
      var line := PromoterLineOf(data[i]);
      keys, promoterMap := RecordPromoterLine(keys, promoterMap, line);
      assert ls[i - 1] == line;
      i := i + 1;
      PromoterRowStep(ls, i - 1, keys0, map0, keys, promoterMap);
      assert keys == FirstOccurrences(Names(ls[..i - 1])) && promoterMap == PromoterMap(ls[..i - 1]);
    }
    assert ls[..i - 1] == ls;
    PromoterMapSpec(ls);
  }

  /** The loop that turns the map into the `promoters` list, visiting the
      keys in the order `order`. */
  method ListPromoters(ls: seq<PromoterLine>, order: seq<string>, promoterMap: map<string, seq<string>>)
    returns (promoters: seq<Promoter>)
    requires forall x :: x in order ==> x in promoterMap && promoterMap[x] == StoresOf(ls, x)
    ensures promoters == PromotersIn(ls, order)
  {
    promoters := [];
    var k := 0;
    while k < |order|
      invariant 0 <= k <= |order|
      invariant promoters == PromotersIn(ls, order[..k])
    {
      var name := order[k];
      PromotersInStep(ls, order, k);
      promoters := promoters + [Promoter(name, promoterMap[name])];
      k := k + 1;
    }
    assert order[..k] == order;
  }

  /** The promoter loop, then `promoterMap.forEach`, which visits the keys in
      insertion order. */
  method CollectPromoters(data: Table) returns (promoters: seq<Promoter>)
    ensures promoters == GroupPromoters(Body(data))
  {
    var keys, promoterMap := GatherPromoters(data);
    promoters := ListPromoters(PromoterLines(Body(data)), keys, promoterMap);
  }

  /** `stores` is the de-duplicated list after the store names `cs`, and
      `storeSet` holds exactly its names. */
  ghost predicate Deduplicated(cs: seq<string>, stores: seq<string>, storeSet: set<string>) {
    stores == FirstOccurrences(NonEmpty(cs)) && storeSet == set x | x in stores
  }

  /** One iteration of the store loop keeps `Deduplicated`. */
  lemma StoreRowStep(all: seq<string>, i: nat, stores: seq<string>, storeSet: set<string>,
                     stores': seq<string>, storeSet': set<string>)
    requires 0 < i <= |all|
    requires Deduplicated(all[..i - 1], stores, storeSet)
    requires var c := all[i - 1];
      if c != "" && c !in storeSet then stores' == stores + [c] && storeSet' == storeSet + {c}
      else stores' == stores && storeSet' == storeSet
    ensures Deduplicated(all[..i], stores', storeSet')
  {
    var cs, c := all[..i - 1], all[i - 1];
    assert all[..i] == cs + [c];
    NonEmptyStep(cs, c);
    FirstOccurrencesStep(NonEmpty(cs), c);
    if c != "" && c !in storeSet {
      assert (set x | x in stores') == (set x | x in stores) + {c};
    } else if c != "" {
      assert c in stores;
    } else {
      assert NonEmpty(cs + [c]) == NonEmpty(cs);
    }
  }

  /** The store loop: `storeSet` remembers the names already pushed. */
  method CollectStores(data: Table) returns (stores: seq<string>)
    ensures stores == StoreList(Body(data))
  {
    var cs := StoreCells(Body(data));
    stores := [];
    var storeSet: set<string> := {};
    var i := 1;
    while i < |data|
      invariant 1 <= i && i - 1 <= |cs|
      invariant Deduplicated(cs[..i - 1], stores, storeSet)
    {
      ghost var stores0, storeSet0 := stores, storeSet;
      var storeName := StoreCellName(data[i]);
      if storeName != "" && storeName !in storeSet {
        storeSet := storeSet + {storeName};
        stores := stores + [storeName];
      }
      assert cs[i - 1] == storeName;
      i := i + 1;
      StoreRowStep(cs, i - 1, stores0, storeSet0, stores, storeSet);
    }
    assert cs[..i - 1] == cs;
  }

  /** `modelCompetitors` after the lines `ls`, built as the model loop
      builds it; `ModelMapAgrees` says it is `CompetitorMap(ls)`. */
  ghost function ModelMap(ls: seq<ModelLine>): map<string, seq<string>> {
    if ls == [] then map[] else AddModelLine(ModelMap(Init(ls)), Last(ls))
  }

  /** One line: a new non-empty model starts with no competitors, then a
      competitor that is neither empty nor the model is appended. */
  ghost function AddModelLine(mc: map<string, seq<string>>, l: ModelLine): map<string, seq<string>> {
    if l.model == "" then mc
    else
      var mc1 := if l.model in mc then mc else mc[l.model := []];
      if l.competitor != "" && l.competitor != l.model then mc1[l.model := mc1[l.model] + [l.competitor]] else mc1
  }

  /** The update of one line, as a single store into the map. */
  lemma AddModelLineValue(mc: map<string, seq<string>>, l: ModelLine)
    ensures var m, c := l.model, l.competitor;
      AddModelLine(mc, l) ==
        if m == "" then mc
        else mc[m := (if m in mc then mc[m] else []) + if c != "" && c != m then [c] else []]
  {
    var m, c := l.model, l.competitor;
    if m != "" {
      var r := AddModelLine(mc, l);
      var v := (if m in mc then mc[m] else []) + if c != "" && c != m then [c] else [];
      assert r.Keys == mc[m := v].Keys;
      assert r[m] == v;
      assert forall k :: k in r ==> r[k] == mc[m := v][k];
    }
  }

  /** The map the loop builds is the map of every model to its competitors. */
  lemma {:induction false} ModelMapAgrees(ls: seq<ModelLine>)
    ensures ModelMap(ls) == CompetitorMap(ls)
  {
    if ls != [] {
      ModelMapAgrees(Init(ls));
      CompetitorMapStep(Init(ls), Last(ls));
      assert Init(ls) + [Last(ls)] == ls;
      AddModelLineValue(CompetitorMap(Init(ls)), Last(ls));
    }
  }

  /** One iteration of the model loop adds line `i - 1`. */
  lemma ModelRowStep(all: seq<ModelLine>, i: nat, mc: map<string, seq<string>>, mc': map<string, seq<string>>)
    requires 0 < i <= |all|
    requires mc == ModelMap(all[..i - 1]) && mc' == AddModelLine(mc, all[i - 1])
    ensures mc' == ModelMap(all[..i])
  {
    assert Init(all[..i]) == all[..i - 1] && Last(all[..i]) == all[i - 1];
  }

  /** The body of the model loop, once the row is read: a new non-empty
      model gets an empty list, then a competitor that is neither empty nor
      the model is pushed onto it. */
  method RecordModelLine(modelCompetitors: map<string, seq<string>>, line: ModelLine)
    returns (modelCompetitors': map<string, seq<string>>)
    ensures modelCompetitors' == AddModelLine(modelCompetitors, line)
  {
    modelCompetitors' := modelCompetitors;
    var model, competitor := line.model, line.competitor;
    if model != "" {
      if model !in modelCompetitors' {
        modelCompetitors' := modelCompetitors'[model := []];
      }
      if competitor != "" && competitor != model {
        modelCompetitors' := modelCompetitors'[model := modelCompetitors'[model] + [competitor]];
      }
    }
  }

  /** The model loop, from row 1: `modelCompetitors[model]` is created on the
      first row of a model and grows by each competitor that is neither empty
      nor the model itself. */
  method CollectModelCompetitors(data: Table) returns (modelCompetitors: map<string, seq<string>>)
    ensures modelCompetitors == ModelCompetitors(Body(data))
  {
    var ls := ModelLines(Body(data));
    modelCompetitors := map[];
    var i := 1;
    while i < |data|
      invariant 1 <= i && i - 1 <= |ls|
      invariant modelCompetitors == ModelMap(ls[..i - 1])
    {
      ghost var mc0 := modelCompetitors;
      var line := ModelLineOf(data[i]);
      modelCompetitors := RecordModelLine(modelCompetitors, line);
      assert ls[i - 1] == line;
      i := i + 1;
      ModelRowStep(ls, i - 1, mc0, modelCompetitors);
      assert modelCompetitors == ModelMap(ls[..i - 1]);
    }
    assert ls[..i - 1] == ls;
    ModelMapAgrees(ls);
  }

  /** The answer of `getInitialData` for a spreadsheet (`None`: it could not
      be opened). A missing sheet reads as an empty table. */
  function InitialDataPayload(book: Option<Book>): Payload {
    if book.None? then Failed(LOAD_FAILED, OPEN_ERROR)
    else
      var b := book.value;
      InitialData(GroupPromoters(Body(Values(b.promoters))), StoreList(Body(Values(b.stores))),
                  ModelCompetitors(Body(Values(b.models))))
  }

  function InitialDataResponse(stringify: Json -> string, params: Params, book: Option<Book>): Response {
    Reply(stringify, params, InitialDataPayload(book), if book.None? then Some(500) else None)
  }

  method GetInitialData(stringify: Json -> string, params: Params, ss: Spreadsheet?) returns (r: Response)
    ensures r == InitialDataResponse(stringify, params, Snapshot(ss))
  {
    if ss == null {
      r := Reply(stringify, params, Failed(LOAD_FAILED, OPEN_ERROR), Some(500));
      return;
    }
    var promoters := CollectPromoters(Values(ss.promoters));
    var stores := CollectStores(Values(ss.stores));
    var modelCompetitors := CollectModelCompetitors(Values(ss.models));
    r := Reply(stringify, params, InitialData(promoters, stores, modelCompetitors), None);
  }

  /** A missing reference sheet gives an empty list or map, not an error. */
  lemma MissingReferenceSheets(book: Book)
    ensures book.promoters.None? ==> InitialDataPayload(Some(book)).promoters == []
    ensures book.stores.None? ==> InitialDataPayload(Some(book)).stores == []
    ensures book.models.None? ==> InitialDataPayload(Some(book)).modelCompetitors == map[]
  {
    assert Body([]) == [];
    assert FirstOccurrences(Names(PromoterLines([]))) == [];
    assert NonEmpty(StoreCells([])) == [];
    assert ModelNames(ModelLines([])) == [];
  }

  // ---------------------------------------------------------------------------
  // submitData: payload, validation and rows
  // ---------------------------------------------------------------------------

  const NO_DATA := "No data received in the request"

  /** The messages of the `TypeError`s thrown by reading a property of
      `null`: a `null` payload, and a `null` entry of `competitors`. */
  const NULL_PAYLOAD_ERROR := "Cannot read properties of null (reading 'promoterName')"
  const NULL_COMPETITOR_ERROR := "Cannot read properties of null (reading 'name')"

  /** The parsed payload: the POST body when there is a non-empty one, else
      the `data` parameter when it is non-empty, else the no-data error.
      `parse` is `JSON.parse`, its failure the message of its exception. */
  function ReadPayload(params: Params, postContents: Option<string>, parse: string -> Result<Json, string>): Result<Json, string> {
    if postContents.Some? && postContents.value != "" then parse(postContents.value)
    else if "data" in params && params["data"] != "" then parse(params["data"])
    else Failure(NO_DATA)
  }

  const REQUIRED_FIELDS: seq<string> := ["promoterName", "storeName", "saleDate", "ourModel", "competitors"]

  /** The test the validation applies to one field: `competitors` must be an
      array (an empty one passes), every other field must be truthy. */
  predicate FieldMissing(d: Json, field: string) {
    if field == "competitors" then !(Get(d, field).Some? && Get(d, field).value.JArray?)
    else !JsTruthy(Get(d, field))
  }

  /** `[field]` when the field fails its test. */
  function Check(d: Json, field: string): seq<string> {
    if FieldMissing(d, field) then [field] else []
  }

  /** The fields the validation reports, in the order it checks them. */
  function MissingFields(d: Json): seq<string> {
    Check(d, "promoterName") + Check(d, "storeName") + Check(d, "saleDate") + Check(d, "ourModel")
    + Check(d, "competitors")
  }

  /** The five checks of the validation, one push per failing field. */
  method ValidateFields(d: Json) returns (missingFields: seq<string>)
    ensures missingFields == MissingFields(d)
  {
    missingFields := [];
    if !JsTruthy(Get(d, "promoterName")) { missingFields := missingFields + ["promoterName"]; }
    assert missingFields == Check(d, "promoterName");
    if !JsTruthy(Get(d, "storeName")) { missingFields := missingFields + ["storeName"]; }
    assert missingFields == Check(d, "promoterName") + Check(d, "storeName");
    if !JsTruthy(Get(d, "saleDate")) { missingFields := missingFields + ["saleDate"]; }
    assert missingFields == Check(d, "promoterName") + Check(d, "storeName") + Check(d, "saleDate");
    if !JsTruthy(Get(d, "ourModel")) { missingFields := missingFields + ["ourModel"]; }
    assert missingFields == Check(d, "promoterName") + Check(d, "storeName") + Check(d, "saleDate")
      + Check(d, "ourModel");
    var competitors := Get(d, "competitors");
    if !JsTruthy(competitors) || !competitors.value.JArray? { missingFields := missingFields + ["competitors"]; }
  }

  /** The position of a required field in the order of the checks. */
  function FieldRank(f: string): nat {
    if f == "promoterName" then 0 else if f == "storeName" then 1 else if f == "saleDate" then 2
    else if f == "ourModel" then 3 else 4
  }

  /** The validation reports a field exactly when it fails its test. */
  lemma MissingFieldsMembers(d: Json, f: string)
    ensures f in MissingFields(d) <==> f in REQUIRED_FIELDS && FieldMissing(d, f)
  {
    assert f in REQUIRED_FIELDS <==>
      f == "promoterName" || f == "storeName" || f == "saleDate" || f == "ourModel" || f == "competitors";
    var c0, c1, c2, c3 := Check(d, "promoterName"), Check(d, "storeName"), Check(d, "saleDate"), Check(d, "ourModel");
    assert f in c0 + c1 <==> f in c0 || f in c1;
    assert f in c0 + c1 + c2 <==> f in c0 + c1 || f in c2;
    assert f in c0 + c1 + c2 + c3 <==> f in c0 + c1 + c2 || f in c3;
  }

  /** Ranks increase along `r + c`, where `c` is the check of a field ranked
      after everything in `r`. */
  lemma RankedAppend(r: seq<string>, f: string, c: seq<string>)
    requires forall i, j :: 0 <= i < j < |r| ==> FieldRank(r[i]) < FieldRank(r[j])
    requires forall i :: 0 <= i < |r| ==> FieldRank(r[i]) < FieldRank(f)
    requires c == [] || c == [f]
    ensures forall i, j :: 0 <= i < j < |r + c| ==> FieldRank((r + c)[i]) < FieldRank((r + c)[j])
    ensures forall i :: 0 <= i < |r + c| ==> FieldRank((r + c)[i]) <= FieldRank(f)
  {
  }

  /** The validation reports each field at most once, in the order in which
      the fields are checked. */
  lemma MissingFieldsOrdered(d: Json)
    ensures var r := MissingFields(d);
      forall i, j :: 0 <= i < j < |r| ==> FieldRank(r[i]) < FieldRank(r[j])
  {
    var c0, c1, c2, c3, c4 := Check(d, "promoterName"), Check(d, "storeName"), Check(d, "saleDate"),
                              Check(d, "ourModel"), Check(d, "competitors");
    RankedAppend(c0, "storeName", c1);
    RankedAppend(c0 + c1, "saleDate", c2);
    RankedAppend(c0 + c1 + c2, "ourModel", c3);
    RankedAppend(c0 + c1 + c2 + c3, "competitors", c4);
  }

  /** A payload that passes the validation: the four truthy values as they
      are, and the competitors array. */
  datatype Submission = Submission(promoterName: Json, storeName: Json, saleDate: Json, ourModel: Json,
                                   competitors: seq<Json>)

  /** The validated submission, or the fields the validation reports. */
  function Validated(d: Json): (r: Result<Submission, seq<string>>)
    ensures r.Failure? <==> MissingFields(d) != []
    ensures r.Failure? ==> r.error == MissingFields(d)
    ensures r.Success? ==>
      && Get(d, "promoterName") == Some(r.value.promoterName) && Get(d, "storeName") == Some(r.value.storeName)
      && Get(d, "saleDate") == Some(r.value.saleDate) && Get(d, "ourModel") == Some(r.value.ourModel)
      && Get(d, "competitors") == Some(JArray(r.value.competitors))
  {
    var missing := MissingFields(d);
    if missing != [] then Failure(missing)
    else
      Success(Submission(Get(d, "promoterName").value, Get(d, "storeName").value, Get(d, "saleDate").value,
                         Get(d, "ourModel").value, Get(d, "competitors").value.items))
  }

  /** The row written for one competitor; `x || ''` turns every falsy
      value, `0` included, into the empty string. */
  function SaleRow(now: int, s: Submission, c: Json): SalesRow {
    [Stamp(now), Value(s.promoterName), Value(s.storeName), Value(s.saleDate), Value(s.ourModel),
     Value(OrEmpty(Get(c, "name"))), Value(OrEmpty(Get(c, "sales"))), Value(OrEmpty(Get(c, "stock")))]
  }

  /** The `rows` batch, or `None` when the loop reaches a `null` competitor. */
  function SaleRows(now: int, s: Submission): Option<seq<SalesRow>> {
    if JNull in s.competitors then None
    else Some(seq(|s.competitors|, k requires 0 <= k < |s.competitors| => SaleRow(now, s, s.competitors[k])))
  }

  /** The `forEach` that prepares the rows, all with the same timestamp. */
  method BuildRows(now: int, s: Submission) returns (rows: Option<seq<SalesRow>>)
    ensures rows == SaleRows(now, s)
  {
    var cs := s.competitors;
    var batch: seq<SalesRow> := [];
    var k := 0;
    while k < |cs|
      invariant 0 <= k <= |cs|
      invariant JNull !in cs[..k]
      invariant batch == seq(k, j requires 0 <= j < k => SaleRow(now, s, cs[j]))
    {
      if cs[k] == JNull {
        assert JNull in cs;
        return None;
      }
      batch := batch + [SaleRow(now, s, cs[k])];
      assert cs[..k + 1] == cs[..k] + [cs[k]];
      k := k + 1;
    }
    assert cs[..k] == cs;
    assert JNull !in s.competitors;
    var all := SaleRows(now, s).value;
    assert |all| == |batch| && forall j :: 0 <= j < |cs| ==> all[j] == batch[j];
    assert batch == all;
    rows := Some(batch);
  }

  // ---------------------------------------------------------------------------
  // handleRequest
  // ---------------------------------------------------------------------------

  /** What a request comes to: the response object, the status code passed
      to `createResponse` (`None`: left at its default), and the rows of the
      sales sheet afterwards (`None`: the spreadsheet could not be opened). */
  datatype Outcome = Outcome(payload: Payload, status: Option<int>, sales: Option<seq<SalesRow>>)

  /** The sales rows a save appends to: the existing sheet, or a new sheet
      holding the header row. */
  function Before(b: Book): seq<SalesRow> {
    if b.sales.Some? then b.sales.value else [SALES_HEADER]
  }

  /** Saving a validated submission: the header row first when the sales
      sheet is new, then the batch; a `null` competitor stops the batch after
      the header is written. */
  function Save(now: int, s: Submission, book: Option<Book>): Outcome {
    if book.None? then Outcome(Failed(SAVE_FAILED, OPEN_ERROR), Some(500), None)
    else
      var before := Before(book.value);
      var rows := SaleRows(now, s);
      if rows.None? then Outcome(Failed(SAVE_FAILED, NULL_COMPETITOR_ERROR), Some(500), Some(before))
      else Outcome(Saved(|rows.value|), None, Some(before + rows.value))
  }

  /** The `submitData` branch. */
  function Submit(parse: string -> Result<Json, string>, params: Params, postContents: Option<string>,
                  now: int, book: Option<Book>): Outcome {
    var kept := SalesOf(book);
    var read := ReadPayload(params, postContents, parse);
    if read.Failure? then Outcome(Failed(INVALID_FORMAT, read.error), Some(400), kept)
    else if read.value.JNull? then Outcome(Failed(UNEXPECTED_ERROR, NULL_PAYLOAD_ERROR), Some(500), kept)
    else
      var v := Validated(read.value);
      if v.Failure? then Outcome(Missing(v.error), Some(400), kept)
      else Save(now, v.value, book)
  }

  /** `The action '${action}' is not supported`. */
  function UnsupportedAction(params: Params): string {
    "The action '" + (if "action" in params then params["action"] else "undefined") + "' is not supported"
  }

  /** `handleRequest`, as a function of the request and of the spreadsheet
      `openById` gives. */
  function Handle(parse: string -> Result<Json, string>, params: Params, postContents: Option<string>,
                  now: int, book: Option<Book>): Outcome {
    var action := Param(params, "action");
    if action == Some("getData") then
      Outcome(InitialDataPayload(book), if book.None? then Some(500) else None, SalesOf(book))
    else if action == Some("submitData") then Submit(parse, params, postContents, now, book)
    else Outcome(Failed(INVALID_ACTION, UnsupportedAction(params)), Some(400), SalesOf(book))
  }

  /** `handleRequest(e)`: `params` is `e.parameter`, `postContents` the POST
      body (`None` without one), `now` the `new Date()` of the submission. */
  method HandleRequest(stringify: Json -> string, parse: string -> Result<Json, string>, params: Params,
                       postContents: Option<string>, now: int, ss: Spreadsheet?) returns (r: Response)
    modifies ss, if ss != null && ss.sales != null then {ss.sales} else {}
    ensures var o := Handle(parse, params, postContents, now, old(Snapshot(ss)));
      r == Reply(stringify, params, o.payload, o.status) && SalesOf(Snapshot(ss)) == o.sales
  {
    var action := Param(params, "action");
    if action == Some("getData") {
      r := GetInitialData(stringify, params, ss);
      return;
    } else if action != Some("submitData") {
      r := Reply(stringify, params, Failed(INVALID_ACTION, UnsupportedAction(params)), Some(400));
      return;
    }
    var read := ReadPayload(params, postContents, parse);
    if read.Failure? {
      r := Reply(stringify, params, Failed(INVALID_FORMAT, read.error), Some(400));
      return;
    }
    var jsonData := read.value;
    if jsonData.JNull? {
      r := Reply(stringify, params, Failed(UNEXPECTED_ERROR, NULL_PAYLOAD_ERROR), Some(500));
      return;
    }
    var missingFields := ValidateFields(jsonData);
    if |missingFields| > 0 {
      r := Reply(stringify, params, Missing(missingFields), Some(400));
      return;
    }
    var submission := Validated(jsonData).value;
    r := SaveSubmission(stringify, params, now, submission, ss);
  }

  /** The `try` block that opens the spreadsheet and writes the rows. */
  method SaveSubmission(stringify: Json -> string, params: Params, now: int, submission: Submission,
                        ss: Spreadsheet?) returns (r: Response)
    modifies ss, if ss != null && ss.sales != null then {ss.sales} else {}
    ensures var o := Save(now, submission, old(Snapshot(ss)));
      r == Reply(stringify, params, o.payload, o.status) && SalesOf(Snapshot(ss)) == o.sales
  {
    if ss == null {
      r := Reply(stringify, params, Failed(SAVE_FAILED, OPEN_ERROR), Some(500));
      return;
    }
    var sheet := ss.sales;
    if sheet == null {
      sheet := ss.InsertSalesSheet();
      sheet.AppendRow(SALES_HEADER);
    }
    ghost var before := Before(old(Snapshot(ss)).value);
    assert ss.sales == sheet && sheet.rows == before;
    var rows := BuildRows(now, submission);
    if rows.None? {
      r := Reply(stringify, params, Failed(SAVE_FAILED, NULL_COMPETITOR_ERROR), Some(500));
      return;
    }
    if |rows.value| > 0 {
      sheet.SetValuesBelowLastRow(rows.value);
    }
    assert sheet.rows == before + rows.value;
    r := Reply(stringify, params, Saved(|rows.value|), None);
  }
}
