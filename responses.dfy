/** What the endpoint sends back: the response objects the scripts build
    (`{status: 'success', data}`, `{status: 'error', message, details}`,
    ...), their JSON form, the constant CORS header set, and the two ways of
    framing a body (plain JSON, or JSONP `callback(json)`). `JSON.stringify`
    is a parameter wherever text is produced. */
module Responses {
  import opened JsValues
  import opened ReferenceData

  /** The object `setCorsHeaders` returns, in its key order. */
  const CORS_HEADERS: seq<(string, string)> := [
    ("Content-Type", "application/json"),
    ("Access-Control-Allow-Origin", "*"),
    ("Access-Control-Allow-Methods", "GET, POST, OPTIONS"),
    ("Access-Control-Allow-Headers", "Content-Type"),
    ("Access-Control-Max-Age", "3600")]

  /** The value of header `key` in a header list (the first one set). */
  function Header(headers: seq<(string, string)>, key: string): Option<string> {
    if headers == [] then None
    else if headers[0].0 == key then Some(headers[0].1)
    else Header(headers[1..], key)
  }

  // The messages of the response objects.
  const SAVED_MESSAGE := "Data saved successfully"
  const LOAD_FAILED := "Failed to load initial data"
  const INVALID_FORMAT := "Invalid request data format"
  const MISSING_FIELDS := "Missing required fields"
  const SAVE_FAILED := "Failed to save data"
  const INVALID_ACTION := "Invalid action"
  const UNEXPECTED_ERROR := "An unexpected error occurred"

  /** The response objects of the scripts. */
  datatype Payload =
    | InitialData(promoters: seq<Promoter>, stores: seq<string>, modelCompetitors: map<string, seq<string>>)
    | Saved(recordsAdded: nat)
    | Failed(message: string, details: string)
    | Missing(missingFields: seq<string>)

  predicate IsSuccess(p: Payload) {
    p.InitialData? || p.Saved?
  }

  // ---------------------------------------------------------------------------
  // The JSON form of a payload
  // ---------------------------------------------------------------------------

  function StringsJson(ss: seq<string>): Json {
    JArray(seq(|ss|, i requires 0 <= i < |ss| => JString(ss[i])))
  }

  function PromoterJson(p: Promoter): Json {
    JObject(map["name" := JString(p.name), "stores" := StringsJson(p.stores)])
  }

  function PromotersJson(ps: seq<Promoter>): Json {
    JArray(seq(|ps|, i requires 0 <= i < |ps| => PromoterJson(ps[i])))
  }

  function CompetitorsJson(mc: map<string, seq<string>>): Json {
    JObject(map m | m in mc :: StringsJson(mc[m]))
  }

  /** The object literal each branch of the scripts builds. */
  function PayloadJson(p: Payload): (j: Json)
    ensures Get(j, "status") == Some(JString(if IsSuccess(p) then "success" else "error"))
  {
    match p
    case InitialData(ps, ss, mc) =>
      JObject(map["status" := JString("success"),
                  "data" := JObject(map["promoters" := PromotersJson(ps), "stores" := StringsJson(ss),
                                        "modelCompetitors" := CompetitorsJson(mc)])])
    case Saved(n) =>
      JObject(map["status" := JString("success"), "message" := JString(SAVED_MESSAGE), "recordsAdded" := JNumber(n)])
    case Failed(message, details) =>
      JObject(map["status" := JString("error"), "message" := JString(message), "details" := JString(details)])
    case Missing(fields) =>
      JObject(map["status" := JString("error"), "message" := JString(MISSING_FIELDS),
                  "missingFields" := StringsJson(fields)])
  }

  // A reader for the JSON form, as the client would read it.

  function JsonStrings(j: Json): Option<seq<string>> {
    if j.JArray? && forall i :: 0 <= i < |j.items| ==> j.items[i].JString? then
      Some(seq(|j.items|, i requires 0 <= i < |j.items| => j.items[i].s))
    else None
  }

  function JsonPromoter(j: Json): Option<Promoter> {
    match (Get(j, "name"), Get(j, "stores"))
    case (Some(JString(name)), Some(stores)) =>
      if JsonStrings(stores).Some? then Some(Promoter(name, JsonStrings(stores).value)) else None
    case _ => None
  }

  function JsonPromoters(j: Json): Option<seq<Promoter>> {
    if j.JArray? && forall i :: 0 <= i < |j.items| ==> JsonPromoter(j.items[i]).Some? then
      Some(seq(|j.items|, i requires 0 <= i < |j.items| => JsonPromoter(j.items[i]).value))
    else None
  }

  function JsonCompetitors(j: Json): Option<map<string, seq<string>>> {
    if j.JObject? && forall m :: m in j.members ==> JsonStrings(j.members[m]).Some? then
      Some(map m | m in j.members :: JsonStrings(j.members[m]).value)
    else None
  }

  function JsonText(j: Option<Json>): Option<string> {
    if j.Some? && j.value.JString? then Some(j.value.s) else None
  }

  function JsonPayload(j: Json): Option<Payload> {
    var status, message := JsonText(Get(j, "status")), JsonText(Get(j, "message"));
    if status == Some("success") && Get(j, "data").Some? then
      var data := Get(j, "data").value;
      var ps, ss, mc := Get(data, "promoters"), Get(data, "stores"), Get(data, "modelCompetitors");
      if ps.Some? && ss.Some? && mc.Some? && JsonPromoters(ps.value).Some? && JsonStrings(ss.value).Some?
         && JsonCompetitors(mc.value).Some?
      then Some(InitialData(JsonPromoters(ps.value).value, JsonStrings(ss.value).value, JsonCompetitors(mc.value).value))
      else None
    else if status == Some("success") then
      match Get(j, "recordsAdded")
      case Some(JNumber(n)) => if n >= 0 && message == Some(SAVED_MESSAGE) then Some(Saved(n)) else None
      case _ => None
    else if status == Some("error") && message.Some? then
      if message == Some(MISSING_FIELDS) && Get(j, "missingFields").Some? then
        var fields := JsonStrings(Get(j, "missingFields").value);
        if fields.Some? then Some(Missing(fields.value)) else None
      else
        var details := JsonText(Get(j, "details"));
        if details.Some? then Some(Failed(message.value, details.value)) else None
    else None
  }

  lemma StringsRoundTrip(ss: seq<string>)
    ensures JsonStrings(StringsJson(ss)) == Some(ss)
  {
    var j := StringsJson(ss);
    assert forall i :: 0 <= i < |j.items| ==> j.items[i] == JString(ss[i]);
    assert JsonStrings(j).Some?;
    var r := JsonStrings(j).value;
    assert |r| == |ss| && forall i :: 0 <= i < |r| ==> r[i] == ss[i];
    assert r == ss;
  }

  lemma PromotersRoundTrip(ps: seq<Promoter>)
    ensures JsonPromoters(PromotersJson(ps)) == Some(ps)
  {
    var j := PromotersJson(ps);
    forall i | 0 <= i < |ps| ensures JsonPromoter(j.items[i]) == Some(ps[i]) {
      StringsRoundTrip(ps[i].stores);
    }
    assert JsonPromoters(j).Some?;
    var r := JsonPromoters(j).value;
    assert |r| == |ps| && forall i :: 0 <= i < |r| ==> r[i] == ps[i];
    assert r == ps;
  }

  lemma CompetitorsRoundTrip(mc: map<string, seq<string>>)
    ensures JsonCompetitors(CompetitorsJson(mc)) == Some(mc)
  {
    var j := CompetitorsJson(mc);
    forall m | m in mc ensures JsonStrings(j.members[m]) == Some(mc[m]) {
      StringsRoundTrip(mc[m]);
    }
    assert JsonCompetitors(j).Some?;
    var r := JsonCompetitors(j).value;
    assert r.Keys == mc.Keys && forall m :: m in r ==> r[m] == mc[m];
    assert r == mc;
  }

  /** The JSON form keeps everything: reading it back gives the payload
      again, except that a `Failed` payload whose message happens to be the
      missing-fields message is told apart only by its `details`. */
  lemma PayloadRoundTrip(p: Payload)
    requires p.Failed? ==> p.message != MISSING_FIELDS
    ensures JsonPayload(PayloadJson(p)) == Some(p)
  {
    match p
    case InitialData(ps, ss, mc) =>
      PromotersRoundTrip(ps);
      StringsRoundTrip(ss);
      CompetitorsRoundTrip(mc);
    case Saved(n) =>
    case Failed(message, details) =>
    case Missing(fields) =>
      StringsRoundTrip(fields);
  }

  // ---------------------------------------------------------------------------
  // Framing
  // ---------------------------------------------------------------------------

  datatype MimeType = JSON | JAVASCRIPT

  /** A `TextOutput` once the script has set its body, MIME type and headers,
      and, when it did, its status code. */
  datatype Response = Response(body: string, mimeType: MimeType, headers: seq<(string, string)>,
                               statusCode: Option<int>)

  /** The status the client receives: the one set, else the platform's 200. */
  function HttpStatus(r: Response): int {
    if r.statusCode.Some? then r.statusCode.value else 200
  }

  /** The JSONP body `${callback}(${json})`. */
  function JsonpText(callback: string, json: string): string {
    callback + "(" + json + ")"
  }

  /** How a JSONP client takes the JSON back out of the body. */
  function UnwrapJsonp(body: string, callback: string): Option<string> {
    var n := |callback|;
    if |body| >= n + 2 && body[..n] == callback && body[n] == '(' && body[|body| - 1] == ')' then
      Some(body[n + 1..|body| - 1])
    else None
  }

  /** Unwrapping with the same callback recovers exactly the JSON text, and a
      body unwraps to some text only when it is that text's framing. */
  lemma JsonpRoundTrip(callback: string, json: string, body: string)
    ensures UnwrapJsonp(JsonpText(callback, json), callback) == Some(json)
    ensures UnwrapJsonp(body, callback).Some? ==> body == JsonpText(callback, UnwrapJsonp(body, callback).value)
  {
    var t := JsonpText(callback, json);
    var n := |callback|;
    assert t[..n] == callback && t[n] == '(' && t[n + 1..|t| - 1] == json;
    if UnwrapJsonp(body, callback).Some? {
      assert body == body[..n] + [body[n]] + body[n + 1..|body| - 1] + [body[|body| - 1]];
    }
  }

  lemma CorsValues()
    ensures Header(CORS_HEADERS, "Content-Type") == Some("application/json")
    ensures Header(CORS_HEADERS, "Access-Control-Allow-Origin") == Some("*")
    ensures Header(CORS_HEADERS, "Access-Control-Allow-Methods") == Some("GET, POST, OPTIONS")
    ensures Header(CORS_HEADERS, "Access-Control-Allow-Headers") == Some("Content-Type")
    ensures Header(CORS_HEADERS, "Access-Control-Max-Age") == Some("3600")
  {
    var h := CORS_HEADERS;
    assert h[1..][1..][1..][1..] == [h[4]];
  }
}
