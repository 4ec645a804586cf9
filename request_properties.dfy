/** What `handleRequest` of google-apps-script-fixed.js promises, stated on
    its specification `Handle`: which status goes with which answer, that
    the sales sheet only ever grows and only by a save, what a successful
    save writes, and where the payload is taken from. */
module FixedProperties {
  import opened JsValues
  import opened Workbook
  import opened ReferenceData
  import opened Responses
  import opened FixedScript

  /** A request that is not `submitData` writes nothing. */
  lemma OnlySubmitWrites(parse: string -> Result<Json, string>, params: Params, postContents: Option<string>,
                         now: int, book: Option<Book>)
    requires Param(params, "action") != Some("submitData")
    ensures var o := Handle(parse, params, postContents, now, book);
      && o.sales == SalesOf(book)
      && (Param(params, "action") == Some("getData") ==> o.payload == InitialDataPayload(book))
      && (Param(params, "action") != Some("getData") ==>
            o.payload == Failed(INVALID_ACTION, UnsupportedAction(params)) && o.status == Some(400))
  {
  }

  /** The status and the answer agree: the status is left at its default
      exactly for the two success answers, 400 goes with the client's
      mistakes (unreadable payload, missing fields, unknown action) and 500
      with everything else. In JSONP mode no status is ever set. */
  lemma StatusOfOutcome(stringify: Json -> string, parse: string -> Result<Json, string>, params: Params,
                        postContents: Option<string>, now: int, book: Option<Book>)
    ensures var o := Handle(parse, params, postContents, now, book);
      && (o.status.None? <==> IsSuccess(o.payload))
      && (o.status.Some? ==> o.status.value == 400 || o.status.value == 500)
      && (o.status == Some(400) <==>
            o.payload.Missing? || (o.payload.Failed? && o.payload.message in {INVALID_FORMAT, INVALID_ACTION}))
    ensures var o := Handle(parse, params, postContents, now, book);
      var r := Reply(stringify, params, o.payload, o.status);
      && (IsJsonp(params) ==> r.statusCode.None?)
      && (!IsJsonp(params) ==> (HttpStatus(r) == 200 <==> IsSuccess(o.payload)))
  {
    var o := Handle(parse, params, postContents, now, book);
    var action := Param(params, "action");
    if action == Some("submitData") {
      var read := ReadPayload(params, postContents, parse);
      if read.Success? && !read.value.JNull? && Validated(read.value).Success? {
        assert o == Save(now, Validated(read.value).value, book);
      }
    }
  }

  /** Rows are only ever appended: the rows there before stay, in place, and
      a sheet the request creates starts with the header row. A spreadsheet
      that cannot be opened has no rows afterwards either. */
  lemma SalesAppendOnly(parse: string -> Result<Json, string>, params: Params, postContents: Option<string>,
                        now: int, book: Option<Book>)
    ensures var o := Handle(parse, params, postContents, now, book);
      && (book.None? ==> o.sales.None?)
      && (SalesOf(book).Some? ==> o.sales.Some? && SalesOf(book).value <= o.sales.value)
      && (book.Some? && SalesOf(book).None? ==> o.sales.None? || [SALES_HEADER] <= o.sales.value)
  {
    var o := Handle(parse, params, postContents, now, book);
    if o.sales != SalesOf(book) {
      SaveWrites(parse, params, postContents, now, book);
    }
  }

  /** The sales rows change only in the save branch, and then by the header
      row (when the sheet is new) and the batch. */
  lemma SaveWrites(parse: string -> Result<Json, string>, params: Params, postContents: Option<string>,
                   now: int, book: Option<Book>)
    ensures var o := Handle(parse, params, postContents, now, book);
      o.sales != SalesOf(book) ==>
        && Param(params, "action") == Some("submitData") && book.Some?
        && (o.payload.Saved? || o.payload == Failed(SAVE_FAILED, NULL_COMPETITOR_ERROR))
        && o.sales.Some? && Before(book.value) <= o.sales.value
  {
    var o := Handle(parse, params, postContents, now, book);
    var read := ReadPayload(params, postContents, parse);
    if Param(params, "action") == Some("submitData") && read.Success? && !read.value.JNull?
       && Validated(read.value).Success? && book.Some? {
      var s := Validated(read.value).value;
      assert o == Save(now, s, book);
      if SaleRows(now, s).Some? {
        assert Before(book.value) <= Before(book.value) + SaleRows(now, s).value;
      }
    }
  }

  /** A valid submission, with the spreadsheet open and no `null`
      competitor, is answered with the number of competitors and appends one
      row per competitor, in order, after the header row when the sheet is
      new. Every row carries the same timestamp and the four fields as sent;
      the competitor's name, sales and stock are written as sent when truthy
      and as `''` otherwise, `0` included. An empty competitors array passes
      the validation and is saved as no rows. */
  lemma SavedSubmission(parse: string -> Result<Json, string>, params: Params, postContents: Option<string>,
                        now: int, b: Book, d: Json)
    requires Param(params, "action") == Some("submitData")
    requires ReadPayload(params, postContents, parse) == Success(d)
    requires Validated(d).Success? && JNull !in Validated(d).value.competitors
    ensures var o, s := Handle(parse, params, postContents, now, Some(b)), Validated(d).value;
      var cs, n := s.competitors, |Before(b)|;
      && o.payload == Saved(|cs|) && o.status.None?
      && o.sales.Some? && |o.sales.value| == n + |cs| && o.sales.value[..n] == Before(b)
      && forall k :: 0 <= k < |cs| ==>
           var row := o.sales.value[n + k];
           && |row| == 8 && row[0] == Stamp(now)
           && row[1..5] == [Value(s.promoterName), Value(s.storeName), Value(s.saleDate), Value(s.ourModel)]
           && row[5] == Value(if JsTruthy(Get(cs[k], "name")) then Get(cs[k], "name").value else JString(""))
           && row[6] == Value(if JsTruthy(Get(cs[k], "sales")) then Get(cs[k], "sales").value else JString(""))
           && row[7] == Value(if JsTruthy(Get(cs[k], "stock")) then Get(cs[k], "stock").value else JString(""))
  {
    var s := Validated(d).value;
    assert Get(d, "promoterName") == Some(s.promoterName);
    assert Handle(parse, params, postContents, now, Some(b)) == Save(now, s, Some(b));
    SaveAppends(now, s, b);
  }

  /** The save of a submission without a `null` competitor, on an open
      spreadsheet. */
  lemma SaveAppends(now: int, s: Submission, b: Book)
    requires JNull !in s.competitors
    ensures var o, cs, n := Save(now, s, Some(b)), s.competitors, |Before(b)|;
      && o.payload == Saved(|cs|) && o.status.None?
      && o.sales.Some? && |o.sales.value| == n + |cs| && o.sales.value[..n] == Before(b)
      && forall k :: 0 <= k < |cs| ==> o.sales.value[n + k] == SaleRow(now, s, cs[k])
  {
    var rows := SaleRows(now, s).value;
    var all := Before(b) + rows;
    assert all[..|Before(b)|] == Before(b);
    forall k | 0 <= k < |s.competitors| ensures all[|Before(b)| + k] == SaleRow(now, s, s.competitors[k]) {
      assert all[|Before(b)| + k] == rows[k];
    }
  }

  /** A `null` competitor fails the save after the header row of a new sheet
      has been written, and before any data row is. */
  lemma NullCompetitorKeepsHeader(parse: string -> Result<Json, string>, params: Params,
                                  postContents: Option<string>, now: int, b: Book, d: Json)
    requires Param(params, "action") == Some("submitData")
    requires ReadPayload(params, postContents, parse) == Success(d)
    requires Validated(d).Success? && JNull in Validated(d).value.competitors
    ensures Handle(parse, params, postContents, now, Some(b)) ==
      Outcome(Failed(SAVE_FAILED, NULL_COMPETITOR_ERROR), Some(500), Some(Before(b)))
  {
    assert Get(d, "promoterName").Some?;
  }

  /** A payload that fails the validation is answered with exactly the
      fields it lacks and writes nothing. */
  lemma MissingFieldsRejected(parse: string -> Result<Json, string>, params: Params,
                              postContents: Option<string>, now: int, book: Option<Book>, d: Json)
    requires Param(params, "action") == Some("submitData")
    requires ReadPayload(params, postContents, parse) == Success(d) && d != JNull
    requires MissingFields(d) != []
    ensures Handle(parse, params, postContents, now, book) == Outcome(Missing(MissingFields(d)), Some(400), SalesOf(book))
  {
  }

  /** With neither a POST body nor a `data` parameter the payload is
      rejected as unreadable, with the no-data message. */
  lemma NoDataRejected(parse: string -> Result<Json, string>, params: Params, postContents: Option<string>,
                       now: int, book: Option<Book>)
    requires Param(params, "action") == Some("submitData")
    requires postContents.None? || postContents.value == ""
    requires "data" !in params || params["data"] == ""
    ensures Handle(parse, params, postContents, now, book) == Outcome(Failed(INVALID_FORMAT, NO_DATA), Some(400), SalesOf(book))
  {
  }

  /** A non-empty POST body wins: the `data` parameter is then ignored. */
  lemma PostBodyFirst(parse: string -> Result<Json, string>, params: Params, postContents: Option<string>,
                      now: int, book: Option<Book>, data: string)
    requires postContents.Some? && postContents.value != ""
    ensures Handle(parse, params, postContents, now, book) == Handle(parse, params["data" := data], postContents, now, book)
  {
    var params' := params["data" := data];
    assert Param(params', "action") == Param(params, "action");
    assert UnsupportedAction(params') == UnsupportedAction(params);
  }

  /** A `null` payload gets past the parsing and fails on its first field
      read, in the outer handler. */
  lemma NullPayloadUnexpected(parse: string -> Result<Json, string>, params: Params,
                              postContents: Option<string>, now: int, book: Option<Book>)
    requires Param(params, "action") == Some("submitData")
    requires ReadPayload(params, postContents, parse) == Success(JNull)
    ensures Handle(parse, params, postContents, now, book) ==
      Outcome(Failed(UNEXPECTED_ERROR, NULL_PAYLOAD_ERROR), Some(500), SalesOf(book))
  {
  }
}
