/** The spreadsheet the endpoint works on, reduced to what the script reads
    and writes: three reference sheets read as tables of cells, and the sales
    sheet, which is created on first use and only ever appended to. */
module Workbook {
  import opened JsValues

  const SPREADSHEET_ID := "1-v4YUmLOvI4uiCT97F7f50Q2G2K-e1t13OFr52c0iV8"

  // The sheet titles of the SHEETS object, in declaration order.
  const SALES_SHEET := "DATA_VENTAS"
  const PROMOTERS_SHEET := "PROMOTORES"
  const STORES_SHEET := "TIENDAS"
  const MODELS_SHEET := "MODELOS"
  const COMPETITORS_SHEET := "COMPETIDORES"
  const SHEET_TITLES: seq<string> :=
    [SALES_SHEET, PROMOTERS_SHEET, STORES_SHEET, MODELS_SHEET, COMPETITORS_SHEET]

  // Column indices (0-based).
  const PROMOTER_COL: nat := 0
  const STORE_COL: nat := 1
  const MODEL_COL: nat := 0
  const COMPETITOR_COL: nat := 1

  /** One row of `getDataRange().getValues()`. */
  type Row = seq<Cell>
  type Table = seq<Row>

  /** `row[col]`: `None` past the end of the row. */
  function At(row: Row, col: nat): Option<Cell> {
    if col < |row| then Some(row[col]) else None
  }

  /** `sheet ? sheet.getDataRange().getValues() : []`: a missing sheet reads
      as an empty table. */
  function Values(sheet: Option<Table>): Table {
    if sheet.Some? then sheet.value else []
  }

  /** The rows after the header row. */
  function Body(t: Table): seq<Row> {
    if |t| == 0 then [] else t[1..]
  }

  /** A cell written to the sales sheet: the submission's `Date`, or a value
      taken from the request. */
  datatype SalesCell = Stamp(time: int) | Value(json: Json)
  type SalesRow = seq<SalesCell>

  /** The header row written when the sales sheet is created. */
  const SALES_HEADER: SalesRow := [
    Value(JString("Timestamp")), Value(JString("Promoter Name")), Value(JString("Store Name")),
    Value(JString("Date")), Value(JString("Our Model")), Value(JString("Competitor Name")),
    Value(JString("Sales")), Value(JString("Stock"))]

  /** The DATA_VENTAS sheet. Nothing but appending changes its rows. */
  class SalesSheet {
    var rows: seq<SalesRow>

    /** `ss.insertSheet(name)`: a new, empty sheet. */
    constructor ()
      ensures rows == []
    {
      rows := [];
    }

    /** `sheet.appendRow(row)`. */
    method AppendRow(row: SalesRow)
      modifies this
      ensures rows == old(rows) + [row]
    {
      rows := rows + [row];
    }

    /** `sheet.getRange(sheet.getLastRow() + 1, 1, block.length,
        block[0].length).setValues(block)`: the block lands right below the
        last row. A range of zero rows is an error on the platform, so the
        block is never empty. */
    method SetValuesBelowLastRow(block: seq<SalesRow>)
      requires |block| > 0
      modifies this
      ensures rows == old(rows) + block
    {
      rows := rows + block;
    }
  }

  /** The spreadsheet opened by id. The reference sheets are only read; the
      sales sheet is `null` until it is inserted. */
  class Spreadsheet {
    const promoters: Option<Table>
    const stores: Option<Table>
    const models: Option<Table>
    var sales: SalesSheet?

    constructor (promoters: Option<Table>, stores: Option<Table>, models: Option<Table>, sales: SalesSheet?)
      ensures this.promoters == promoters && this.stores == stores && this.models == models
      ensures this.sales == sales
    {
      this.promoters := promoters;
      this.stores := stores;
      this.models := models;
      this.sales := sales;
    }

    /** `ss.insertSheet(SHEETS.SALES)`, which the script only calls when the
        sheet is absent. */
    method InsertSalesSheet() returns (sheet: SalesSheet)
      requires sales == null
      modifies this
      ensures fresh(sheet) && sales == sheet && sheet.rows == []
    {
      sheet := new SalesSheet();
      sales := sheet;
    }
  }

  /** The contents of a spreadsheet as a value. */
  datatype Book = Book(promoters: Option<Table>, stores: Option<Table>, models: Option<Table>,
                       sales: Option<seq<SalesRow>>)

  /** What `SpreadsheetApp.openById` gives access to: `None` when it could not
      open the spreadsheet. */
  function Snapshot(ss: Spreadsheet?): Option<Book>
    reads ss, if ss == null then {} else {ss.sales}
  {
    if ss == null then None
    else Some(Book(ss.promoters, ss.stores, ss.models,
                   if ss.sales == null then None else Some(ss.sales.rows)))
  }

  /** The sales rows of a book (none when it could not be opened). */
  function SalesOf(book: Option<Book>): Option<seq<SalesRow>> {
    if book.None? then None else book.value.sales
  }
}
