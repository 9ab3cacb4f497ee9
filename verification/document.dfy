/**
 * What a renderer produces, as structure rather than markup: which lines,
 * rows and blocks appear and what they say. Every money figure stays a `real`;
 * the two-decimal display formatting is not part of the model.
 */
module Document {
  import opened Base
  import opened InvoiceTypes
  import opened Totals

  /**
   * The lines shown for one company. `None` means the line is not emitted;
   * `Some(text)` means it is emitted showing `text`.
   */
  datatype Party = Party(
    name: string,
    address: string,
    phone: Option<string>,
    email: Option<string>,
    gstin: Option<string>)

  /** One row of the item table. `hsn` is `None` in a table without an HSN/SAC column. */
  datatype Row = Row(
    description: string,
    hsn: Option<string>,
    quantity: real,
    unitPrice: real,
    amount: real)

  datatype TaxKind = CgstLine | SgstLine | IgstLine | FlatTaxLine

  /** A tax row of the summary: its kind, the rate its label shows, and its amount. */
  datatype TaxLine = TaxLine(kind: TaxKind, rate: real, amount: real)

  /** The summary box: subtotal, tax rows, the discount row when shown, and the total. */
  datatype Summary = Summary(
    subtotal: real,
    taxLines: seq<TaxLine>,
    discount: Option<real>,
    total: real)

  /** The signature area: the uploaded image, or one of the fallbacks. */
  datatype Signature = Image(src: string) | NameFallback(text: string) | BlankBox

  datatype Doc = Doc(
    title: string,
    invoiceNumber: string,
    issuer: Party,
    client: Party,
    invoiceDate: string,
    dueDate: Option<string>,
    currency: Option<string>,
    rows: seq<Row>,
    summary: Summary,
    payment: Option<string>,
    signature: Signature,
    footnote: Option<string>)

  /** A line that is emitted only when `show` holds. */
  function Gated(show: bool, text: string): (r: Option<string>)
    ensures r.Some? <==> show
    ensures r.Some? ==> r.value == text
  {
    if show then Some(text) else None
  }

  /** The HSN/SAC cell: the code, or "N/A" when it is absent or empty. */
  function HsnCell(hsn: Option<string>): string {
    OrElse(hsn, "N/A")
  }

  /** The row an item becomes; `withHsn` selects the table layout that has an HSN/SAC column. */
  function RowOf(item: InvoiceItem, withHsn: bool): Row {
    Row(item.description,
        if withHsn then Some(HsnCell(item.hsn)) else None,
        item.quantity, item.price, Amount(item))
  }

  /** `items.map(...)`: one row per item, in item order. */
  function Rows(items: seq<InvoiceItem>, withHsn: bool): (rows: seq<Row>)
    ensures |rows| == |items|
    ensures forall i :: 0 <= i < |items| ==>
      && rows[i].description == items[i].description
      && rows[i].quantity == items[i].quantity
      && rows[i].unitPrice == items[i].price
      && rows[i].amount == items[i].quantity * items[i].price
      && (withHsn ==> rows[i].hsn == Some(HsnCell(items[i].hsn)))
      && (!withHsn ==> rows[i].hsn == None)
    decreases |items|
  {
    if |items| == 0 then [] else [RowOf(items[0], withHsn)] + Rows(items[1..], withHsn)
  }

  /** The sum of the amounts of a list of tax rows. */
  function TaxLinesTotal(lines: seq<TaxLine>): real {
    if |lines| == 0 then 0.0 else lines[0].amount + TaxLinesTotal(lines[1..])
  }
}
