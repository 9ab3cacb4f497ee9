/**
 * The invoice shapes: line items, companies and the invoice aggregate.
 *
 * Optional fields are `Option`s. A renderer treats an optional string the way
 * JavaScript treats it in a condition: it counts only when present and non-empty.
 */
module InvoiceTypes {
  import opened Base

  /** The tax-split policy: a closed choice between two values, so every case split on it is exhaustive. */
  datatype GstType = CgstSgst | Igst

  datatype InvoiceItem = InvoiceItem(
    id: string,
    description: string,
    quantity: real,
    price: real,
    hsn: Option<string>)

  /** Either the issuer of the invoice or its client. */
  datatype Company = Company(
    name: string,
    address: string,
    gstin: Option<string>,
    phone: Option<string>,
    email: Option<string>)

  /** The aggregate: exactly one issuer (`yourCompany`), one client, and items in display order. */
  datatype Invoice = Invoice(
    invoiceNumber: string,
    invoiceDate: string,
    yourCompany: Company,
    client: Company,
    items: seq<InvoiceItem>,
    taxRate: real,
    gstType: GstType,
    discount: real,
    paymentMethod: Option<string>,
    signature: Option<string>,
    dueDate: Option<string>,
    currency: Option<string>)

  /** JavaScript truthiness of an optional string: present and not empty. */
  predicate Truthy(o: Option<string>) {
    o.Some? && o.value != ""
  }

  /** What a JSX text slot shows for an optional string: nothing when it is absent. */
  function OrEmpty(o: Option<string>): string {
    o.GetOr("")
  }

  /** `o || fallback` on an optional string. */
  function OrElse(o: Option<string>, fallback: string): (r: string)
    ensures Truthy(o) ==> r == o.value
    ensures !Truthy(o) ==> r == fallback
  {
    if Truthy(o) then o.value else fallback
  }
}
