/**
 * The HTML exporter (`generateInvoiceHTML`): a markup string whose conditional
 * fragments are empty when their field is empty, modelled as the lines it emits.
 * Its figures, bill-to block, summary block and signature area are written out
 * exactly as the preview writes them, and its issuer block exactly as the print
 * document writes it, so those are their definitions here; the date lines and the
 * payment line are its own.
 */
module InvoiceHtml {
  import opened Base
  import opened InvoiceTypes
  import opened Totals
  import opened Document
  import InvoicePdf
  import InvoicePreview

  /** The payment line: the method, or "N/A" when it is absent or empty. */
  function PaymentLine(inv: Invoice): (line: string)
    ensures Truthy(inv.paymentMethod) ==> line == "Method: " + inv.paymentMethod.value
    ensures !Truthy(inv.paymentMethod) ==> line == "Method: N/A"
  {
    "Method: " + OrElse(inv.paymentMethod, "N/A")
  }

  /** The whole exported document. */
  function Render(inv: Invoice): (d: Doc)
    ensures d.title == InvoicePreview.Heading
    ensures d.invoiceNumber == inv.invoiceNumber && d.invoiceDate == inv.invoiceDate
    ensures d.dueDate.Some? <==> Truthy(inv.dueDate)
    ensures d.dueDate.Some? ==> d.dueDate.value == inv.dueDate.value
    ensures d.currency.Some? <==> Truthy(inv.currency)
    ensures d.currency.Some? ==> d.currency.value == inv.currency.value
    ensures d.footnote.None?
    ensures |d.rows| == |inv.items|
    ensures forall i :: 0 <= i < |inv.items| ==> d.rows[i].amount == Amount(inv.items[i]) && d.rows[i].hsn.None?
    ensures d.summary.total == ReferenceTotal(inv)
    ensures d.payment == Some(PaymentLine(inv))
    ensures d.issuer == InvoicePdf.Render(inv).issuer
    ensures d.client == InvoicePreview.Render(inv).client
    ensures d.summary == InvoicePreview.Render(inv).summary
    ensures d.signature == InvoicePreview.Render(inv).signature
  {
    Doc(InvoicePreview.Heading,
        inv.invoiceNumber,
        InvoicePdf.IssuerLines(inv.yourCompany),
        InvoicePreview.ClientLines(inv.client),
        inv.invoiceDate,
        Gated(Truthy(inv.dueDate), OrEmpty(inv.dueDate)),
        Gated(Truthy(inv.currency), OrEmpty(inv.currency)),
        Rows(inv.items, false),
        InvoicePreview.SummaryOf(inv),
        Some(PaymentLine(inv)),
        InvoicePreview.SignatureOf(inv),
        None)
  }
}
