/**
 * The live preview (`InvoicePreview`): one flat tax line that ignores
 * `gstType`, and its own rules for which lines it shows.
 */
module InvoicePreview {
  import opened Base
  import opened InvoiceTypes
  import opened Totals
  import opened Document

  const Heading := "INVOICE"

  /** The figures the preview computes. */
  datatype FlatTotals = FlatTotals(subtotal: real, taxAmount: real, total: real)

  /** Subtotal, a single tax amount at `taxRate` percent, and the total. */
  function ComputeTotals(inv: Invoice): (t: FlatTotals)
    ensures t.subtotal == Sum(inv.items)
    ensures t.taxAmount == Tax(Sum(inv.items), inv.taxRate)
    ensures t.total == ReferenceTotal(inv)
  {
    var subtotal := Subtotal(inv.items);
    var taxAmount := Tax(subtotal, inv.taxRate);
    FlatTotals(subtotal, taxAmount, subtotal + taxAmount - inv.discount)
  }

  /** The issuer block: phone and email lines always, the GSTIN line only when non-empty. */
  function IssuerLines(c: Company): (p: Party)
    ensures p.name == c.name && p.address == c.address
    ensures p.phone.Some? && p.email.Some?
    ensures p.phone.value == "Phone: " + OrEmpty(c.phone)
    ensures p.email.value == "Email: " + OrEmpty(c.email)
    ensures p.gstin.Some? <==> Truthy(c.gstin)
    ensures p.gstin.Some? ==> p.gstin.value == "GSTIN: " + c.gstin.value
  {
    Party(c.name, c.address,
          Some("Phone: " + OrEmpty(c.phone)),
          Some("Email: " + OrEmpty(c.email)),
          Gated(Truthy(c.gstin), "GSTIN: " + OrEmpty(c.gstin)))
  }

  /** The bill-to block: no phone or email lines, the GSTIN line only when non-empty. */
  function ClientLines(c: Company): (p: Party)
    ensures p.name == c.name && p.address == c.address
    ensures p.phone.None? && p.email.None?
    ensures p.gstin.Some? <==> Truthy(c.gstin)
    ensures p.gstin.Some? ==> p.gstin.value == "GSTIN: " + c.gstin.value
  {
    Party(c.name, c.address, None, None, Gated(Truthy(c.gstin), "GSTIN: " + OrEmpty(c.gstin)))
  }

  /** The summary box: subtotal, one tax row always, the discount row when positive, the total. */
  function SummaryOf(inv: Invoice): (s: Summary)
    ensures s.subtotal == Sum(inv.items)
    ensures s.taxLines == [TaxLine(FlatTaxLine, inv.taxRate, Tax(Sum(inv.items), inv.taxRate))]
    ensures s.discount.Some? <==> inv.discount > 0.0
    ensures s.discount.Some? ==> s.discount.value == inv.discount
    ensures s.total == ReferenceTotal(inv)
  {
    var t := ComputeTotals(inv);
    Summary(t.subtotal, [TaxLine(FlatTaxLine, inv.taxRate, t.taxAmount)],
            if inv.discount > 0.0 then Some(inv.discount) else None, t.total)
  }

  /** The signature area: the image when one was uploaded, otherwise an empty box. */
  function SignatureOf(inv: Invoice): (s: Signature)
    ensures s.Image? <==> Truthy(inv.signature)
    ensures s.Image? ==> s.src == inv.signature.value
    ensures !s.Image? ==> s == BlankBox
  {
    if Truthy(inv.signature) then Image(inv.signature.value) else BlankBox
  }

  /** The whole preview. */
  function Render(inv: Invoice): (d: Doc)
    ensures d.title == Heading
    ensures d.invoiceNumber == inv.invoiceNumber && d.invoiceDate == inv.invoiceDate
    ensures d.dueDate.None? && d.currency.None? && d.footnote.None?
    ensures |d.rows| == |inv.items|
    ensures forall i :: 0 <= i < |inv.items| ==> d.rows[i].amount == Amount(inv.items[i]) && d.rows[i].hsn.None?
    ensures d.summary.total == ReferenceTotal(inv)
    ensures d.payment == Some("Method: " + OrEmpty(inv.paymentMethod))
  {
    Doc(Heading,
        inv.invoiceNumber,
        IssuerLines(inv.yourCompany),
        ClientLines(inv.client),
        inv.invoiceDate,
        None,
        None,
        Rows(inv.items, false),
        SummaryOf(inv),
        Some("Method: " + OrEmpty(inv.paymentMethod)),
        SignatureOf(inv),
        None)
  }
}
