/**
 * The print document (`InvoicePDF`): GST-aware totals, split into CGST and SGST
 * or charged as IGST, and the rules that decide which headings, lines and rows
 * the document shows.
 */
module InvoicePdf {
  import opened Base
  import opened InvoiceTypes
  import opened Totals
  import opened Document

  const BillOfSupply := "Bill of Supply"
  const TaxInvoice := "Tax Invoice"
  const NonGstNote := "This is a non-GST invoice. Supplier not registered under GST"

  /** The figures the print document computes. */
  datatype GstTotals = GstTotals(
    subtotal: real,
    totalGst: real,
    cgst: real,
    sgst: real,
    igst: real,
    total: real)

  /** Subtotal, total GST and its split by `gstType`, and the grand total. */
  function ComputeTotals(inv: Invoice): (t: GstTotals)
    ensures t.subtotal == Sum(inv.items)
    ensures t.totalGst == Tax(Sum(inv.items), inv.taxRate)
    ensures t.cgst + t.sgst + t.igst == t.totalGst
    ensures inv.gstType == CgstSgst ==> t.cgst == t.sgst && t.cgst + t.sgst == t.totalGst && t.igst == 0.0
    ensures inv.gstType == Igst ==> t.igst == t.totalGst && t.cgst == 0.0 && t.sgst == 0.0
    ensures t.total == ReferenceTotal(inv)
  {
    var subtotal := Subtotal(inv.items);
    var totalGst := Tax(subtotal, inv.taxRate);
    var cgst := if inv.gstType == CgstSgst then totalGst / 2.0 else 0.0;
    var sgst := if inv.gstType == CgstSgst then totalGst / 2.0 else 0.0;
    var igst := if inv.gstType == Igst then totalGst else 0.0;
    assert cgst + sgst + igst == totalGst by {
      if inv.gstType == CgstSgst { assert igst == 0.0; } else { assert cgst == sgst == 0.0; }
    }
    GstTotals(subtotal, totalGst, cgst, sgst, igst, subtotal + totalGst - inv.discount)
  }

  /** The document heading: a bill of supply exactly when no tax is charged. */
  function Title(inv: Invoice): (title: string)
    ensures title == BillOfSupply <==> inv.taxRate == 0.0
    ensures title == TaxInvoice <==> inv.taxRate != 0.0
  {
    if inv.taxRate == 0.0 then BillOfSupply else TaxInvoice
  }

  /** The issuer block: phone, email and GSTIN lines appear only when the field is non-empty. */
  function IssuerLines(c: Company): (p: Party)
    ensures p.name == c.name && p.address == c.address
    ensures p.phone.Some? <==> Truthy(c.phone)
    ensures p.email.Some? <==> Truthy(c.email)
    ensures p.gstin.Some? <==> Truthy(c.gstin)
    ensures p.phone.Some? ==> p.phone.value == c.phone.value
    ensures p.email.Some? ==> p.email.value == c.email.value
    ensures p.gstin.Some? ==> p.gstin.value == "GSTIN: " + c.gstin.value
  {
    Party(c.name, c.address,
          Gated(Truthy(c.phone), OrEmpty(c.phone)),
          Gated(Truthy(c.email), OrEmpty(c.email)),
          Gated(Truthy(c.gstin), "GSTIN: " + OrEmpty(c.gstin)))
  }

  /** The bill-to block: email and phone slots are always emitted, the GSTIN line only when non-empty. */
  function ClientLines(c: Company): (p: Party)
    ensures p.name == c.name && p.address == c.address
    ensures p.phone.Some? && p.email.Some?
    ensures Truthy(c.phone) ==> p.phone.value == c.phone.value
    ensures Truthy(c.email) ==> p.email.value == c.email.value
    ensures !Truthy(c.phone) ==> p.phone.value == ""
    ensures !Truthy(c.email) ==> p.email.value == ""
    ensures p.gstin.Some? <==> Truthy(c.gstin)
    ensures p.gstin.Some? ==> p.gstin.value == "GSTIN: " + c.gstin.value
  {
    Party(c.name, c.address,
          Some(OrEmpty(c.phone)),
          Some(OrEmpty(c.email)),
          Gated(Truthy(c.gstin), "GSTIN: " + OrEmpty(c.gstin)))
  }

  /** The tax rows: none unless the rate is positive; CGST and SGST at half the rate each, or one IGST row. */
  function TaxLines(inv: Invoice, t: GstTotals): seq<TaxLine> {
    if inv.taxRate > 0.0 then
      match inv.gstType
      case CgstSgst => [TaxLine(CgstLine, inv.taxRate / 2.0, t.cgst), TaxLine(SgstLine, inv.taxRate / 2.0, t.sgst)]
      case Igst => [TaxLine(IgstLine, inv.taxRate, t.igst)]
    else []
  }

  lemma TaxLinesAddUp(inv: Invoice, t: GstTotals)
    requires inv.taxRate > 0.0 && t == ComputeTotals(inv)
    ensures TaxLinesTotal(TaxLines(inv, t)) == t.totalGst
  {
    var lines := TaxLines(inv, t);
    match inv.gstType
    case CgstSgst =>
      assert TaxLinesTotal(lines) == t.cgst + (t.sgst + TaxLinesTotal(lines[1..][1..]));
    case Igst =>
      assert TaxLinesTotal(lines) == t.igst + TaxLinesTotal(lines[1..]);
  }

  /** The summary box of the print document. */
  function SummaryOf(inv: Invoice): (s: Summary)
    ensures s.subtotal == Sum(inv.items)
    ensures |s.taxLines| > 0 <==> inv.taxRate > 0.0
    ensures inv.taxRate > 0.0 ==> TaxLinesTotal(s.taxLines) == Tax(Sum(inv.items), inv.taxRate)
    ensures inv.taxRate > 0.0 && inv.gstType == CgstSgst ==>
      && |s.taxLines| == 2
      && s.taxLines[0].kind == CgstLine && s.taxLines[1].kind == SgstLine
      && s.taxLines[0].rate == s.taxLines[1].rate == inv.taxRate / 2.0
      && s.taxLines[0].amount == s.taxLines[1].amount
    ensures inv.taxRate > 0.0 && inv.gstType == Igst ==>
      && |s.taxLines| == 1
      && s.taxLines[0].kind == IgstLine
      && s.taxLines[0].rate == inv.taxRate
    ensures s.discount.Some? <==> inv.discount > 0.0
    ensures s.discount.Some? ==> s.discount.value == inv.discount
    ensures s.total == ReferenceTotal(inv)
  {
    var t := ComputeTotals(inv);
    var lines := TaxLines(inv, t);
    assert inv.taxRate > 0.0 ==> TaxLinesTotal(lines) == t.totalGst by {
      if inv.taxRate > 0.0 { TaxLinesAddUp(inv, t); }
    }
    Summary(t.subtotal, lines, if inv.discount > 0.0 then Some(inv.discount) else None, t.total)
  }

  /** The signature area: the image when one was uploaded, otherwise the issuer's name in parentheses. */
  function SignatureOf(inv: Invoice): (s: Signature)
    ensures s.Image? <==> Truthy(inv.signature)
    ensures s.Image? ==> s.src == inv.signature.value
    ensures !s.Image? ==> s == NameFallback("(" + inv.yourCompany.name + ")")
  {
    if Truthy(inv.signature) then Image(inv.signature.value)
    else NameFallback("(" + inv.yourCompany.name + ")")
  }

  /** The whole print document. */
  function Render(inv: Invoice): (d: Doc)
    ensures d.title == BillOfSupply <==> inv.taxRate == 0.0
    ensures d.footnote.Some? <==> d.title == BillOfSupply
    ensures d.footnote.Some? ==> d.footnote.value == NonGstNote
    ensures d.invoiceNumber == inv.invoiceNumber && d.invoiceDate == inv.invoiceDate
    ensures d.dueDate.Some? <==> Truthy(inv.dueDate)
    ensures d.dueDate.Some? ==> d.dueDate.value == inv.dueDate.value
    ensures d.currency.None?
    ensures |d.rows| == |inv.items|
    ensures forall i :: 0 <= i < |inv.items| ==> d.rows[i].amount == Amount(inv.items[i])
    ensures forall i :: 0 <= i < |inv.items| ==>
      d.rows[i].hsn == Some(if Truthy(inv.items[i].hsn) then inv.items[i].hsn.value else "N/A")
    ensures d.summary.total == ReferenceTotal(inv)
    ensures d.payment.Some? <==> Truthy(inv.paymentMethod)
    ensures d.payment.Some? ==> d.payment.value == "Payment Method: " + inv.paymentMethod.value
  {
    Doc(Title(inv),
        inv.invoiceNumber,
        IssuerLines(inv.yourCompany),
        ClientLines(inv.client),
        inv.invoiceDate,
        Gated(Truthy(inv.dueDate), OrEmpty(inv.dueDate)),
        None,
        Rows(inv.items, true),
        SummaryOf(inv),
        Gated(Truthy(inv.paymentMethod), "Payment Method: " + OrEmpty(inv.paymentMethod)),
        SignatureOf(inv),
        Gated(inv.taxRate == 0.0, NonGstNote))
  }

  /** A negative rate hides every tax row, yet the tax still moves the total. */
  lemma NegativeRateHidesTaxRows(inv: Invoice)
    requires inv.taxRate < 0.0 && Sum(inv.items) > 0.0
    ensures Render(inv).title == TaxInvoice
    ensures |Render(inv).summary.taxLines| == 0
    ensures Render(inv).summary.total < Sum(inv.items) - inv.discount
  {
  }

  /** The intra-state example: two units at 100 with 18% GST split as 18 + 18, total 236. */
  lemma IntraStateExample(inv: Invoice)
    requires inv.items == [InvoiceItem("a", "", 2.0, 100.0, None)]
    requires inv.taxRate == 18.0 && inv.gstType == CgstSgst && inv.discount == 0.0
    ensures ComputeTotals(inv) == GstTotals(200.0, 36.0, 18.0, 18.0, 0.0, 236.0)
    ensures Render(inv).title == TaxInvoice
  {
    assert Sum(inv.items) == 200.0;
  }
}
