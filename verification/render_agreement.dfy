/**
 * The print document computes GST-split figures of its own; the preview and the
 * export share the flat-tax figures. These lemmas show that all three agree on
 * every invoice.
 */
module RenderAgreement {
  import opened InvoiceTypes
  import opened Totals
  import opened Document
  import InvoicePdf
  import InvoicePreview
  import InvoiceHtml

  /** Print document, preview and export show the same subtotal, tax and total. */
  lemma TotalsAgree(inv: Invoice)
    ensures InvoicePdf.ComputeTotals(inv).subtotal == InvoicePreview.ComputeTotals(inv).subtotal
    ensures InvoicePdf.ComputeTotals(inv).totalGst == InvoicePreview.ComputeTotals(inv).taxAmount
    ensures InvoicePdf.ComputeTotals(inv).total == InvoicePreview.ComputeTotals(inv).total
    ensures InvoicePdf.Render(inv).summary.total == InvoicePreview.Render(inv).summary.total
                                                 == InvoiceHtml.Render(inv).summary.total
  {
  }

  /** When tax is charged, the print document's split rows add up to the flat tax row of the other two. */
  lemma TaxRowsAgree(inv: Invoice)
    requires inv.taxRate > 0.0
    ensures TaxLinesTotal(InvoicePdf.Render(inv).summary.taxLines)
         == TaxLinesTotal(InvoicePreview.Render(inv).summary.taxLines)
         == TaxLinesTotal(InvoiceHtml.Render(inv).summary.taxLines)
  {
    var flat := [TaxLine(FlatTaxLine, inv.taxRate, Tax(Sum(inv.items), inv.taxRate))];
    assert TaxLinesTotal(flat) == Tax(Sum(inv.items), inv.taxRate) + TaxLinesTotal(flat[1..]);
  }

  /** The preview's figures, and the print document's total, do not depend on `gstType`. */
  lemma GstTypeOnlySplits(inv: Invoice, g: GstType)
    ensures InvoicePreview.Render(inv.(gstType := g)).summary == InvoicePreview.Render(inv).summary
    ensures InvoicePdf.ComputeTotals(inv.(gstType := g)).total == InvoicePdf.ComputeTotals(inv).total
  {
  }

  /** Reordering the items changes none of the figures in any renderer. */
  lemma ReorderingKeepsTotals(inv: Invoice, items: seq<InvoiceItem>)
    requires multiset(items) == multiset(inv.items)
    ensures InvoicePdf.ComputeTotals(inv.(items := items)) == InvoicePdf.ComputeTotals(inv)
    ensures InvoicePreview.ComputeTotals(inv.(items := items)) == InvoicePreview.ComputeTotals(inv)
  {
    SumPermutation(items, inv.items);
  }

  /** With no items the subtotal and tax are zero and the total is minus the discount. */
  lemma EmptyInvoiceTotals(inv: Invoice)
    requires inv.items == []
    ensures InvoicePreview.ComputeTotals(inv) == InvoicePreview.FlatTotals(0.0, 0.0, -inv.discount)
    ensures InvoicePdf.ComputeTotals(inv).total == -inv.discount
  {
  }
}
