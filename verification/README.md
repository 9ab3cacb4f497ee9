# Invoice generator: a Dafny model of its pure core

This project models the parts of the invoice generator that are logic and not
markup. That is:

- the arithmetic behind every invoice figure;
- the three renderers (print document, live preview and HTML export), as the structure each one emits;
- the form's editing handlers;
- the page's invoice numbering, which keeps a counter in browser storage.

Every claim is proved by the Dafny verifier.

Modules, one per source component:

- `Base`: `Option` and `Result`.
- `InvoiceTypes`: the `Invoice`, `Company` and `InvoiceItem` records, and JavaScript truthiness of an optional string (present and non-empty).
- `Totals`: line amounts and the subtotal fold (`items.reduce`), with a reference sum to compare the fold against. Also the tax and total formulas.
- `Document`: what a renderer emits, as a structure. It records which party lines, rows, tax rows, payment line, signature block and footnote appear, and what they say.
- `InvoicePdf`: the GST-aware print document.
  - The title is "Bill of Supply" or "Tax Invoice".
  - Tax is split into CGST and SGST, or charged as IGST.
  - A non-GST footnote appears when no tax is charged.
- `InvoicePreview` and `InvoiceHtml`: the flat-tax preview and HTML export. The export writes its figures, bill-to block, summary and signature area exactly as the preview does and its issuer block exactly as the print document does, so it reuses those definitions; its date lines and payment line are its own.
- `RenderAgreement`: the print document's GST-split figures agree with the preview's and export's flat-tax figures on every invoice.
- `InvoiceForm`: the handlers `handleNestedChange`, `handleItemChange`, `handleAddItem` and `handleRemoveItem`, plus the form's amount column.
- `Decimal`: the number/text conversions the numbering depends on.
  - `String(n)`;
  - `parseInt(s, 10)`, which yields NaN when no digits are found;
  - `padStart(4, "0")`.
- `Page`: the page's state logic.
  - The blank invoice.
  - The mount effect, which restores the issuer and reads or initialises the counter.
  - The "New Invoice" reset.
  - The issuer-persistence effect.
  - The download file name.

Browser storage is a `map` from keys to stored values. A stored JSON text of a company is represented by the company it encodes. The current year and today's date are parameters. Money is `real`, with no rounding.

Some behaviours of the code are easy to miss:

- **Number templates.** The code numbers invoices with two templates: `{year}-NNNN` on first load (`app/page.tsx:44`) and `INV-{year}-NNNN` after "New Invoice" (`app/page.tsx:75`). A first-load number never equals a "New Invoice" number (`Page.InitialNeverEqualsNext`).
- **Title for a negative rate.** The print document's title tests `taxRate === 0` (`app/components/InvoicePDF.tsx:134`), but its tax rows test `taxRate > 0` (`app/components/InvoicePDF.tsx:232`). A negative rate therefore gives a "Tax Invoice" with no tax rows, whose total still includes the (negative) tax (`InvoicePdf.NegativeRateHidesTaxRows`).
- **Phone and email lines.** Two blocks show these lines even when the field is empty:
  - The print document always emits the client's email and phone slots (`app/components/InvoicePDF.tsx:172-173`).
  - The preview always shows the issuer's "Phone: " and "Email: " labels (`app/components/InvoicePreview.tsx:33-34`).

## Model

| member | source | states |
|---|---|---|
| Totals.Reduce | app/components/InvoicePDF.tsx:115-118 | the left fold of line amounts onto an accumulator equals the accumulator plus the reference sum of the amounts |
| Totals.Subtotal | lib/generateInvoiceHTML.ts:5 | the subtotal fold started at 0 equals the reference sum, and is 0 for an empty item list |
| Totals.SumAppend | app/components/InvoiceForm.tsx:50 | appending an item adds exactly its amount to the sum |
| Totals.SumRemoveAt | app/components/InvoiceForm.tsx:54 | dropping the item at one position takes exactly its amount out of the sum |
| Totals.SumReplaceAt | app/components/InvoiceForm.tsx:29-38 | replacing one item changes the sum by the difference of the old and new amounts |
| Totals.SumPermutation | app/components/InvoicePDF.tsx:115-118 | the subtotal does not depend on the order of the items: lists with equal multisets have equal sums |
| Document.Rows | app/components/InvoicePDF.tsx:203-221 | one row per item in item order, carrying its description, quantity and price, the amount quantity times price, and the HSN cell only in the layout that has that column |
| InvoicePdf.ComputeTotals | app/components/InvoicePDF.tsx:115-125 | subtotal is the sum of the amounts; total GST is subtotal times rate over 100; CGST+SGST splits it into two equal halves with IGST 0, IGST takes all of it with CGST and SGST 0; the three parts add up to the total GST; total is subtotal plus GST minus discount, unclamped |
| InvoicePdf.Title | app/components/InvoicePDF.tsx:134-138 | "Bill of Supply" exactly when the rate is 0, "Tax Invoice" exactly otherwise |
| InvoicePdf.IssuerLines | app/components/InvoicePDF.tsx:143-163 | name and address always; phone, email and GSTIN lines each exactly when the field is non-empty, GSTIN prefixed "GSTIN: " |
| InvoicePdf.ClientLines | app/components/InvoicePDF.tsx:167-179 | name, address, email and phone slots are always emitted (empty text for an absent field); the GSTIN line exactly when non-empty |
| InvoicePdf.TaxLinesAddUp | app/components/InvoicePDF.tsx:232-249 | when tax is charged, the amounts of the tax rows shown add up to the total GST |
| InvoicePdf.SummaryOf | app/components/InvoicePDF.tsx:227-260 | tax rows appear exactly when the rate is positive: CGST and SGST at half the rate with equal amounts, or one IGST row at the full rate; their amounts sum to the GST; the discount row exactly when the discount is positive; total as computed |
| InvoicePdf.SignatureOf | app/components/InvoicePDF.tsx:277-287 | the uploaded image exactly when a signature is present and non-empty, otherwise the issuer's name in parentheses |
| InvoicePdf.Render | app/components/InvoicePDF.tsx:127-300 | the whole print document: title and non-GST footnote both hinge on a zero rate, due date and payment lines are gated on their fields, HSN cells fall back to "N/A", one row per item, total as the reference total |
| InvoicePdf.NegativeRateHidesTaxRows | app/components/InvoicePDF.tsx:134-138 | a negative rate titles the document "Tax Invoice" yet shows no tax row, while the (negative) tax still lowers the total |
| InvoicePdf.IntraStateExample | app/components/InvoicePDF.tsx:120-125 | two units at 100 with 18% CGST+SGST give subtotal 200, GST 36 split 18 and 18, total 236 |
| InvoicePreview.ComputeTotals | app/components/InvoicePreview.tsx:9-15 | subtotal is the sum of the amounts, one tax amount at rate over 100, total is subtotal plus tax minus discount |
| InvoicePreview.IssuerLines | app/components/InvoicePreview.tsx:26-40 | "Phone: " and "Email: " lines always shown (empty after the label when absent); GSTIN line exactly when non-empty |
| InvoicePreview.ClientLines | app/components/InvoicePreview.tsx:45-51 | no phone or email line for the client; GSTIN line exactly when non-empty |
| InvoicePreview.SummaryOf | app/components/InvoicePreview.tsx:97-120 | exactly one flat tax row at the full rate whatever the GST type; discount row exactly when positive; total as computed |
| InvoicePreview.SignatureOf | app/components/InvoicePreview.tsx:126-137 | the image exactly when a signature is present and non-empty, otherwise an empty box |
| InvoicePreview.Render | app/components/InvoicePreview.tsx:17-148 | heading "INVOICE"; no due date, currency or footnote; rows without HSN; the payment line "Method: " always shown |
| InvoiceHtml.PaymentLine | lib/generateInvoiceHTML.ts:92 | "Method: " followed by the method, or "N/A" when it is absent or empty |
| InvoiceHtml.Render | lib/generateInvoiceHTML.ts:20-104 | heading "INVOICE"; due date and currency lines exactly when those fields are non-empty; rows without HSN; no footnote; bill-to block, summary and signature area the same as the preview's, issuer block the same as the print document's |
| RenderAgreement.TotalsAgree | lib/generateInvoiceHTML.ts:4-7 | print document, preview and export compute the same subtotal, tax and total for every invoice |
| RenderAgreement.TaxRowsAgree | app/components/InvoicePDF.tsx:232-249 | with a positive rate, the print document's split tax rows sum to the single tax row of the preview and of the export |
| RenderAgreement.GstTypeOnlySplits | app/components/InvoicePreview.tsx:13-15 | the GST type changes neither the preview's summary nor the print document's total |
| RenderAgreement.ReorderingKeepsTotals | app/components/InvoicePreview.tsx:9-11 | reordering the items changes no figure of any renderer |
| RenderAgreement.EmptyInvoiceTotals | app/components/InvoicePreview.tsx:9-15 | with no items the subtotal and tax are 0 and the total is minus the discount |
| InvoiceForm.UpdateCompany | app/components/InvoiceForm.tsx:13-22 | the addressed field of the addressed company now holds the value; every other field, the other company and the rest of the invoice are unchanged |
| InvoiceForm.WithItemField | app/components/InvoiceForm.tsx:29-36 | quantity and price take the numeric reading of the input, description and HSN its text, and any other key (the id) changes nothing |
| InvoiceForm.UpdateItem | app/components/InvoiceForm.tsx:24-40 | only the item at the index is replaced, the list keeps its length, and nothing outside the items changes |
| InvoiceForm.AddItem | app/components/InvoiceForm.tsx:42-51 | one item is appended after the unchanged existing ones: the given id, empty description and HSN, quantity 1, price 0 |
| InvoiceForm.FilterOutPosition | app/components/InvoiceForm.tsx:54 | filtering by position removes exactly the element at that position, or nothing when the position is outside the list |
| InvoiceForm.RemoveItem | app/components/InvoiceForm.tsx:53-56 | an index inside the list drops exactly that item and shifts the later ones down; any other index leaves the invoice unchanged |
| InvoiceForm.EditsKeepIdsDistinct | app/components/InvoiceForm.tsx:220-222 | item ids used as row keys stay pairwise distinct through update, remove, and an add with a fresh id |
| InvoiceForm.AddItemKeepsSubtotal | app/components/InvoiceForm.tsx:42-51 | adding the default item leaves the subtotal unchanged |
| InvoiceForm.RemoveItemSubtotal | app/components/InvoiceForm.tsx:53-56 | removing an item lowers the subtotal by exactly its amount |
| InvoiceForm.UpdateItemSubtotal | app/components/InvoiceForm.tsx:24-40 | editing an item moves the subtotal by the change of that item's amount alone |
| InvoiceForm.AmountColumn | app/components/InvoiceForm.tsx:273-275 | one figure per item in order, each quantity times price |
| Decimal.NatToDecimal | app/page.tsx:72 | `String(n)` of a natural number is a non-empty run of digits with no leading zero |
| Decimal.DigitRun | app/page.tsx:38 | the digit run `parseInt` reads is all digits and stops at the first non-digit |
| Decimal.PadStart | app/page.tsx:44-47 | padding never cuts: the length is the larger of the width and the input's length, the input is the suffix and the rest is fill |
| Decimal.ValueOfDecimal | app/page.tsx:67-72 | reading the decimal text of n back as digits gives n |
| Decimal.ValueOfLeadingZeros | app/page.tsx:75 | leading zeros do not change the value of a digit string |
| Decimal.ParseInt | app/page.tsx:67-70 | `parseInt(s, 10)` gives a number exactly when s starts with a digit, or with a sign followed by a digit; otherwise NaN |
| Decimal.DigitRunStops | app/page.tsx:38 | a run of digits followed by text that does not start with a digit reads exactly the run |
| Decimal.ParseIntUnsigned | app/page.tsx:38 | without a sign, `parseInt` gives the value of the leading digits and ignores the rest |
| Decimal.ParseIntSigned | app/page.tsx:38 | after a sign, `parseInt` gives the value of the digits that follow, negated for '-', and ignores the rest |
| Decimal.ParseIntPrefix | app/page.tsx:67-70 | an optional sign, a non-empty run of digits and any text not starting with a digit parse as the signed value of the digits |
| Decimal.ParseIntOfBrace | app/page.tsx:67-70 | text starting with '{', such as a company's JSON stored under the counter key, parses as NaN |
| Decimal.ParseAllDigits | app/page.tsx:38 | `parseInt` reads a non-empty all-digit string as the number it denotes |
| Decimal.ParseIntRoundTrip | app/page.tsx:67-72 | `parseInt(String(i), 10)` gives back i for every integer i: the counter written as text reads back unchanged |
| Decimal.DecimalLength | app/page.tsx:75 | the decimal text of n has at most k digits exactly when n is below 10^k |
| Decimal.Pad4Counter | app/page.tsx:44-47 | the padded counter is all digits, has length max(4, digit count), is exactly 4 long when the counter is below 10000, and parses back to the counter |
| Decimal.Pad4Injective | app/page.tsx:75 | different counters give different padded strings |
| Page.CounterStoredReads | app/page.tsx:67-70 | a counter stored as the decimal text of n reads back as n |
| Page.Load | app/page.tsx:29-55 | the mount effect succeeds exactly when the saved issuer is readable and then restores it, keeping every other field; with no counter it writes "1" and numbers the invoice `{year}-0001`, otherwise it leaves storage alone and pads the stored counter |
| Page.CounterOrOne | app/page.tsx:67-70 | the counter read falls back to 1 exactly when nothing (or the empty string) is stored |
| Page.CounterReadsBack | app/page.tsx:72 | whatever counter is written as text, including NaN, reads back as itself |
| Page.NewInvoice | app/page.tsx:66-83 | the reset keeps only the issuer and takes the blank invoice for every other field, dated today; only the counter key of storage changes; the stored counter becomes the read counter plus one, and the number is `INV-{year}-` and that counter padded |
| Page.NewInvoiceAdvances | app/page.tsx:66-75 | from a stored counter n, "New Invoice" stores n + 1 and numbers the invoice with n + 1 |
| Page.NewInvoiceWithoutCounter | app/page.tsx:67-75 | with no stored counter, "New Invoice" stores 2 and numbers the invoice `INV-{year}-0002` |
| Page.NewInvoiceWithUnparsableCounter | app/page.tsx:67-75 | a counter that does not parse stays NaN and the number ends in "0NaN" |
| Page.PersistBiller | app/page.tsx:57-64 | the issuer is saved exactly when it has a name; the counter is untouched |
| Page.DownloadName | app/page.tsx:104 | the file name is "invoice-", then the invoice number unchanged, then ".pdf" |
| Page.PersistThenLoad | app/page.tsx:29-33 | an issuer saved by the persistence effect is the issuer the next load restores |
| Page.FirstLoadThenNewInvoice | app/page.tsx:35-83 | in a fresh browser the first load numbers the invoice 0001 and stores 1; the first "New Invoice" then stores 2, numbers it `INV-{year}-0002` and keeps the restored issuer |
| Page.InitialNeverEqualsNext | app/page.tsx:44-75 | a first-load number never equals a "New Invoice" number |
| Page.NextNumbersDistinct | app/page.tsx:71-75 | different counters give different "New Invoice" numbers within a year |
| Page.TwoClicksNumberDistinctly | app/page.tsx:66-75 | two successive "New Invoice" clicks from counter n store n + 2 and number the invoices n + 1 and n + 2, which differ |

## Left out

- Floating point: amounts are exact reals. IEEE-754 rounding and the two-decimal `toFixed` display formatting are not modelled.
- Layout: styles, fonts and the markup itself are reduced to which lines, rows and blocks appear and what they say. This covers JSX, react-pdf and the HTML string.
- HTML escaping: the exported string interpolates fields without escaping, and the model does not represent markup at all.
- JSON: `JSON.stringify` and `JSON.parse` of the saved issuer are represented by storing the `Company` itself.
  - A saved text that is not a company's JSON is not modelled; the model treats it as a failed load (`UnreadableBiller`). In the code, `JSON.parse` throws only on text that is not JSON at all: JSON that is not a company, such as `{}` or `null`, parses and is used as the issuer.
- `parseInt` leading whitespace: the skipping of leading whitespace is not modelled. The counter is only ever written by the page itself, as digits.
- `String(n)` exponent form: the form `String` uses for very large numbers is not modelled.
- Text-to-number conversion: `Number(value)` for the quantity and price inputs is an input of the handler (`Entry`), not computed. `Entry.number` is a `real`, so a NaN quantity or price (from non-numeric text) is not representable.
- Dates and ids: the current year, today's date and the fresh id from `nanoid()` are parameters.
- Signature upload, PDF download, printing and auth: the signature upload (`FileReader`), the PDF download (`fetch`, object URLs), `window.print`, and the auth and PDF-generation HTTP routes are I/O outside the model.
  - Only the download file name is modelled.
- One-field setters: the inline handlers that set a single invoice field are plain field assignments with nothing to prove. These are the invoice number, date, GST type, tax rate and payment method.
- Concurrent tabs racing on the stored counter are not modelled.
- InvoiceForm.UpdateItem: requires the index to be inside the list. The form only calls it from the rendering of the existing items, and JavaScript's behaviour for an index past the end (growing the array) is not modelled.
- Page.NewInvoiceAdvances: the counter is an unbounded integer, so each click advances it by one. In the code it is a JavaScript number, and from 2^53 (a stored "9007199254740992") `currentCounter + 1` no longer changes it; every later click would then store the same text and assign the same number. `Page.NextNumbersDistinct` and `Page.TwoClicksNumberDistinctly` rest on the same unbounded counter.
- Page.TwoClicksNumberDistinctly: covers two successive clicks, not a run of any length. Any longer run follows by applying `Page.NewInvoiceAdvances` once per click and `Page.NextNumbersDistinct` to any two of its counters, but that composition is not stated as one lemma.
