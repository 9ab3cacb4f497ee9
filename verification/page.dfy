/**
 * The page that owns the invoice: its blank state, invoice numbering from a
 * counter kept in browser storage, the "New Invoice" reset, and remembering
 * the issuer's details between visits.
 *
 * Browser storage is a map from keys to stored values. The issuer's details are
 * stored as JSON; a stored JSON text is represented by the company it encodes.
 * The current year and today's date are parameters.
 */
module Page {
  import opened Base
  import opened InvoiceTypes
  import opened Decimal

  const BillerStorageKey := "invoice-generator-biller-details"
  const CounterStorageKey := "invoice-generator-counter"

  /** A stored value: plain text, or the JSON text of a company. */
  datatype Stored = Text(text: string) | CompanyJson(company: Company)

  type Store = map<string, Stored>

  /** The invoice together with the storage it was produced against. */
  datatype Session = Session(invoice: Invoice, store: Store)

  datatype LoadError = UnreadableBiller

  /** The issuer used when none was saved: every field empty. */
  const BlankCompany := Company("", "", Some(""), Some(""), Some(""))

  const BlankInvoice := Invoice(
    "", "",
    BlankCompany,
    Company("", "", Some(""), None, None),
    [InvoiceItem("1", "", 1.0, 0.0, None)],
    0.0, CgstSgst, 0.0,
    Some("Cash"), None, Some(""), Some("INR"))

  /**
   * The stored counter as the page reads it in a condition: `None` when the
   * key is missing or holds the empty string, otherwise what `parseInt` makes
   * of it. A company's JSON text starts with '{', which `parseInt` reads as NaN
   * (`Decimal.ParseIntOfBrace`).
   */
  function StoredCounter(store: Store): Option<JsNumber> {
    if CounterStorageKey !in store then None
    else match store[CounterStorageKey]
      case Text(s) => if s == "" then None else Some(ParseInt(s))
      case CompanyJson(_) => Some(NaN)
  }

  /**
   * The issuer restored on load: the saved company, or the blank company when
   * nothing (or the empty string) is saved. Any other text is not read as a
   * company here: the load fails instead.
   */
  function SavedBiller(store: Store): Result<Company, LoadError> {
    if BillerStorageKey !in store then Success(BlankCompany)
    else match store[BillerStorageKey]
      case CompanyJson(c) => Success(c)
      case Text(s) => if s == "" then Success(BlankCompany) else Failure(UnreadableBiller)
  }

  /** The number shown on first load: `{year}-NNNN`, without a prefix. */
  function InitialNumber(year: int, counter: JsNumber): string {
    IntToDecimal(year) + "-" + Pad4(counter)
  }

  /** The number "New Invoice" assigns: `INV-{year}-NNNN`. */
  function NextNumber(year: int, counter: JsNumber): string {
    "INV-" + IntToDecimal(year) + "-" + Pad4(counter)
  }

  /** The counter is stored and reads back as `n`. */
  predicate CounterIs(store: Store, n: nat) {
    StoredCounter(store) == Some(Int(n))
  }

  /** The counter is stored as the decimal text of `n`, the way the page writes it. */
  predicate CounterStored(store: Store, n: nat) {
    CounterStorageKey in store && store[CounterStorageKey] == Text(NatToDecimal(n))
  }

  lemma CounterStoredReads(store: Store, n: nat)
    requires CounterStored(store, n)
    ensures CounterIs(store, n)
  {
    ParseIntRoundTrip(n);
  }

  lemma PadOne()
    ensures Pad4(Int(1)) == "0001"
    ensures Pad4(Int(2)) == "0002"
  {
    assert NatToDecimal(1) == "1";
    assert NatToDecimal(2) == "2";
  }

  /**
   * The mount effect: restore the issuer, read the counter (writing "1" when
   * there is none), and number the invoice `{year}-NNNN` dated today.
   */
  function Load(prev: Invoice, store: Store, year: int, today: string): (r: Result<Session, LoadError>)
    ensures r.Success? <==> SavedBiller(store).Success?
    ensures r.Success? ==> r.value.invoice == prev.(invoiceNumber := r.value.invoice.invoiceNumber,
                                                   invoiceDate := today,
                                                   yourCompany := SavedBiller(store).value)
    ensures r.Success? && StoredCounter(store).None? ==>
      && r.value.store == store[CounterStorageKey := Text("1")]
      && r.value.invoice.invoiceNumber == IntToDecimal(year) + "-0001"
    ensures r.Success? && StoredCounter(store).Some? ==>
      && r.value.store == store
      && r.value.invoice.invoiceNumber == IntToDecimal(year) + "-" + Pad4(StoredCounter(store).value)
  {
    match SavedBiller(store)
    case Failure(e) => Failure(e)
    case Success(company) =>
      var counter := if StoredCounter(store).Some? then StoredCounter(store).value else Int(1);
      var store' := if StoredCounter(store).Some? then store else store[CounterStorageKey := Text("1")];
      PadOne();
      Success(Session(prev.(invoiceNumber := InitialNumber(year, counter),
                            invoiceDate := today,
                            yourCompany := company),
                      store'))
  }

  /** `parseInt(localStorage.getItem(COUNTER_STORAGE_KEY) || "1", 10)`: the stored counter, 1 when there is none. */
  function CounterOrOne(store: Store): (c: JsNumber)
    ensures StoredCounter(store).None? ==> c == Int(1)
    ensures StoredCounter(store).Some? ==> c == StoredCounter(store).value
  {
    assert IntToDecimal(1) == "1" by {
      assert NatToDecimal(1) == [DigitChar(1)];
    }
    ParseIntRoundTrip(1);
    StoredCounter(store).GetOr(ParseInt("1"))
  }

  /** The stored text of any counter reads back as that counter. */
  lemma CounterReadsBack(store: Store, c: JsNumber)
    ensures StoredCounter(store[CounterStorageKey := Text(NumberToString(c))]) == Some(c)
  {
    match c
    case Int(v) => ParseIntRoundTrip(v);
    case NaN => assert ParseInt("NaN") == NaN;
  }

  /**
   * "New Invoice": read the counter (1 when there is none), store counter + 1,
   * and start from the blank invoice keeping only the issuer, with the number
   * `INV-{year}-NNNN` for the new counter and today's date.
   */
  function NewInvoice(prev: Invoice, store: Store, year: int, today: string): (r: Session)
    ensures r.invoice == BlankInvoice.(yourCompany := prev.yourCompany,
                                       invoiceNumber := r.invoice.invoiceNumber,
                                       invoiceDate := today)
    ensures CounterStorageKey in r.store && r.store == store[CounterStorageKey := r.store[CounterStorageKey]]
    ensures StoredCounter(r.store) == Some(CounterOrOne(store).Inc())
    ensures r.invoice.invoiceNumber == NextNumber(year, CounterOrOne(store).Inc())
  {
    var next := CounterOrOne(store).Inc();
    CounterReadsBack(store, next);
    Session(BlankInvoice.(yourCompany := prev.yourCompany,
                          invoiceNumber := NextNumber(year, next),
                          invoiceDate := today),
            store[CounterStorageKey := Text(NumberToString(next))])
  }

  /** From the stored counter text of `n`, "New Invoice" stores the text of `n + 1` and numbers the invoice with it. */
  lemma NewInvoiceAdvances(prev: Invoice, store: Store, year: int, today: string, n: nat)
    requires CounterStored(store, n)
    ensures CounterStored(NewInvoice(prev, store, year, today).store, n + 1)
    ensures NewInvoice(prev, store, year, today).invoice.invoiceNumber == NextNumber(year, Int(n + 1))
  {
    CounterStoredReads(store, n);
  }

  /** Without a stored counter "New Invoice" behaves as if 1 were stored: it stores 2 and uses 0002. */
  lemma NewInvoiceWithoutCounter(prev: Invoice, store: Store, year: int, today: string)
    requires StoredCounter(store).None?
    ensures CounterIs(NewInvoice(prev, store, year, today).store, 2)
    ensures NewInvoice(prev, store, year, today).invoice.invoiceNumber == "INV-" + IntToDecimal(year) + "-0002"
  {
    PadOne();
  }

  /** A counter that does not parse stays NaN, and the number shows it padded. */
  lemma NewInvoiceWithUnparsableCounter(prev: Invoice, store: Store, year: int, today: string)
    requires StoredCounter(store) == Some(NaN)
    ensures StoredCounter(NewInvoice(prev, store, year, today).store) == Some(NaN)
    ensures NewInvoice(prev, store, year, today).invoice.invoiceNumber == "INV-" + IntToDecimal(year) + "-0NaN"
  {
    assert Pad4(NaN) == "0NaN";
  }

  /** The issuer effect: save the issuer's details, but only once the issuer has a name. */
  function PersistBiller(inv: Invoice, store: Store): (s: Store)
    ensures inv.yourCompany.name != "" ==> s == store[BillerStorageKey := CompanyJson(inv.yourCompany)]
    ensures inv.yourCompany.name == "" ==> s == store
    ensures StoredCounter(s) == StoredCounter(store)
  {
    if inv.yourCompany.name != "" then store[BillerStorageKey := CompanyJson(inv.yourCompany)] else store
  }

  /** The download name of the print document: `invoice-{invoiceNumber}.pdf`. */
  function DownloadName(invoiceNumber: string): (name: string)
    ensures |name| == |invoiceNumber| + 12
    ensures name[..8] == "invoice-" && name[|name| - 4..] == ".pdf"
    ensures name[8..|name| - 4] == invoiceNumber
  {
    "invoice-" + invoiceNumber + ".pdf"
  }

  /** A named issuer saved by the effect is the issuer the next load restores. */
  lemma PersistThenLoad(inv: Invoice, store: Store, prev: Invoice, year: int, today: string)
    requires inv.yourCompany.name != ""
    ensures Load(prev, PersistBiller(inv, store), year, today).Success?
    ensures Load(prev, PersistBiller(inv, store), year, today).value.invoice.yourCompany == inv.yourCompany
  {
  }

  /** The first load of a fresh browser numbers the invoice 1; the first "New Invoice" after it, 2. */
  lemma FirstLoadThenNewInvoice(prev: Invoice, store: Store, year: int, today: string)
    requires StoredCounter(store).None? && SavedBiller(store).Success?
    ensures var loaded := Load(prev, store, year, today).value;
            && CounterIs(loaded.store, 1)
            && loaded.invoice.invoiceNumber == IntToDecimal(year) + "-0001"
            && var next := NewInvoice(loaded.invoice, loaded.store, year, today);
               && CounterIs(next.store, 2)
               && next.invoice.invoiceNumber == "INV-" + IntToDecimal(year) + "-0002"
               && next.invoice.yourCompany == SavedBiller(store).value
  {
    CounterReadsBack(store, Int(1));
  }

  /** The first-load number never equals a "New Invoice" number: only the latter starts with "INV-". */
  lemma InitialNeverEqualsNext(year: int, c: JsNumber, d: JsNumber)
    ensures InitialNumber(year, c) != NextNumber(year, d)
  {
    var y := IntToDecimal(year);
    assert y[0] == '-' || IsDigit(y[0]);
    assert InitialNumber(year, c)[0] == y[0];
    assert NextNumber(year, d)[0] == 'I';
  }

  /** Different counters give different "New Invoice" numbers within a year. */
  lemma NextNumbersDistinct(year: int, n: nat, m: nat)
    requires n != m
    ensures NextNumber(year, Int(n)) != NextNumber(year, Int(m))
  {
    var prefix := "INV-" + IntToDecimal(year) + "-";
    Pad4Injective(n, m);
    assert NextNumber(year, Int(n))[|prefix|..] == Pad4(Int(n));
    assert NextNumber(year, Int(m))[|prefix|..] == Pad4(Int(m));
  }

  /**
   * Two successive clicks store `n + 2` and give two different numbers. Together
   * with `NewInvoiceAdvances` (each click stores the next counter) and
   * `NextNumbersDistinct` (different counters, different numbers) this is the
   * pattern of any longer run of clicks.
   */
  lemma TwoClicksNumberDistinctly(prev: Invoice, store: Store, year: int, today: string, n: nat)
    requires CounterStored(store, n)
    ensures var first := NewInvoice(prev, store, year, today);
            var second := NewInvoice(first.invoice, first.store, year, today);
            && CounterStored(second.store, n + 2)
            && first.invoice.invoiceNumber == NextNumber(year, Int(n + 1))
            && second.invoice.invoiceNumber == NextNumber(year, Int(n + 2))
            && first.invoice.invoiceNumber != second.invoice.invoiceNumber
  {
    var first := NewInvoice(prev, store, year, today);
    NewInvoiceAdvances(prev, store, year, today, n);
    NewInvoiceAdvances(first.invoice, first.store, year, today, n + 1);
    NextNumbersDistinct(year, n + 1, n + 2);
  }
}
