/**
 * The editing handlers of the invoice form. Each one replaces the invoice by
 * an updated copy; the contracts say what changes and that nothing else does.
 */
module InvoiceForm {
  import opened Base
  import opened InvoiceTypes
  import opened Totals

  /** Which of the two companies an edit addresses. */
  datatype Section = YourCompany | Client

  datatype CompanyField = Name | Address | Gstin | Phone | Email

  /** The keys of an item, any of which the item handler may be called with. */
  datatype ItemField = Id | Description | Quantity | Price | Hsn

  /**
   * The value typed into an item input, read both ways the handler may need it:
   * `text` is `String(value)` and `number` is `Number(value)`.
   */
  datatype Entry = Entry(text: string, number: real)

  function SectionOf(inv: Invoice, section: Section): Company {
    match section
    case YourCompany => inv.yourCompany
    case Client => inv.client
  }

  function Other(section: Section): Section {
    match section
    case YourCompany => Client
    case Client => YourCompany
  }

  /** Reads one field of a company; name and address are always present. */
  function FieldOf(c: Company, field: CompanyField): Option<string> {
    match field
    case Name => Some(c.name)
    case Address => Some(c.address)
    case Gstin => c.gstin
    case Phone => c.phone
    case Email => c.email
  }

  function WithField(c: Company, field: CompanyField, value: string): Company {
    match field
    case Name => c.(name := value)
    case Address => c.(address := value)
    case Gstin => c.(gstin := Some(value))
    case Phone => c.(phone := Some(value))
    case Email => c.(email := Some(value))
  }

  /** `handleNestedChange`: sets one field of one company and leaves everything else as it was. */
  function UpdateCompany(inv: Invoice, section: Section, field: CompanyField, value: string): (r: Invoice)
    ensures FieldOf(SectionOf(r, section), field) == Some(value)
    ensures forall f :: f != field ==> FieldOf(SectionOf(r, section), f) == FieldOf(SectionOf(inv, section), f)
    ensures SectionOf(r, Other(section)) == SectionOf(inv, Other(section))
    ensures r.(yourCompany := inv.yourCompany, client := inv.client) == inv
  {
    match section
    case YourCompany => inv.(yourCompany := WithField(inv.yourCompany, field, value))
    case Client => inv.(client := WithField(inv.client, field, value))
  }

  /** The item with one field set: numbers for quantity and price, text for description and HSN, nothing for the id. */
  function WithItemField(item: InvoiceItem, field: ItemField, value: Entry): (r: InvoiceItem)
    ensures r.id == item.id
    ensures r.quantity == (if field == Quantity then value.number else item.quantity)
    ensures r.price == (if field == Price then value.number else item.price)
    ensures r.description == (if field == Description then value.text else item.description)
    ensures r.hsn == (if field == Hsn then Some(value.text) else item.hsn)
  {
    match field
    case Quantity => item.(quantity := value.number)
    case Price => item.(price := value.number)
    case Description => item.(description := value.text)
    case Hsn => item.(hsn := Some(value.text))
    case Id => item
  }

  /** `handleItemChange`: replaces only the item at `index`; the list keeps its length. */
  function UpdateItem(inv: Invoice, index: nat, field: ItemField, value: Entry): (r: Invoice)
    requires index < |inv.items|
    ensures |r.items| == |inv.items|
    ensures forall j :: 0 <= j < |inv.items| && j != index ==> r.items[j] == inv.items[j]
    ensures r.items[index] == WithItemField(inv.items[index], field, value)
    ensures field == Id ==> r == inv
    ensures r.(items := inv.items) == inv
  {
    inv.(items := inv.items[index := WithItemField(inv.items[index], field, value)])
  }

  /** The item the form appends: empty description and HSN, quantity 1, price 0. */
  function DefaultItem(id: string): InvoiceItem {
    InvoiceItem(id, "", 1.0, 0.0, Some(""))
  }

  /** `handleAddItem`: appends one default item carrying the given id. */
  function AddItem(inv: Invoice, freshId: string): (r: Invoice)
    ensures |r.items| == |inv.items| + 1
    ensures r.items[..|inv.items|] == inv.items
    ensures r.items[|inv.items|] == InvoiceItem(freshId, "", 1.0, 0.0, Some(""))
    ensures r.(items := inv.items) == inv
  {
    inv.(items := inv.items + [DefaultItem(freshId)])
  }

  /**
   * `items.filter((_, i) => i !== index)`, applied to `items` whose first
   * element sits at position `from` of the whole list.
   */
  function FilterOutPosition(items: seq<InvoiceItem>, index: int, from: nat): (r: seq<InvoiceItem>)
    ensures from <= index < from + |items| ==> r == items[..index - from] + items[index - from + 1..]
    ensures !(from <= index < from + |items|) ==> r == items
    decreases |items|
  {
    if |items| == 0 then []
    else
      var rest := FilterOutPosition(items[1..], index, from + 1);
      if from == index then
        rest
      else
        assert from < index < from + |items| ==> [items[0]] + items[1..][..index - from - 1] == items[..index - from];
        [items[0]] + rest
  }

  /** `handleRemoveItem`: drops exactly the item at `index`; any other index leaves the list as it is. */
  function RemoveItem(inv: Invoice, index: int): (r: Invoice)
    ensures 0 <= index < |inv.items| ==>
      && |r.items| == |inv.items| - 1
      && (forall j :: 0 <= j < index ==> r.items[j] == inv.items[j])
      && (forall j :: index <= j < |r.items| ==> r.items[j] == inv.items[j + 1])
    ensures !(0 <= index < |inv.items|) ==> r == inv
    ensures r.(items := inv.items) == inv
  {
    inv.(items := FilterOutPosition(inv.items, index, 0))
  }

  /** Item ids are pairwise distinct: the form uses them as row keys. */
  predicate DistinctIds(items: seq<InvoiceItem>) {
    forall i, j :: 0 <= i < j < |items| ==> items[i].id != items[j].id
  }

  /** An id no item of the list carries. */
  predicate FreshId(items: seq<InvoiceItem>, id: string) {
    forall i :: 0 <= i < |items| ==> items[i].id != id
  }

  /** Row keys stay distinct through every edit, provided an added item gets a fresh id. */
  lemma EditsKeepIdsDistinct(inv: Invoice, index: nat, field: ItemField, value: Entry, freshId: string, k: int)
    requires DistinctIds(inv.items)
    ensures index < |inv.items| ==> DistinctIds(UpdateItem(inv, index, field, value).items)
    ensures FreshId(inv.items, freshId) ==> DistinctIds(AddItem(inv, freshId).items)
    ensures DistinctIds(RemoveItem(inv, k).items)
  {
    if 0 <= k < |inv.items| {
      var r := RemoveItem(inv, k).items;
      forall i, j | 0 <= i < j < |r|
        ensures r[i].id != r[j].id
      {
        var i' := if i < k then i else i + 1;
        var j' := if j < k then j else j + 1;
        assert r[i] == inv.items[i'] && r[j] == inv.items[j'];
      }
    }
    if FreshId(inv.items, freshId) {
      var r := AddItem(inv, freshId).items;
      forall i, j | 0 <= i < j < |r|
        ensures r[i].id != r[j].id
      {
        if j < |inv.items| {
          assert r[i] == inv.items[i] && r[j] == inv.items[j];
        } else {
          assert r[i] == inv.items[i];
        }
      }
    }
  }

  /** Adding an item changes no figure: the default item's amount is 1 * 0. */
  lemma AddItemKeepsSubtotal(inv: Invoice, freshId: string)
    ensures Sum(AddItem(inv, freshId).items) == Sum(inv.items)
  {
    SumAppend(inv.items, DefaultItem(freshId));
    assert AddItem(inv, freshId).items == inv.items + [DefaultItem(freshId)];
  }

  /** Removing an item takes exactly its amount out of the subtotal. */
  lemma RemoveItemSubtotal(inv: Invoice, index: int)
    requires 0 <= index < |inv.items|
    ensures Sum(RemoveItem(inv, index).items) == Sum(inv.items) - Amount(inv.items[index])
  {
    SumRemoveAt(inv.items, index);
  }

  /** Editing an item moves the subtotal by the change in that item's amount alone. */
  lemma UpdateItemSubtotal(inv: Invoice, index: nat, field: ItemField, value: Entry)
    requires index < |inv.items|
    ensures Sum(UpdateItem(inv, index, field, value).items)
         == Sum(inv.items) - Amount(inv.items[index]) + Amount(UpdateItem(inv, index, field, value).items[index])
  {
    SumReplaceAt(inv.items, index, WithItemField(inv.items[index], field, value));
  }

  /** The form's amount column: one figure per item, quantity times price, in item order. */
  function AmountColumn(items: seq<InvoiceItem>): (amounts: seq<real>)
    ensures |amounts| == |items|
    ensures forall i :: 0 <= i < |items| ==> amounts[i] == items[i].quantity * items[i].price
    decreases |items|
  {
    if |items| == 0 then [] else [Amount(items[0])] + AmountColumn(items[1..])
  }
}
