/**
 * The arithmetic every renderer repeats: line amounts, the subtotal fold and
 * the tax and total formulas, with a reference definition of the subtotal to
 * compare the fold against.
 */
module Totals {
  import opened InvoiceTypes

  /** The amount of one line: quantity times unit price. */
  function Amount(item: InvoiceItem): real {
    item.quantity * item.price
  }

  /** Reference definition of the subtotal: the sum of the line amounts. */
  function Sum(items: seq<InvoiceItem>): real {
    if |items| == 0 then 0.0 else Amount(items[0]) + Sum(items[1..])
  }

  /**
   * `items.reduce((acc, item) => acc + item.quantity * item.price, acc)`:
   * a left fold that adds the amounts in item order onto an accumulator.
   */
  function Reduce(acc: real, items: seq<InvoiceItem>): (r: real)
    ensures r == acc + Sum(items)
    decreases |items|
  {
    if |items| == 0 then acc else Reduce(acc + Amount(items[0]), items[1..])
  }

  /** The subtotal every renderer computes: the fold started at 0. */
  function Subtotal(items: seq<InvoiceItem>): (r: real)
    ensures r == Sum(items)
    ensures |items| == 0 ==> r == 0.0
  {
    Reduce(0.0, items)
  }

  /** `(subtotal * taxRate) / 100`: the tax on a subtotal at a percentage rate. */
  function Tax(subtotal: real, taxRate: real): real {
    subtotal * taxRate / 100.0
  }

  /** The grand total: subtotal plus tax minus discount, with no clamp. */
  function ReferenceTotal(inv: Invoice): real {
    Sum(inv.items) + Tax(Sum(inv.items), inv.taxRate) - inv.discount
  }

  lemma {:induction false} SumAppend(items: seq<InvoiceItem>, item: InvoiceItem)
    ensures Sum(items + [item]) == Sum(items) + Amount(item)
    decreases |items|
  {
    if |items| == 0 {
      assert items + [item] == [item];
    } else {
      assert (items + [item])[1..] == items[1..] + [item];
      SumAppend(items[1..], item);
    }
  }

  lemma {:induction false} SumConcat(a: seq<InvoiceItem>, b: seq<InvoiceItem>)
    ensures Sum(a + b) == Sum(a) + Sum(b)
    decreases |a|
  {
    if |a| == 0 {
      assert a + b == b;
    } else {
      assert (a + b)[1..] == a[1..] + b;
      SumConcat(a[1..], b);
    }
  }

  /** Taking out the line at `i` takes exactly its amount out of the sum. */
  lemma {:induction false} SumRemoveAt(items: seq<InvoiceItem>, i: nat)
    requires i < |items|
    ensures Sum(items) == Amount(items[i]) + Sum(items[..i] + items[i + 1..])
  {
    assert items == items[..i] + ([items[i]] + items[i + 1..]);
    SumConcat(items[..i], [items[i]] + items[i + 1..]);
    SumConcat(items[..i], items[i + 1..]);
    assert Sum([items[i]] + items[i + 1..]) == Amount(items[i]) + Sum(items[i + 1..]) by {
      assert ([items[i]] + items[i + 1..])[1..] == items[i + 1..];
    }
  }

  /** Replacing the line at `i` changes the sum by the difference of the two amounts. */
  lemma {:induction false} SumReplaceAt(items: seq<InvoiceItem>, i: nat, item: InvoiceItem)
    requires i < |items|
    ensures Sum(items[i := item]) == Sum(items) - Amount(items[i]) + Amount(item)
  {
    var updated := items[i := item];
    SumRemoveAt(items, i);
    SumRemoveAt(updated, i);
    assert updated[..i] + updated[i + 1..] == items[..i] + items[i + 1..];
  }

  /** Taking the same element out of two equal multisets, at any of its positions, leaves equal multisets. */
  lemma {:induction false} MultisetTails(s: seq<InvoiceItem>, t: seq<InvoiceItem>, j: nat)
    requires multiset(s) == multiset(t)
    requires |s| > 0 && j < |t| && t[j] == s[0]
    ensures multiset(s[1..]) == multiset(t[..j] + t[j + 1..])
  {
    var rest := t[..j] + t[j + 1..];
    assert s == [s[0]] + s[1..];
    assert t == t[..j] + [t[j]] + t[j + 1..];
    assert multiset(t) == multiset(rest) + multiset{s[0]};
    assert multiset(s) == multiset(s[1..]) + multiset{s[0]};
    forall x ensures multiset(s[1..])[x] == multiset(rest)[x] {
      assert multiset(s)[x] == multiset(t)[x];
    }
  }

  /** The subtotal does not depend on the order of the lines. */
  lemma {:induction false} SumPermutation(s: seq<InvoiceItem>, t: seq<InvoiceItem>)
    requires multiset(s) == multiset(t)
    ensures Sum(s) == Sum(t)
    decreases |s|
  {
    if |s| == 0 {
      assert |t| == |multiset(t)| == 0;
    } else {
      assert s[0] in t by {
        assert s[0] in multiset(s);
      }
      var j :| 0 <= j < |t| && t[j] == s[0];
      MultisetTails(s, t, j);
      SumPermutation(s[1..], t[..j] + t[j + 1..]);
      SumRemoveAt(t, j);
    }
  }
}
