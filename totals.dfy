/** The totals engine of the invoice form: subtotal as the running sum of
    quantity times price, a percentage discount on the subtotal, a
    percentage tax on the discounted amount, and the grand total. */
module Totals {
  import opened LineItems

  /** Sum of quantity * price over the rows, accumulated from the first row
      to the last as a left fold starting at 0 (so the last row is added
      last). */
  function Subtotal(items: seq<Item>): (r: real)
    ensures items == [] ==> r == 0.0
    ensures (forall i :: 0 <= i < |items| ==> items[i].quantity >= 0.0 && items[i].price >= 0.0) ==> r >= 0.0
  {
    if items == [] then 0.0
    else
      var last := items[|items| - 1];
      assert last.quantity >= 0.0 && last.price >= 0.0 ==> Amount(last) >= 0.0 by {
        if last.quantity >= 0.0 && last.price >= 0.0 { NonNegProduct(last.quantity, last.price); }
      }
      Subtotal(items[..|items| - 1]) + Amount(last)
  }

  lemma NonNegProduct(a: real, b: real)
    requires a >= 0.0 && b >= 0.0
    ensures a * b >= 0.0
  {
  }

  /** The discount: `discountRate` percent of the subtotal. */
  function Discount(subtotal: real, discountRate: real): (r: real)
    ensures discountRate == 0.0 ==> r == 0.0
    ensures discountRate == 100.0 ==> r == subtotal
    ensures subtotal >= 0.0 && 0.0 <= discountRate <= 100.0 ==> 0.0 <= r <= subtotal
  {
    subtotal * discountRate / 100.0
  }

  /** The tax on an amount: `taxRate` percent of it. */
  function Tax(amount: real, taxRate: real): (r: real)
    ensures taxRate == 0.0 ==> r == 0.0
    ensures amount >= 0.0 && taxRate >= 0.0 ==> r >= 0.0
  {
    amount * taxRate / 100.0
  }

  /** The amount after discount: the base the tax is charged on. */
  function Discounted(items: seq<Item>, discountRate: real): real {
    Subtotal(items) - Discount(Subtotal(items), discountRate)
  }

  /** The grand total: subtotal - discount + tax, the tax being charged on
      the discounted amount. */
  function Total(items: seq<Item>, discountRate: real, taxRate: real): (r: real)
    ensures r == Discounted(items, discountRate) * (1.0 + taxRate / 100.0)
    ensures discountRate == 0.0 && taxRate == 0.0 ==> r == Subtotal(items)
    ensures items == [] ==> r == 0.0
  {
    var subtotal := Subtotal(items);
    var discount := Discount(subtotal, discountRate);
    var tax := Tax(subtotal - discount, taxRate);
    subtotal - discount + tax
  }

  /** The total is the subtotal scaled by the two rates, one after the other. */
  lemma TotalIsScaledSubtotal(items: seq<Item>, discountRate: real, taxRate: real)
    ensures Total(items, discountRate, taxRate)
         == Subtotal(items) * (1.0 - discountRate / 100.0) * (1.0 + taxRate / 100.0)
  {
  }

  /** With non-negative rows, a discount rate of at most 100 percent and a
      non-negative tax rate, no figure is negative and the discounted amount
      never exceeds the subtotal. */
  lemma FiguresNonNegative(items: seq<Item>, discountRate: real, taxRate: real)
    requires forall i :: 0 <= i < |items| ==> items[i].quantity >= 0.0 && items[i].price >= 0.0
    requires 0.0 <= discountRate <= 100.0 && taxRate >= 0.0
    ensures 0.0 <= Discounted(items, discountRate) <= Subtotal(items)
    ensures Total(items, discountRate, taxRate) >= 0.0
  {
  }

  /** Charging the tax on the discounted amount differs from charging it on
      the raw subtotal whenever both rates and the subtotal are non-zero: the
      difference is exactly the tax on the discount. */
  lemma TaxBaseExcludesDiscount(subtotal: real, discountRate: real, taxRate: real)
    ensures Tax(subtotal, taxRate) - Tax(subtotal - Discount(subtotal, discountRate), taxRate)
         == Tax(Discount(subtotal, discountRate), taxRate)
    ensures subtotal != 0.0 && discountRate != 0.0 && taxRate != 0.0 ==>
            Tax(subtotal - Discount(subtotal, discountRate), taxRate) != Tax(subtotal, taxRate)
  {
  }

  /** A subtotal of 100 with 10 percent discount and 10 percent tax gives a
      discount of 10, a tax of 9 (not 10) and a total of 99. */
  lemma WorkedExample()
    ensures Discount(100.0, 10.0) == 10.0
    ensures Tax(100.0 - Discount(100.0, 10.0), 10.0) == 9.0
    ensures Subtotal([Item("", 1.0, 100.0)]) == 100.0
    ensures Total([Item("", 1.0, 100.0)], 10.0, 10.0) == 99.0
  {
  }

  /** Deleting the last row leaves every figure at 0, whatever the rates. */
  lemma EmptyListFigures(discountRate: real, taxRate: real)
    ensures Subtotal([]) == 0.0
    ensures Discount(Subtotal([]), discountRate) == 0.0
    ensures Tax(Subtotal([]) - Discount(Subtotal([]), discountRate), taxRate) == 0.0
    ensures Total([], discountRate, taxRate) == 0.0
  {
  }

  /** The subtotal of two concatenated lists is the sum of their subtotals. */
  lemma {:induction false} SubtotalAppend(a: seq<Item>, b: seq<Item>)
    ensures Subtotal(a + b) == Subtotal(a) + Subtotal(b)
    decreases |b|
  {
    if b == [] {
      assert a + b == a;
    } else {
      var b' := b[..|b| - 1];
      assert (a + b)[..|a + b| - 1] == a + b';
      assert (a + b)[|a + b| - 1] == b[|b| - 1];
      SubtotalAppend(a, b');
    }
  }

  lemma SubtotalSingle(item: Item)
    ensures Subtotal([item]) == Amount(item)
  {
  }

  /** "Add Item" leaves the subtotal unchanged: the default row is worth 0. */
  lemma SubtotalAppended(items: seq<Item>)
    ensures Subtotal(Appended(items)) == Subtotal(items)
  {
  }

  /** The subtotal around one row: the rows before it, the row, the rows after. */
  lemma {:induction false} SubtotalSplit(pre: seq<Item>, item: Item, post: seq<Item>)
    ensures Subtotal(pre + [item] + post) == Subtotal(pre) + Amount(item) + Subtotal(post)
  {
    SubtotalAppend(pre + [item], post);
    SubtotalAppend(pre, [item]);
    SubtotalSingle(item);
  }

  /** Removing an in-range row lowers the subtotal by exactly that row's
      amount; an out-of-range index changes nothing. */
  lemma {:induction false} SubtotalRemovedAt(items: seq<Item>, index: int)
    ensures 0 <= index < |items| ==>
            Subtotal(RemovedAt(items, index)) == Subtotal(items) - Amount(items[index])
    ensures !(0 <= index < |items|) ==> Subtotal(RemovedAt(items, index)) == Subtotal(items)
  {
    if 0 <= index < |items| {
      var pre, post := items[..index], items[index + 1..];
      assert items == pre + [items[index]] + post;
      assert RemovedAt(items, index) == pre + post;
      SubtotalAppend(pre, post);
      SubtotalSplit(pre, items[index], post);
    }
  }

  /** A change event replaces one row's amount by the changed row's amount
      and leaves the rest of the subtotal alone. */
  lemma {:induction false} SubtotalChangedAt(items: seq<Item>, index: nat, change: ItemChange)
    requires index < |items|
    ensures Subtotal(ChangedAt(items, index, change))
         == Subtotal(items) - Amount(items[index]) + Amount(Changed(items[index], change))
  {
    var pre, post := items[..index], items[index + 1..];
    var item' := Changed(items[index], change);
    assert items == pre + [items[index]] + post;
    assert ChangedAt(items, index, change) == pre + [item'] + post;
    SubtotalSplit(pre, items[index], post);
    SubtotalSplit(pre, item', post);
  }
}
