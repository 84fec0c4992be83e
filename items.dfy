/** Line items of the invoice form and the three edits the form makes to
    its item list: append a default item, remove the item at an index, and
    change one field of one item. */
module LineItems {

  /** One row of the items table; amounts are mathematical reals. */
  datatype Item = Item(description: string, quantity: real, price: real)

  /** The field an item-change event names, together with its new value. */
  datatype ItemChange =
    | SetDescription(text: string)
    | SetQuantity(q: real)
    | SetPrice(p: real)

  /** The row appended by "Add Item", and the form's initial single row. */
  const DefaultItem: Item := Item("", 1.0, 0.0)

  /** What one row contributes to the subtotal. */
  function Amount(item: Item): real {
    item.quantity * item.price
  }

  /** The item list after "Add Item": the old rows, then one default row. */
  function Appended(items: seq<Item>): (r: seq<Item>)
    ensures |r| == |items| + 1
    ensures r[..|items|] == items
    ensures r[|items|] == DefaultItem
  {
    items + [DefaultItem]
  }

  /** The item list after removing position `index`, written as the filter
      the form uses: keep every row whose position differs from `index`. */
  function RemovedAt(items: seq<Item>, index: int): (r: seq<Item>)
    ensures 0 <= index < |items| ==> r == items[..index] + items[index + 1..]
    ensures !(0 <= index < |items|) ==> r == items
    ensures |r| == if 0 <= index < |items| then |items| - 1 else |items|
  {
    if items == [] then []
    else (if index == 0 then [] else [items[0]]) + RemovedAt(items[1..], index - 1)
  }

  /** One item with the field named by `change` set to its value. */
  function Changed(item: Item, change: ItemChange): (r: Item)
    ensures change.SetDescription? ==> r == item.(description := change.text)
    ensures change.SetQuantity? ==> r == item.(quantity := change.q)
    ensures change.SetPrice? ==> r == item.(price := change.p)
  {
    match change
    case SetDescription(text) => Item(text, item.quantity, item.price)
    case SetQuantity(q) => Item(item.description, q, item.price)
    case SetPrice(p) => Item(item.description, item.quantity, p)
  }

  /** The item list after a change event on row `index`. */
  function ChangedAt(items: seq<Item>, index: nat, change: ItemChange): (r: seq<Item>)
    requires index < |items|
    ensures |r| == |items|
    ensures r[index] == Changed(items[index], change)
    ensures forall j :: 0 <= j < |items| && j != index ==> r[j] == items[j]
  {
    items[index := Changed(items[index], change)]
  }

  /** Removing a row and putting it back where it was restores the list:
      removal deletes exactly one element and keeps the order of the rest. */
  lemma {:induction false} RemovedAtKeepsOrder(items: seq<Item>, index: nat)
    requires index < |items|
    ensures RemovedAt(items, index)[..index] + [items[index]] + RemovedAt(items, index)[index..] == items
  {
    var r := RemovedAt(items, index);
    assert r == items[..index] + items[index + 1..];
    assert r[..index] == items[..index];
    assert r[index..] == items[index + 1..];
    assert items == items[..index] + [items[index]] + items[index + 1..];
  }

  /** Every row after the removed one moves up by exactly one place. */
  lemma RemovedAtShifts(items: seq<Item>, index: nat, j: nat)
    requires index < |items| && j < |items| - 1
    ensures RemovedAt(items, index)[j] == if j < index then items[j] else items[j + 1]
  {
  }
}
