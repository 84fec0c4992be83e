/** The state of the invoice form and the event handlers that change it:
    the item-list edits, the two phone handlers with their error flags, the
    two rate fields, and the invoice record handed to the preview. */
module FormState {
  import opened LineItems
  import opened Totals
  import opened Phone

  /** Payment status chosen in the form. */
  datatype Status = Pending | Completed

  /** Buyer or seller details. A party that has never had its phone edited
      has an empty phone. */
  datatype Party = Party(name: string, email: string, address: string, phone: string)

  const EmptyParty: Party := Party("", "", "", "")

  const DefaultNotes: string := "Thanks for your business!"

  /** Every piece of form state, as one value. */
  datatype Draft = Draft(
    date: int,
    status: Status,
    buyer: Party,
    seller: Party,
    items: seq<Item>,
    taxRate: real,
    discountRate: real,
    notes: string,
    buyerPhoneError: bool,
    sellerPhoneError: bool)

  /** The record handed to the preview: the draft's fields and the four
      figures before they are rounded for display. */
  datatype Invoice = Invoice(
    date: int,
    status: Status,
    buyer: Party,
    seller: Party,
    items: seq<Item>,
    subtotal: real,
    discount: real,
    tax: real,
    total: real,
    notes: string,
    taxRate: real,
    discountRate: real)

  /** An error flag agrees with its phone: it is never raised on a valid
      number, and it is down only on a valid number or on a phone that has
      never been edited and is still empty. */
  predicate FlagAgrees(phone: string, error: bool) {
    (error ==> !ValidatePhoneNumber(phone)) && (!error ==> ValidatePhoneNumber(phone) || phone == "")
  }

  class InvoiceForm {
    var date: int
    var status: Status
    var buyer: Party
    var seller: Party
    var items: seq<Item>
    var taxRate: real
    var discountRate: real
    var notes: string
    var buyerPhoneError: bool
    var sellerPhoneError: bool

    /** The whole state of the form. */
    function State(): Draft
      reads this
    {
      Draft(date, status, buyer, seller, items, taxRate, discountRate, notes,
            buyerPhoneError, sellerPhoneError)
    }

    /** Both error flags agree with their phones. */
    predicate Valid()
      reads this
    {
      FlagAgrees(buyer.phone, buyerPhoneError) && FlagAgrees(seller.phone, sellerPhoneError)
    }

    /** The form as it is first shown; `today` is the clock reading the date
        picker starts from. */
    constructor (today: int)
      ensures Valid()
      ensures State() == Draft(today, Pending, EmptyParty, EmptyParty, [DefaultItem],
                               0.0, 0.0, DefaultNotes, false, false)
    {
      date := today;
      status := Pending;
      buyer := EmptyParty;
      seller := EmptyParty;
      items := [DefaultItem];
      taxRate := 0.0;
      discountRate := 0.0;
      notes := DefaultNotes;
      buyerPhoneError := false;
      sellerPhoneError := false;
    }

    /** "Add Item": one default row at the end, nothing else changes. */
    method AddItem()
      requires Valid()
      modifies this
      ensures Valid()
      ensures State() == old(State()).(items := Appended(old(items)))
      ensures Subtotal(items) == Subtotal(old(items))
    {
      items := Appended(items);
      SubtotalAppended(old(items));
    }

    /** The delete button of row `index`: that row goes, the others keep
        their order; an index outside the list changes nothing. */
    method RemoveItem(index: int)
      requires Valid()
      modifies this
      ensures Valid()
      ensures State() == old(State()).(items := RemovedAt(old(items), index))
      ensures 0 <= index < |old(items)| ==> Subtotal(items) == Subtotal(old(items)) - Amount(old(items)[index])
    {
      items := RemovedAt(items, index);
      SubtotalRemovedAt(old(items), index);
    }

    /** An edit in one field of row `index`: a copy of the list is taken,
        the field of that row is overwritten, and the copy becomes the list. */
    method HandleItemChange(index: nat, change: ItemChange)
      requires Valid()
      requires index < |items|
      modifies this
      ensures Valid()
      ensures State() == old(State()).(items := ChangedAt(old(items), index, change))
      ensures Subtotal(items)
           == Subtotal(old(items)) - Amount(old(items)[index]) + Amount(items[index])
    {
      var updatedItems := items;
      updatedItems := updatedItems[index := Changed(updatedItems[index], change)];
      items := updatedItems;
      SubtotalChangedAt(old(items), index, change);
    }

    /** An edit of the buyer's phone field: the code is removed, the result
        is stored as the buyer's phone, and the error flag is raised exactly
        when the stored number is invalid. */
    method HandleBuyerPhoneChange(value: string)
      requires Valid()
      modifies this
      ensures Valid()
      ensures buyer.phone == StripCountryCode(value)
      ensures buyerPhoneError == !ValidatePhoneNumber(buyer.phone)
      ensures State() == old(State()).(buyer := old(buyer).(phone := StripCountryCode(value)),
                                       buyerPhoneError := !ValidatePhoneNumber(StripCountryCode(value)))
    {
      var phone := StripCountryCode(value);
      buyer := buyer.(phone := phone);
      if ValidatePhoneNumber(phone) {
        buyerPhoneError := false;
      } else {
        buyerPhoneError := true;
      }
    }

    /** An edit of the seller's phone field, as for the buyer. */
    method HandleSellerPhoneChange(value: string)
      requires Valid()
      modifies this
      ensures Valid()
      ensures seller.phone == StripCountryCode(value)
      ensures sellerPhoneError == !ValidatePhoneNumber(seller.phone)
      ensures State() == old(State()).(seller := old(seller).(phone := StripCountryCode(value)),
                                       sellerPhoneError := !ValidatePhoneNumber(StripCountryCode(value)))
    {
      var phone := StripCountryCode(value);
      seller := seller.(phone := phone);
      if ValidatePhoneNumber(phone) {
        sellerPhoneError := false;
      } else {
        sellerPhoneError := true;
      }
    }

    /** The tax-rate field. */
    method SetTaxRate(rate: real)
      requires Valid()
      modifies this
      ensures Valid()
      ensures State() == old(State()).(taxRate := rate)
    {
      taxRate := rate;
    }

    /** The discount-rate field. */
    method SetDiscountRate(rate: real)
      requires Valid()
      modifies this
      ensures Valid()
      ensures State() == old(State()).(discountRate := rate)
    {
      discountRate := rate;
    }

    /** What the buyer's phone field shows: the code in front of a stored
        number, nothing for an empty one; storing it gives the phone back. */
    function BuyerPhoneField(): (shown: string)
      reads this
      ensures StripCountryCode(shown) == buyer.phone
      ensures shown == "" <==> buyer.phone == ""
      ensures buyer.phone != "" ==> shown == CountryCode + buyer.phone
    {
      StripDisplayRoundTrip(buyer.phone);
      DisplayPhone(buyer.phone)
    }

    /** What the seller's phone field shows, as for the buyer. */
    function SellerPhoneField(): (shown: string)
      reads this
      ensures StripCountryCode(shown) == seller.phone
      ensures shown == "" <==> seller.phone == ""
      ensures seller.phone != "" ==> shown == CountryCode + seller.phone
    {
      StripDisplayRoundTrip(seller.phone);
      DisplayPhone(seller.phone)
    }

    /** The invoice record for the preview. Its four figures are derived
        from the items and rates each time and agree with one another. */
    function InvoiceData(): (d: Invoice)
      reads this
      ensures d.total == d.subtotal - d.discount + d.tax
      ensures d.total == (d.subtotal - d.discount) * (1.0 + taxRate / 100.0)
      ensures d.subtotal == Subtotal(items)
      ensures d.discount == Discount(d.subtotal, discountRate)
      ensures d.tax == Tax(d.subtotal - d.discount, taxRate)
      ensures taxRate == 0.0 && discountRate == 0.0 ==> d.total == d.subtotal
      ensures d.items == items && d.buyer == buyer && d.seller == seller
      ensures d.taxRate == taxRate && d.discountRate == discountRate
      ensures d.date == date && d.status == status && d.notes == notes
    {
      var subtotal := Subtotal(items);
      Invoice(
        date, status, buyer, seller, items,
        subtotal,
        Discount(subtotal, discountRate),
        Tax(subtotal - Discount(subtotal, discountRate), taxRate),
        Total(items, discountRate, taxRate),
        notes, taxRate, discountRate)
    }
  }
}
