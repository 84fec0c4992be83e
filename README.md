# Invoice form: totals, line items and phone fields

A Dafny model of the logic of the invoice form in `src/components/InvoiceForm.js`.

- **Totals.** The subtotal is the running sum of quantity × price over the line items. The discount is a percentage of the subtotal. The tax is a percentage of the discounted amount. The total is subtotal − discount + tax.
- **Line items.** "Add Item" appends a default row (`description ""`, quantity 1, price 0). The delete button removes one row by position. A field edit overwrites one field of one row.
- **Phone fields.** Buyer and seller each have a phone field. An edited value loses its first `"+91 "` before it is stored. The stored number is valid when exactly ten digits remain after every non-digit is dropped. After an edit of its phone field, a party's error flag is raised exactly when the stored number is invalid. Before the first edit the phone is empty and the flag is down. The field shows `"+91 "` in front of a non-empty stored number.
- **Invoice record.** The record handed to the preview carries the form's fields and the four figures.

Files and modules:

- `items.dfy`, module `LineItems`: the `Item` row and the three list edits, as functions on sequences.
- `totals.dfy`, module `Totals`: the totals engine. It also has lemmas that tie the subtotal to each list edit.
- `phone.dfy`, module `Phone`: digit filtering, validation, country-code stripping and the display value.
- `form.dfy`, module `FormState`: the class `InvoiceForm`. It has one field per piece of form state, and its handlers are methods that state the whole new state. `Valid()` is the invariant that both error flags agree with their phones. `InvoiceData()` assembles the preview record.

Amounts are mathematical reals. The form's event handlers are synchronous state transitions.

Notes on the code's behaviour:

- `replace("+91 ", "")` removes the first `"+91 "` wherever it stands in the value, not only at its start.
- The code stores whatever is left after stripping, even when that is not ten digits. Only the error flag records validity.
- Quantities, prices and rates are used in the arithmetic as they arrive; non-numeric input is outside this model (see below).
- The "Send Invoice" and "Download Copy" buttons (src/components/Invoice.js:170-175) have no handlers, so there is no export behaviour to model.

## Model

| member | source | states |
|---|---|---|
| `LineItems.Appended` | src/components/InvoiceForm.js:43-45 | the list grows by exactly one; the earlier rows are unchanged and in order; the new last row is the default row |
| `LineItems.RemovedAt` | src/components/InvoiceForm.js:47-49 | the position filter removes exactly the row at an in-range index and keeps the rest in order (length drops by one); an out-of-range index leaves the list unchanged |
| `LineItems.RemovedAtKeepsOrder` | src/components/InvoiceForm.js:47-49 | putting the removed row back at its position restores the original list |
| `LineItems.RemovedAtShifts` | src/components/InvoiceForm.js:47-49 | rows before the removed one keep their position; rows after it move up by one |
| `LineItems.Changed` | src/components/InvoiceForm.js:39 | an edit sets exactly the named field of a row; the other two fields keep their values |
| `LineItems.ChangedAt` | src/components/InvoiceForm.js:36-41 | a field edit keeps the list length; the edited row is the changed row; every other row is unchanged |
| `Totals.Subtotal` | src/components/InvoiceForm.js:51-53 | the empty list has subtotal 0; rows with non-negative quantity and price give a non-negative subtotal |
| `Totals.SubtotalAppend` | src/components/InvoiceForm.js:51-53 | the subtotal of two concatenated lists is the sum of their subtotals, so the sum does not depend on how the rows are grouped |
| `Totals.SubtotalSplit` | src/components/InvoiceForm.js:51-53 | the subtotal is the rows before a row, plus that row's quantity × price, plus the rows after it |
| `Totals.Discount` | src/components/InvoiceForm.js:55 | a 0% rate gives no discount; a 100% rate discounts the whole subtotal; a rate between 0 and 100 on a non-negative subtotal gives a discount between 0 and the subtotal |
| `Totals.Tax` | src/components/InvoiceForm.js:56 | a 0% rate gives no tax; a non-negative rate on a non-negative amount gives non-negative tax |
| `Totals.Total` | src/components/InvoiceForm.js:57-62 | the total is the discounted amount times (1 + taxRate/100); with both rates 0 the total is the subtotal; an empty item list gives total 0 whatever the rates |
| `Totals.TotalIsScaledSubtotal` | src/components/InvoiceForm.js:57-62 | the total is subtotal × (1 − discountRate/100) × (1 + taxRate/100) |
| `Totals.FiguresNonNegative` | src/components/InvoiceForm.js:51-62 | with non-negative rows, a discount rate in [0, 100] and a non-negative tax rate: the discounted amount is between 0 and the subtotal, and the total is non-negative |
| `Totals.TaxBaseExcludesDiscount` | src/components/InvoiceForm.js:58-60 | the tax is charged on subtotal − discount; it is less than tax on the raw subtotal by exactly the tax on the discount, and it differs from it whenever the subtotal and both rates are non-zero |
| `Totals.WorkedExample` | src/components/InvoiceForm.js:55-62 | a subtotal of 100 with 10% discount and 10% tax gives discount 10, tax 9 and total 99 |
| `Totals.EmptyListFigures` | src/components/InvoiceForm.js:47-62 | once the last row is deleted, subtotal, discount, tax and total are all 0 whatever the rates |
| `Totals.SubtotalAppended` | src/components/InvoiceForm.js:43-45 | adding the default row leaves the subtotal unchanged |
| `Totals.SubtotalRemovedAt` | src/components/InvoiceForm.js:47-49 | removing an in-range row lowers the subtotal by exactly that row's amount; an out-of-range index leaves it unchanged |
| `Totals.SubtotalChangedAt` | src/components/InvoiceForm.js:36-41 | a field edit changes the subtotal by exactly the edited row's new amount minus its old amount |
| `Phone.Digits` | src/components/InvoiceForm.js:65 | the result holds only digits and is no longer than the input; an all-digit input is kept whole |
| `Phone.DigitsAppend` | src/components/InvoiceForm.js:65 | digit filtering distributes over concatenation, so the digits keep their order |
| `Phone.DigitsCountsPositions` | src/components/InvoiceForm.js:65-66 | the length of the filtered string is the number of positions of the input that hold a digit |
| `Phone.ValidatePhoneNumber` | src/components/InvoiceForm.js:64-67 | a valid number has at least ten characters; an all-digit number is valid exactly when it has ten characters |
| `Phone.ValidateCountsDigits` | src/components/InvoiceForm.js:64-67 | a number is valid exactly when ten of its positions hold a digit |
| `Phone.ValidIgnoresNonDigit` | src/components/InvoiceForm.js:64-67 | inserting a non-digit anywhere never changes validity |
| `Phone.ValidationExamples` | src/components/InvoiceForm.js:64-67 | "98765432" is invalid and "9876543210" is valid |
| `Phone.DigitGroups` | src/components/InvoiceForm.js:65 | separators between groups of digits are dropped and the groups are kept in order |
| `Phone.DashedExample` | src/components/InvoiceForm.js:64-67 | "987-654-3210" is valid |
| `Phone.StripCountryCode` | src/components/InvoiceForm.js:70 | a value without `"+91 "` is kept as is; otherwise exactly the first occurrence of `"+91 "` is removed |
| `Phone.StripPastFirstChar` | src/components/InvoiceForm.js:70 | when the value does not start with the code, stripping keeps the first character and strips the rest |
| `Phone.CodeAtShift` | src/components/InvoiceForm.js:70 | the code occurs at position k + 1 of a value exactly when it occurs at position k of its tail |
| `Phone.NoCodeInTail` | src/components/InvoiceForm.js:70 | a value without the code has a tail without the code |
| `Phone.FirstCodeInTail` | src/components/InvoiceForm.js:70 | when the code does not start a value, its first occurrence is one place after its first occurrence in the tail |
| `Phone.RemoveAfterFirstChar` | src/components/InvoiceForm.js:70 | removing the code at k is keeping the first character and removing the code at k − 1 from the tail |
| `Phone.DisplayPhone` | src/components/InvoiceForm.js:184 | the shown value is empty exactly when the stored number is; otherwise it is `"+91 "` followed by the number |
| `Phone.StripDisplayRoundTrip` | src/components/InvoiceForm.js:184-185 | feeding the shown value back to the handler stores the same number |
| `Phone.DisplayStripRoundTrip` | src/components/InvoiceForm.js:184-185 | a value made of `"+91 "` and a non-empty number is shown again unchanged once stored |
| `Phone.BrokenCodeIsKept` | src/components/InvoiceForm.js:70 | a value whose code the user has broken is stored whole, and the field then shows the code twice |
| `Phone.DisplayAddsTwoDigits` | src/components/InvoiceForm.js:70 | the shown value has two more digits than the stored number, which is why validation runs after stripping |
| `FormState.InvoiceForm.constructor` | src/components/InvoiceForm.js:22-33 | the initial state: Pending status, empty parties, one default row, both rates 0, the default notes, both flags down; the invariant holds |
| `FormState.InvoiceForm.AddItem` | src/components/InvoiceForm.js:43-45 | only the item list changes, and it becomes the list with the default row appended; the subtotal is unchanged |
| `FormState.InvoiceForm.RemoveItem` | src/components/InvoiceForm.js:47-49 | only the item list changes, and it becomes the list without the given position; an in-range removal lowers the subtotal by that row's amount |
| `FormState.InvoiceForm.HandleItemChange` | src/components/InvoiceForm.js:36-41 | only the named field of the given row changes; the subtotal moves by the row's change in amount |
| `FormState.InvoiceForm.HandleBuyerPhoneChange` | src/components/InvoiceForm.js:69-79 | only the buyer's phone and the buyer's error flag change; the phone becomes the stripped value and the flag is raised exactly when it is invalid; the invariant is kept |
| `FormState.InvoiceForm.HandleSellerPhoneChange` | src/components/InvoiceForm.js:81-91 | only the seller's phone and the seller's error flag change, as for the buyer |
| `FormState.InvoiceForm.SetTaxRate` | src/components/InvoiceForm.js:351 | only the tax rate changes |
| `FormState.InvoiceForm.SetDiscountRate` | src/components/InvoiceForm.js:365 | only the discount rate changes |
| `FormState.InvoiceForm.BuyerPhoneField` | src/components/InvoiceForm.js:184 | a non-empty stored phone is shown as `"+91 "` followed by the number; the field is empty exactly when the phone is; stripping the buyer's shown value gives the stored phone |
| `FormState.InvoiceForm.SellerPhoneField` | src/components/InvoiceForm.js:222 | a non-empty stored phone is shown as `"+91 "` followed by the number; the field is empty exactly when the phone is; stripping the seller's shown value gives the stored phone |
| `FormState.InvoiceForm.InvoiceData` | src/components/InvoiceForm.js:101-116 | before rounding, the record's total equals its subtotal − discount + tax, and equals (subtotal − discount) × (1 + taxRate/100); the discount comes from the subtotal and the tax from the discounted amount; with both rates 0 the total is the subtotal; the date, status, items, parties, notes and rates are the form's own |

## Left out

- Rendering: all JSX and the MUI components, the modal open/close state (`handleReviewClick`, `closeModal`), and `src/components/Invoice.js`. These are presentation.
- The date picker: the date is an integer the constructor receives as a parameter (the clock reading), and date changes are not modelled.
- The inline setters for names, addresses, status and notes are not modelled. They are JSX one-liners that overwrite one field.
- `toFixed(2)` rounding: the record's four figures are modelled before rounding.
- JavaScript floating point, and the string-to-number coercion of input values (NaN when a field is not numeric). Quantities, prices and rates are taken as already numeric reals.
- React state mechanics (batching, re-rendering): each handler is one synchronous transition.
- `FormState.InvoiceForm.HandleItemChange`: requires the row index to be in range. The source only calls it with the index of a rendered row, and an out-of-range index would throw a TypeError.
- `FormState.InvoiceForm.HandleItemChange`: the item objects shared between the old and the copied array are not modelled. The old array is discarded, so nothing observable depends on it.
- The initial parties have no `phone` key at all. The model uses an empty phone instead: both are falsy and display the same empty field.
