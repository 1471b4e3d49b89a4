# Invoicing core, modelled in Dafny

A model of the logic inside a small-business invoicing web app for Indian
traders: a React/TypeScript single-page app over a hosted database. The
app builds invoices in a three-step wizard (customer, items, review),
prints them, and keeps every customer's outstanding balance
(`pendingAmount`) in step with their invoices and payments. The model
covers:

- **Invoice money and print logic.** The models are:
  - per-line amounts `rate × qty × (1 − discount/100)`;
  - the totals of the three PDF layouts and of the on-screen summary;
  - `round2`;
  - `formatAmount` with thousands separators;
  - the normalisation of print items;
  - the blank-cell rule of the details grid;
  - `numberToWords` with Indian grouping (Crore, Lakh, Thousand, Hundred).
- **The customer ledger.** It is one `Ledger` class: the store as the pages see it, holding each company's balance, soft-delete stamps, invoices, line items and the payment journal. Every page handler that writes balances is a method on it:
  - creating invoices (review step);
  - editing invoices (review step);
  - deleting invoices (history and sales report);
  - recording payments (payments page and sales report);
  - deleting payments;
  - soft-deleting, restoring and purging customers.

  Every ledger method keeps all balances non-negative. A method that makes several store calls takes as a parameter which call reports an error, and its contract states what the calls before that one have written.
- **The wizard.** This covers:
  - the wizard's store, with its editing id and number;
  - the cart rules, where re-adding an item accumulates quantity and editing a line replaces it;
  - loading a stored invoice back into the cart, from the edit page and from history.
- **Small rules.** These are:
  - the company dialogs' validation;
  - the `INV/YYMM/NNNN` invoice number;
  - timestamp normalisation and the date formatters' placeholders;
  - the 30-day purge countdown;
  - the search filters;
  - the keyboard highlight of the customer pickers;
  - the sales report's aggregates and insight ordering.

There is one module per source file. Six shared modules carry the
helpers and the store:

| module | contents |
|---|---|
| `Wrappers` | `Option` |
| `Text` | trimming, case and substring search |
| `JsNumber` | JavaScript's `Number`, `String`, `Math.round` and `toFixed` on decimals |
| `Seqs` | filters, sums, a stable sort and grouping |
| `Keyboard` | the key names the pickers' handlers read |
| `CustomerLedger` | the stored rows, the balance rules and the `Ledger` class the page handlers write |

Money is a Dafny `real`, and JavaScript's rounding is written out
explicitly. Methods that change state are class methods, with
`modifies` clauses and contracts that state the new state. Pure
computations are functions, and lemmas relate them.

## Model

| member | source | states |
|---|---|---|
| JsNumber.Round2Spec | src/components/InvoicePdf.tsx:461 | `round2(x)` is the whole number of paise nearest to x, with halves rounded up as `Math.round` does, divided by 100 |
| JsNumber.Round2Idempotent | src/components/InvoicePdf.tsx:461 | `round2` applied twice gives the same result as applying it once |
| InvoicePdf.NormalizeDefaults | src/components/InvoicePdf.tsx:462-472 | missing fields get defaults: the serial number becomes position + 1, texts are trimmed or empty, the quantity becomes "0" and rate and amount become 0; rate and amount are always whole paise; the box fields pass through |
| InvoicePdf.TotalsShape | src/components/InvoicePdf.tsx:474-480 | for any items: the round-off is 0, the grand total equals the subtotal, the subtotal is whole paise and the current balance is never negative |
| InvoicePdf.TotalsOfNormalized | src/components/InvoicePdf.tsx:462-480 | for normalised items the subtotal is exactly the sum of the amounts; if the previous balance is whole paise, the current balance is exactly max(0, previous + grand total) |
| InvoicePdf.SumOfCents | src/components/InvoicePdf.tsx:475 | a sum of whole-paise amounts is a whole number of paise |
| InvoicePdf.FormatAmountSymmetric | src/components/InvoicePdf.tsx:484-489 | `formatAmount(-x) == formatAmount(x)` |
| InvoicePdf.FormatAmountShape | src/components/InvoicePdf.tsx:484-489 | the result ends in '.' and two digits, preceded by the thousands-grouped whole rupees of |x| rounded to paise |
| InvoicePdf.FormatAmountDigits | src/components/InvoicePdf.tsx:484-489 | the result is the grouped rupee digits of |x| in paise, then '.', then its two paise digits |
| InvoicePdf.FormatAmountReadsBack | src/components/InvoicePdf.tsx:484-489 | the result with its commas removed parses back through `Number` to |x| rounded to paise |
| InvoicePdf.UngroupThousands | src/components/InvoicePdf.tsx:487 | removing the commas of a grouped digit string gives back the digits |
| InvoicePdf.GroupedShape | src/components/InvoicePdf.tsx:487 | grouped digits hold only digits and commas, start and end with a digit, and never have two commas in a row |
| InvoicePdf.SplitFixed | src/components/InvoicePdf.tsx:486 | `toFixed(2).split('.')` of a non-negative amount gives exactly the rupee digits and the two paise digits |
| InvoicePdf.Cell | src/components/InvoicePdf.tsx:596-601 | an empty text shows a no-break space; a non-empty text is shown unchanged |
| InvoicePdf.MetaRowsFilled | src/components/InvoicePdf.tsx:518-527 | the details grid has eight rows; no printed cell is empty; a cell shows its value exactly when the value is non-empty; the invoice number and date head the grid (the grid is drawn at lines 593-601) |
| InvoicePdf.ItemRowBoxes | src/components/InvoicePdf.tsx:620-634 | the box columns and the second description line appear exactly when both box fields are positive, and the quantity shown is then boxes × per box; otherwise the three box cells are no-break spaces; the description is never empty; the rate has two decimals |
| InvoicePdf.FooterMatchesRows | src/components/InvoicePdf.tsx:630-643 | when no box field is negative, the footer's quantity total equals the sum of the quantities the rows show |
| AmountWords.GroupParts | src/components/InvoicePdf.tsx:503-510 | the crore, lakh and thousand steps push exactly the non-zero parts, in that order, and leave in `num` the last three digits, n mod 1000 |
| AmountWords.NumberToWordsAsWritten | src/components/InvoicePdf.tsx:491-513 | the method's result is the as-written word form of the rounded amount: "INR 0 Only" below 0, "INR Zero Only" at 0, otherwise "INR ", the parts joined by spaces, and " Only" |
| AmountWords.NumberToWords | src/components/InvoicePdf.tsx:491-513 | the same steps with `threeDigits` corrected give the corrected word form |
| AmountWords.IndianGrouping | src/components/InvoicePdf.tsx:505-510 | below 10^9, n is crores × 10^7 + lakhs × 10^5 + thousands × 1000 + the rest, with each count below 100 and the rest below 1000 |
| AmountWords.NegativeWords | src/components/InvoicePdf.tsx:492-493 | an amount that rounds below 0 prints "INR 0 Only" |
| AmountWords.ZeroWords | src/components/InvoicePdf.tsx:492-494 | an amount that rounds to 0 prints "INR Zero Only" |
| AmountWords.LakhAndCrore | src/components/InvoicePdf.tsx:505-512 | 100000 prints "INR One Lakh Only" and 10000000 prints "INR One Crore Only", in both forms |
| AmountWords.DoubleSpaceAsWritten | src/components/InvoicePdf.tsx:498-512 | as written, 42 prints "INR  Forty Two Only", with two spaces, so the output is not tidy |
| AmountWords.DoubleSpaceAfterThousand | src/components/InvoicePdf.tsx:498-512 | as written, 1005 prints "INR One Thousand  Five Only" |
| AmountWords.SingleSpaceCorrected | src/components/InvoicePdf.tsx:498-502 | corrected, 42 prints "INR Forty Two Only" |
| AmountWords.HundredCroreUndefined | src/components/InvoicePdf.tsx:496-506 | at 10^9 the crore count has three digits, `tens` is read past its end, and both forms print "INR undefined Crore Only" |
| AmountWords.TwoDigitsTidy | src/components/InvoicePdf.tsx:497 | `twoDigits` of 1..99 is words separated by single spaces |
| AmountWords.ThreeDigitsTidy | src/components/InvoicePdf.tsx:498-502 | the corrected `threeDigits` of 1..999 is words separated by single spaces |
| AmountWords.PartsTidy | src/components/InvoicePdf.tsx:503-511 | below 10^9 every part the corrected words join is tidy, and there is at least one part |
| AmountWords.WordsTidy | src/components/InvoicePdf.tsx:491-513 | below 10^9 the corrected words never contain a doubled or an edge space, for every amount |
| CustomInvoicePdf.TotalsFacts | src/components/CustomInvoicePdf.tsx:265-279 | the subtotal is the sum of the discounted line amounts; IGST is 0; the round-off lies in (-0.5, 0.5], so the grand total is the subtotal rounded to whole rupees; the payable is the grand total plus the pending amount; the total quantity is the sum of the quantities |
| CustomInvoicePdf.WordsReadBack | src/components/CustomInvoicePdf.tsx:282-285 | the placeholder words are "INR ", `toFixed(2)` of the amount, and " Only"; the middle part parses back to the amount rounded to paise, in the sign-symmetric way `toFixed` rounds |
| CustomInvoicePdf.RowsMatchTotals | src/components/CustomInvoicePdf.tsx:265-279 | the rows' final amounts add up to the subtotal, and their quantities add up to the total quantity (the rows are built at lines 394-396) |
| InvoiceSummary.LineFinalFormula | src/components/InvoiceSummary.tsx:14-16 | a line's final amount is rate × qty × (1 − discount/100), and the base is the final amount plus the discount; with a non-negative base and a discount between 0 and 100, the final amount lies between 0 and the base |
| InvoiceSummary.BeforeDiscount | src/components/InvoiceSummary.tsx:12-48 | subtotal + total discount equals the sum of rate × quantity, the "before discount" figure |
| InvoiceSummary.TotalsNonNegative | src/components/InvoiceSummary.tsx:12-25 | with non-negative bases and discounts between 0 and 100, the subtotal and the discount are non-negative and the subtotal never exceeds the base total |
| InvoiceSummary.SummaryShows | src/components/InvoiceSummary.tsx:27-99 | the card shows figures exactly when the cart is not empty; the first figure is the sum of rate × quantity; the discount row appears exactly when the discount is positive; the total is the subtotal; the pending block appears exactly when the company owes something, and its payable is the total plus the pending amount; otherwise the grand total alone is shown |
| SimpleInvoicePdf.RowShows | src/components/SimpleInvoicePdf.tsx:158-184 | rows are numbered from 1; the discount note appears exactly when the discount is positive; the final amount is rate × qty × (1 − discount/100); the amount is printed as its `toFixed(2)` |
| SimpleInvoicePdf.RowsSumToTotal | src/components/SimpleInvoicePdf.tsx:106-114 | the printed total is the sum of the rows' final amounts, and it equals the on-screen summary's subtotal (rows at lines 159-161, total printed at line 193) |
| SimpleInvoicePdf.ExtrasShown | src/components/SimpleInvoicePdf.tsx:197-215 | the due date appears exactly when one is given, the notes exactly when there are any, and the transport section exactly when a mode or a vehicle number is set; inside it, each line appears exactly when its field is set (the due date at lines 128-130) |
| ReviewStep.InvoiceTotalIsSubtotal | src/pages/ReviewStep.tsx:127-129 | the saved invoice total, the sum of rate × qty × (1 − discount/100), equals the summary's subtotal (the summary subtotal at lines 70-72) |
| ReviewStep.TaxNonNegative | src/pages/ReviewStep.tsx:130-132 | the tax, the sum of line total × gstRate/100, is never negative when no line total and no rate is negative |
| ReviewStep.LineRowsSpec | src/pages/ReviewStep.tsx:216-230 | every row belongs to the invoice; a row has no inventory item exactly when the item id starts with 'local-' or 'edit-' or is all digits; the rows' line totals add up to the invoice total |
| ReviewStep.LocalIds | src/pages/ReviewStep.tsx:217-220 | 'edit-…' and 'local-…' ids are never linked to an inventory item, and an id starting with a letter and no such prefix is linked |
| ReviewStep.RoundedSumClose | src/pages/ReviewStep.tsx:291 | rounding each line to paise moves the sum by at most half a paisa per line |
| ReviewStep.PdfItemsSpec | src/pages/ReviewStep.tsx:289-303 | the printed rows are numbered from 1 and carry round2(rate) and round2(line total); the printed subtotal is the sum of the rounded lines, and it lies within half a paisa per line of the saved total |
| ReviewStep.NumberToSaveSpec | src/pages/ReviewStep.tsx:119-120 | an edited invoice keeps its own number, and a new invoice takes the generated one |
| ReviewStep.SaveAndDownload | src/pages/ReviewStep.tsx:74-348 | refused with nothing written when no customer is chosen or the cart is empty; otherwise, for a logged-in user, it inserts a 'sent' invoice with amount received 0, sets pending to max(0, before + total) and inserts the lines, or re-saves the edited invoice as 'updated', deletes its old lines, sets pending to max(0, before + new − old) and inserts the new lines; the first store error ends the save with the earlier writes kept and reports `NotSaved`; a PDF that cannot be made reports `PdfFailed`; only a save that reaches the download hands the printed rows the balance from before and resets the wizard, and after either error the wizard keeps its cart and customer |
| CustomerLedger.CreatePending | src/pages/ReviewStep.tsx:180-208 | after creating an invoice, the balance is max(0, p + total): never negative, exactly p + total when that is not negative, and 0 otherwise |
| CustomerLedger.EditPending | src/pages/ReviewStep.tsx:168-173 | after an edit, the balance is max(0, p + (new − old)), and never negative |
| CustomerLedger.DeletePending | src/pages/History.tsx:178-179 | after deleting an invoice, the balance is max(0, p − total), and never negative |
| CustomerLedger.PaymentPending | src/pages/ManagePayments.tsx:182-183 | after a payment, the balance is max(0, p − amount), exactly p − amount when the amount is at most p |
| CustomerLedger.CreateThenDelete | src/pages/ReviewStep.tsx:180-208 | for a non-negative balance and total, creating then deleting the invoice restores the balance |
| CustomerLedger.DeleteClampLoses | src/pages/History.tsx:178-179 | deleting an invoice larger than the balance clamps to 0, and re-creating it does not give the old balance back |
| CustomerLedger.PaymentThenRestore | src/pages/ManagePayments.tsx:182-278 | recording an accepted payment and then deleting it restores the balance exactly |
| CustomerLedger.EditUnchanged | src/pages/ReviewStep.tsx:168-173 | re-saving an unchanged total leaves a non-negative balance unchanged |
| CustomerLedger.EditIsDeleteThenCreate | src/pages/ReviewStep.tsx:168-173 | while the old total is covered by the balance, an edit is a delete of the old invoice followed by a create of the new one |
| CustomerLedger.EditTwice | src/pages/ReviewStep.tsx:168-173 | two edits with no clamp in between equal one edit from the first total to the last |
| CustomerLedger.CheckPayment | src/pages/ManagePayments.tsx:170-183 | the amount is refused as invalid exactly when it is NaN or ≤ 0, and refused as too large exactly when it is positive and above the balance; otherwise it is accepted with previous = balance and next = balance − amount ≥ 0 |
| CustomerLedger.ResaveRowsSpec | src/pages/ReviewStep.tsx:139-155 | re-saving keeps every row's id and is idempotent; the old total the next edit reads for the invoice is the new total, and no other invoice's total moves |
| CustomerLedger.Ledger.PendingOf | src/pages/History.tsx:178 | the stored balance is never negative, and 0 for a missing company |
| CustomerLedger.Ledger.WritePending | src/pages/ReviewStep.tsx:170-176 | the update touches only that company's balance and stamp, and nothing when the company does not exist |
| CustomerLedger.Ledger.CreateInvoice | src/pages/ReviewStep.tsx:179-235 | the calls run in order (insert invoice, write balance, insert lines) and stop at the first error: the 'sent' invoice is appended iff call 1 succeeds, the balance becomes max(0, before + total) with a fresh stamp iff call 2 succeeds, the lines are appended iff call 3 succeeds; every balance stays non-negative |
| CustomerLedger.Ledger.EditInvoice | src/pages/ReviewStep.tsx:136-235 | the calls run in order (re-save invoice, delete old lines, write balance, insert new lines) and stop at the first error; each effect holds iff its call succeeds: the invoice re-saved as 'updated', its old lines removed, the balance max(0, before + new − old) with a fresh stamp, the new lines appended; every balance stays non-negative |
| CustomerLedger.Ledger.DeleteInvoice | src/pages/History.tsx:160-216 | nothing is written when the company's balance cannot be read (a store error or no row); otherwise the balance becomes max(0, previous − total) with a fresh stamp iff the write succeeds, and the invoice and its lines are removed iff the delete succeeds too; a failed delete leaves the lowered balance written |
| CustomerLedger.Ledger.RecordPayment | src/pages/ManagePayments.tsx:170-204 | writes nothing unless the guard accepts; then the journal entry (amount, previous, next) is appended iff the insert succeeds, and the balance set to next with a fresh stamp iff the update succeeds too; a failed update leaves the entry journalled and the balance as it was |
| CustomerLedger.Ledger.DeletePayment | src/pages/ManagePayments.tsx:240-283 | nothing is written when the company's balance cannot be read; otherwise the entry is removed iff the delete succeeds, and the balance then set to current + amount, with no clamp, iff the update succeeds; a failed update leaves the entry deleted and the balance as it was |
| CustomerLedger.Ledger.InsertCompany | src/pages/CustomerStep.tsx:170-186 | adds the new company with its opening balance and its `last_transaction` (none for null) and changes nothing else |
| CustomerLedger.Ledger.UpdateBalance | src/pages/CustomerStep.tsx:90-117 | overwrites an existing company's balance and changes nothing else |
| CustomerLedger.Ledger.SoftDeleteCompany | src/pages/CustomerStep.tsx:119-158 | stamps `deleted_at` on an existing company and removes nothing |
| CustomerLedger.Ledger.RestoreCompany | src/pages/JunkCustomers.tsx:107-124 | clears the soft-delete stamp and changes no balance, stamp, invoice, line or payment |
| CustomerLedger.Ledger.PurgeCompany | src/pages/JunkCustomers.tsx:79-91 | deletes only a soft-deleted company, with its balance and stamps, its invoices, the lines of those invoices (the cascade) and its payments; a company that is not soft-deleted leaves every field untouched |
| WizardStore.InitialIsEmpty | src/store/invoiceWizardStore.ts:31-36 | the store starts with an empty cart, no customer and no editing id or number |
| WizardStore.ActionsKeepPairing | src/store/invoiceWizardStore.ts:37-49 | every action keeps the editing id and number both set or both null |
| WizardStore.ResetIdempotent | src/store/invoiceWizardStore.ts:42-49 | the state after `reset` does not depend on the state before it, so resetting twice equals resetting once |
| WizardStore.ClearEditingKeepsCart | src/store/invoiceWizardStore.ts:41 | `clearEditing` nulls both editing fields, leaves the items, the company and the options alone, and undoes any `setEditing` |
| WizardStore.SettersIndependent | src/store/invoiceWizardStore.ts:37-40 | `setItems`, `setCompany` and `setEditing` commute, and each leaves the other fields alone |
| WizardStore.Wizard.constructor | src/store/invoiceWizardStore.ts:31-36 | the store starts in the initial state, with the editing pair consistent |
| WizardStore.Wizard.SetItems | src/store/invoiceWizardStore.ts:37 | replaces the items only |
| WizardStore.Wizard.SetCompany | src/store/invoiceWizardStore.ts:38 | replaces the company only |
| WizardStore.Wizard.SetOptions | src/store/invoiceWizardStore.ts:39 | replaces the options only |
| WizardStore.Wizard.SetEditing | src/store/invoiceWizardStore.ts:40 | sets the editing id and number together |
| WizardStore.Wizard.ClearEditing | src/store/invoiceWizardStore.ts:41 | clears the editing id and number together |
| WizardStore.Wizard.Reset | src/store/invoiceWizardStore.ts:42-49 | restores every field to its initial value |
| ItemsStep.ClampCountSpec | src/pages/ItemsStep.tsx:103-154 | a box count or per-box count is always at least 1: the floor of the number when that is at least 1, and 1 otherwise (blank, 0, NaN, negative or below 1) |
| ItemsStep.BlankCountIsOne | src/pages/ItemsStep.tsx:103-104 | a blank field counts as 1 |
| ItemsStep.ClampPriceSpec | src/pages/ItemsStep.tsx:105-155 | the price is never negative, and a non-negative price is kept as typed |
| ItemsStep.EntryBounds | src/pages/ItemsStep.tsx:103-156 | every dialog entry has boxes ≥ 1, per box ≥ 1 and price ≥ 0, so its quantity boxes × per box is ≥ 1 |
| ItemsStep.AddExistingAccumulates | src/pages/ItemsStep.tsx:107-119 | re-adding an item already in the cart keeps the cart's length; each line for it gets the quantity added and the new rate, keeping its id, discount and box fields; all other lines are unchanged |
| ItemsStep.AddNewAppends | src/pages/ItemsStep.tsx:120-131 | adding a new item appends exactly one line, with the new id, the item at the entered price, quantity boxes × per box, discount 0 and the box fields recorded |
| ItemsStep.AddPutsInCart | src/pages/ItemsStep.tsx:107-131 | after any add, the item is in the cart |
| ItemsStep.EditItem | src/pages/ItemsStep.tsx:157-163 | editing keeps the cart's length |
| ItemsStep.EditReplaces | src/pages/ItemsStep.tsx:157-163 | editing replaces the quantity, rate, boxes and per box on the matching lines only, keeping their id and discount; all other lines are unchanged |
| ItemsStep.EditIdempotentAddAccumulates | src/pages/ItemsStep.tsx:107-163 | the asymmetry: confirming the same edit twice is the same as once, while adding the same entry twice adds its quantity twice |
| ItemsStep.RemoveKeepsOthers | src/pages/ItemsStep.tsx:168-170 | removing deletes exactly the lines with that id and keeps the rest in order |
| ItemsStep.TotalIgnoresDiscount | src/pages/ItemsStep.tsx:223-226 | the displayed total, the sum of rate × quantity, is the figure before discount: the discounted subtotal plus the discount |
| ItemsStep.FilterInventorySpec | src/pages/ItemsStep.tsx:228-237 | a blank term shows the whole inventory; otherwise exactly the items whose name, HSN or category contains the trimmed, lowercased term, in inventory order |
| ItemsStep.ClampHighlight | src/pages/ItemsStep.tsx:239-243 | the highlight is 0 when there are no results; otherwise it is kept, but never past the last result |
| ItemsStep.ConfirmAddItem | src/pages/ItemsStep.tsx:101-131 | the store's cart becomes the cart after the add, and nothing else in the store changes |
| ItemsStep.ConfirmEditItem | src/pages/ItemsStep.tsx:151-163 | the store's cart becomes the cart after the edit, and nothing else in the store changes |
| ItemsStep.HandleRemoveItem | src/pages/ItemsStep.tsx:168-170 | the store's cart becomes the cart without the line, and nothing else in the store changes |
| EditInvoice.HandleSearch | src/pages/EditInvoice.tsx:22-60 | a blank term (after trim) gives "Please enter an invoice number." and no query; without a user the result is "Please log in first."; a failed or empty lookup reports "Invoice not found…" and never raises; the invoice is shown exactly when a query ran and returned a row |
| EditInvoice.OrOne | src/pages/EditInvoice.tsx:106 | `Number(q) \|\| 1` is never 0: it is the stored value when that is non-zero, and 1 otherwise |
| EditInvoice.CartLineDefaults | src/pages/EditInvoice.tsx:91-108 | a loaded line's quantity is the stored one, or 1; its discount and price are the stored ones, or 0; its stock is 9999; its item id is the inventory id, or starts with 'edit-'; its own id starts with 'edit-item-' |
| EditInvoice.LoadedStateSpec | src/pages/EditInvoice.tsx:68-114 | after loading, the wizard is in edit mode for the invoice's id and number, with one cart line per stored line and the default options; it has the stored customer, whose pending amount defaults to 0, exactly when there is one; nothing from before survives |
| EditInvoice.HandleEditInvoice | src/pages/EditInvoice.tsx:68-114 | the wizard is reset first, then loaded with the customer, the lines and the editing pair |
| History.InitialOutstanding | src/pages/History.tsx:120-125 | the loaded list holds exactly the companies with a positive balance, in query order |
| History.OutstandingAfterDelete | src/pages/History.tsx:222-229 | after a delete, every listed company owes something; other companies' entries are kept unchanged exactly when they owe something; the affected company shows the new balance, and is listed only if that balance is positive |
| History.OutstandingKeepsOrder | src/pages/History.tsx:222-229 | the entries left after a delete keep their relative order |
| History.SearchSpec | src/pages/History.tsx:343-348 | an invoice is listed exactly when its number, or its customer's name, contains the lowercased term; the list keeps the loaded order; the empty term lists everything |
| History.GroupByMonth | src/pages/History.tsx:355-360 | every filtered invoice is in the group of its month and in no other, and each group keeps list order |
| History.HistoryCompany | src/pages/History.tsx:367-378 | the customer handed over is the edit page's mapping of the stored customer with balance 0 and an empty stamp, phone and email |
| History.HistoryLoadedSpec | src/pages/History.tsx:362-397 | loading from history equals the edit page's loading of the same invoice with the customer blanked: the wizard is in edit mode for that id and number, holds the invoice's lines as cart lines, and shows a customer balance of 0 |
| History.HandleEditFromHistory | src/pages/History.tsx:362-397 | the wizard is reset, then loaded with the customer, the cart lines and the editing pair |
| History.HistoryPage.DeleteInvoice | src/pages/History.tsx:150-229 | nothing happens without a user, a confirmation or a customer; otherwise the balance read becomes max(0, previous − total) in the store iff the read and the write succeed, and the invoice and its lines leave the store iff the delete succeeds too; only then does the invoice leave the list and the outstanding list show the new balance; after an error the page is unchanged |
| ManagePayments.TotalAfterUpdate | src/pages/ManagePayments.tsx:57-60 | with distinct ids, changing one company's balance moves the total outstanding by exactly that change (the list update at lines 208-214) |
| ManagePayments.TotalNonNegative | src/pages/ManagePayments.tsx:57-60 | the total outstanding, the sum of the pending amounts, is never negative when no balance is |
| ManagePayments.FilterCompaniesSpec | src/pages/ManagePayments.tsx:62-70 | a blank search lists every company; otherwise exactly the companies whose name or GST number contains the trimmed, lowercased term, in order |
| ManagePayments.CommasIgnored | src/pages/ManagePayments.tsx:170 | commas anywhere in the typed amount do not change how it is read |
| ManagePayments.SeparatorDropped | src/pages/ManagePayments.tsx:170 | a comma between two runs of digits is dropped, so "1,500" reads as "1500" |
| ManagePayments.HandleRecordPayment | src/pages/ManagePayments.tsx:168-225 | does nothing without a user or a selected company; otherwise checks the amount against the selected company's balance; a refusal writes nothing; an accepted payment is journalled iff the insert succeeds and written as the balance (with a fresh stamp) iff the update succeeds too; only when both succeed is the new balance shown for that company only and the selection cleared |
| ManagePayments.HandleDeletePayment | src/pages/ManagePayments.tsx:232-292 | does nothing without a user or the confirmation; nothing is written when the balance cannot be read; otherwise the entry is deleted iff the delete succeeds, and the balance set to current + amount, with no clamp, iff the update succeeds too; once the entry is deleted the list shows the restored balance even when the update failed |
| ManagePayments.GroupByCompany | src/pages/ManagePayments.tsx:148-153 | every payment lands in the group of its company and in no other, and each group keeps journal order |
| SalesReport.BalanceDue | src/pages/SalesReport.tsx:399 | the balance due is never negative; it is the total minus what was received while that is not more than the total, and 0 otherwise (shown again at line 1492) |
| SalesReport.AverageSpec | src/pages/SalesReport.tsx:462-463 | the average order value is 0 without invoices; otherwise it times the number of invoices is the revenue, and it lies within any bounds on the totals |
| SalesReport.BucketIsFilterSum | src/pages/SalesReport.tsx:480-487 | a month's bucket holds the sum of that month's totals and the number of its invoices |
| SalesReport.Tally | src/pages/SalesReport.tsx:480-514 | the dictionary filled by the `reduce` has a bucket for exactly the keys that occur, each the bucket of that key's invoices, and its keys in the order first met |
| SalesReport.MonthlyMap | src/pages/SalesReport.tsx:480-500 | a month has an entry exactly when some invoice falls in it, and the revenue read for any month is the total of its invoices, 0 for a month without invoices |
| SalesReport.LastMonth | src/pages/SalesReport.tsx:477-478 | the month before is one month earlier, across a year boundary too |
| SalesReport.GrowthSpec | src/pages/SalesReport.tsx:501-503 | growth is the percentage change when last month had revenue, 100 when only this month has and 0 when neither has; it is positive exactly when this month beat last month, negative exactly when it fell short, and never below -100 |
| SalesReport.TopOfEntries | src/pages/SalesReport.tsx:516-517 | the first five after the descending sort are at most five, in descending order, taken from the table, with distinct names, and none smaller than an entry left out |
| SalesReport.TopOfTable | src/pages/SalesReport.tsx:509-517 | the top five of the revenue table are customers with their true revenue, in descending order, none twice, and every customer left out earned no more than any shown |
| SalesReport.TopCompanies | src/pages/SalesReport.tsx:509-517 | the result is the first five of the per-name revenue entries (`'Unknown'` without a name) sorted by descending revenue: five entries, or one per customer name when there are fewer; in descending order, each with its true revenue, no name twice, and no customer left out earned more than one shown |
| SalesReport.MainInsights | src/pages/SalesReport.tsx:709-710 | at most four cards are shown before "more insights" |
| SalesReport.InsightOrder | src/pages/SalesReport.tsx:703-707 | sorting the cards keeps the same cards, puts warnings first, then successes, then the rest, keeps the insertion order within one priority, and shows a warning first whenever there is one |
| SalesReport.GrowthInsightSpec | src/pages/SalesReport.tsx:583-597 | the growth card is a success exactly when this month beat last month, a warning exactly when it fell short, and absent when they are equal |
| SalesReport.ReportPage.constructor | src/pages/SalesReport.tsx:70-107 | the page starts with the loaded customers, none selected, and empty invoice and payment lists |
| SalesReport.ReportPage.DeleteInvoice | src/pages/SalesReport.tsx:1378-1469 | nothing happens without a user, a selected customer and the confirmation; otherwise the balance read is lowered by the invoice total, never below 0, in the store iff the read and the write succeed, and the invoice and its lines leave the store iff the delete succeeds too; only then is the invoice dropped from both lists and the customer shown with the new balance |
| SalesReport.ReportPage.RecordPayment | src/pages/SalesReport.tsx:1647-1739 | nothing happens without a user and a selected customer; the typed amount must be positive and no more than the balance shown; an accepted payment is journalled with the old and new balance iff the insert succeeds and written to the customer iff the update succeeds too; only then is the new balance shown and the payment put at the head of the payment list |
| MockData.SetPendingInSpec | src/pages/ManagePayments.tsx:208-214 | a balance change keeps every id, so unique ids stay unique; a list without the company is unchanged; every entry of the company shows the new balance and stamp; applying it twice equals applying it once |
| MockData.LastTwo | src/data/mockData.ts:96 | `slice(-2)` keeps two characters, or all of them when there are fewer |
| MockData.SerialRange | src/data/mockData.ts:98 | the serial floor(r × 9999) lies in 0..9998 for r in [0, 1) |
| MockData.ParseAssembled | src/data/mockData.ts:99 | "INV/" + YY + MM + "/" + NNNN has 13 characters and exactly two '/', and reads back as its three numbers |
| MockData.FormatRoundTrip | src/data/mockData.ts:96-99 | the formatted number of a year with at least two digits, a month below 100 and a serial below 10000 reads back as (year mod 100, month, serial) |
| MockData.InvoiceNumberRoundTrip | src/data/mockData.ts:94-100 | the generated number has 13 characters and exactly two '/', and reads back as (year mod 100, month + 1, floor(r × 9999)), with the month in 1..12 and the serial at most 9998 |
| DateUtils.NormalizeTimestamp | src/lib/dateUtils.ts:44-51 | the text handed to `new Date` always ends in a time zone: 'Z', ±HH:MM or ±HHMM |
| DateUtils.ToDateCases | src/lib/dateUtils.ts:42-52 | a `Date` is passed through unchanged; a string is normalised before it is parsed |
| DateUtils.NormalizeIgnoresPadding | src/lib/dateUtils.ts:44 | white space around the string makes no difference |
| DateUtils.NormalizeKeepsZoned | src/lib/dateUtils.ts:46-48 | a trimmed string that already ends in 'Z', ±HH:MM or ±HHMM is parsed as written, with no suffix added |
| DateUtils.NormalizeAppendsUtc | src/lib/dateUtils.ts:51 | without a zone, "Z" is appended; the only other change is that the first ' ' becomes 'T' when there is no 'T' |
| DateUtils.NormalizeIdempotent | src/lib/dateUtils.ts:44-51 | normalising twice is the same as normalising once |
| DateUtils.MissingDateShowsPlaceholder | src/lib/dateUtils.ts:55-56 | `null` and `undefined` show "—" in every style |
| DateUtils.InvalidDateShowsPlaceholder | src/lib/dateUtils.ts:57-95 | a date whose time value is NaN shows "—" in every style |
| DateUtils.ValidDateRendered | src/lib/dateUtils.ts:43-59 | a valid `Date` object is rendered from its own time value, without going through a string |
| JunkCustomers.CeilDiv | src/pages/JunkCustomers.tsx:136 | `Math.ceil(x / d)` is the least whole number whose multiple of d reaches x |
| JunkCustomers.DaysUntilPurge | src/pages/JunkCustomers.tsx:132-138 | the days left are 0 or more, and 0 exactly once the 30 days have passed; a deletion time that does not parse gives no count |
| JunkCustomers.DaysAtDeletion | src/pages/JunkCustomers.tsx:135-137 | a customer deleted just now has 30 days left, and a day later 29 |
| JunkCustomers.DaysMonotone | src/pages/JunkCustomers.tsx:132-138 | the count never rises as time passes, and is at most 30 after the deletion |
| JunkCustomers.PurgeOfferedSpec | src/pages/JunkCustomers.tsx:223 | "Delete forever" is offered exactly once 30 days have passed since the deletion, and the count shown is then 0 |
| JunkCustomers.WithoutId | src/pages/JunkCustomers.tsx:91-124 | the list without the customer holds every other customer, in the same order |
| JunkCustomers.JunkPage.Restore | src/pages/JunkCustomers.tsx:97-128 | without a user or on a store error nothing changes; otherwise the customer is no longer deleted, keeps its balance, stamp, invoices, lines and payments, and leaves the list |
| JunkCustomers.JunkPage.PermanentDelete | src/pages/JunkCustomers.tsx:70-95 | nothing happens without a user, without confirmation or on a store error; otherwise only a soft-deleted customer is removed, together with its invoices, their lines and its payments, a customer that is not soft-deleted keeps everything, and it leaves the list either way |
| CustomerStep.FilterCompaniesSpec | src/pages/CustomerStep.tsx:65-71 | a blank search lists every company; otherwise exactly the companies whose lowercased name contains the trimmed, lowercased term, in the page's order |
| CustomerStep.DownIndex | src/pages/CustomerStep.tsx:310-312 | ArrowDown moves one row down but never past the last row, and gives 0 when nothing is listed |
| CustomerStep.UpIndex | src/pages/CustomerStep.tsx:317 | ArrowUp moves one row up but never above the first row |
| CustomerStep.ArrowsStayInRange | src/pages/CustomerStep.tsx:308-318 | from a listed row, both arrows land on a listed row |
| CustomerStep.ArrowsUndo | src/pages/CustomerStep.tsx:308-318 | ArrowUp undoes ArrowDown from any row above the last, and ArrowDown undoes ArrowUp from any row below the first |
| CustomerStep.Target | src/pages/CustomerStep.tsx:301-322 | Enter chooses the highlighted row, the first row when the highlight is off the list, and nothing for an empty list; what it chooses is always listed |
| CustomerStep.ReplaceCompanySpec | src/pages/CustomerStep.tsx:84-86 | an edit changes only the rows with the edited id, keeps every id and so their uniqueness, and saving the same edit twice is saving it once |
| CustomerStep.WithoutCompany | src/pages/CustomerStep.tsx:127 | the list after a delete holds every other company, in the same order |
| CustomerStep.SavedRowSpec | src/pages/CustomerStep.tsx:173-210 | a saved company carries the store's id, the given name, address, balance, phone and email, 'N/A' for the GST number, and a non-blank state and state code, 'Maharashtra' and '27' when the given ones are blank |
| CustomerStep.CustomerPage.constructor | src/pages/CustomerStep.tsx:18-20 | the page starts with the given companies, an empty search and the first row highlighted |
| CustomerStep.CustomerPage.Type | src/pages/CustomerStep.tsx:294-297 | typing replaces the search text and highlights the first row |
| CustomerStep.CustomerPage.KeepHighlight | src/pages/CustomerStep.tsx:73-76 | after the results change, the highlight is on a listed row, or 0 when nothing is listed |
| CustomerStep.CustomerPage.KeyDown | src/pages/CustomerStep.tsx:298-325 | Enter chooses the target row when there is one; Shift+Enter also moves on when a company was chosen before the key, because `goNext` reads the company of the last render; the arrows move the highlight; other keys do nothing (`goNext` at lines 227-235) |
| CustomerStep.CustomerPage.SaveEdited | src/pages/CustomerStep.tsx:82-117 | the list always shows the edit, the chosen company is replaced when it is the one edited, and the stored balance is overwritten only with a user and no store error; no stamp, invoice, line or payment changes |
| CustomerStep.CustomerPage.DeleteCompany | src/pages/CustomerStep.tsx:119-158 | nothing happens without the confirmation; otherwise the company leaves the list, the choice is cleared when it was the chosen one, and the company is moved to Junk only with a user and no store error; no balance, stamp, invoice, line or payment changes |
| CustomerStep.CustomerPage.AddCompany | src/pages/CustomerStep.tsx:160-225 | the new company is appended and chosen: the row read back when the store inserted it, whose balance and stamp (the given one in ISO form, or none) the store then holds under the new id, and otherwise the company as given; no invoice, line or payment changes |
| AddCompanyDialog.BlankBalanceIsZero | src/components/AddCompanyDialog.tsx:32-34 | a blank balance is read as 0, the same value `Number` gives for it |
| AddCompanyDialog.ErrorsFor | src/components/AddCompanyDialog.tsx:27-38 | there is one error per failed check, with that check's message, and no other; no error means every check passed |
| AddCompanyDialog.CollectErrors | src/components/AddCompanyDialog.tsx:27-38 | filling the errors one check at a time gives exactly the errors of the three checks |
| AddCompanyDialog.ValidationSpec | src/components/AddCompanyDialog.tsx:29-40 | a form passes exactly when its name and phone are not blank and its balance is a number, 0 or more; each error appears exactly when its check fails |
| AddCompanyDialog.NewCompanySpec | src/components/AddCompanyDialog.tsx:45-55 | the new company has the trimmed fields, a non-empty name and phone, no email when the email is blank, the parsed balance, and Maharashtra with state code 27 |
| AddCompanyDialog.EmptyFormRejected | src/components/AddCompanyDialog.tsx:16-38 | submitting the empty form shows the name and phone errors and no balance error |
| AddCompanyDialog.Type | src/components/AddCompanyDialog.tsx:98-151 | typing a name or a phone blanks that field's error; the other fields leave the errors alone |
| AddCompanyDialog.Submit | src/components/AddCompanyDialog.tsx:25-66 | with any error the errors are shown and nothing is handed over; otherwise the new company is handed over, and the form is cleared and the dialog closed |
| EditCompanyDialog.EditedSpec | src/components/EditCompanyDialog.tsx:63-70 | an edit keeps the id, GST number, state, state code and last transaction, and sets the trimmed name, phone, address and email and the parsed balance |
| EditCompanyDialog.PrefillRoundTrip | src/components/EditCompanyDialog.tsx:30-70 | saving the prefilled form unchanged passes validation and hands back the same company, when its fields are already trimmed and its balance is a whole number of paise, 0 or more |
| EditCompanyDialog.Submit | src/components/EditCompanyDialog.tsx:41-80 | without a company nothing happens; with any error the errors are shown and nothing is saved; otherwise the edited company is saved and the dialog closes |
| GstLookup.FilterCompaniesSpec | src/components/GstLookup.tsx:21-24 | a company is listed exactly when its lowercased name or GST number contains the lowercased term, in the given order; the empty term lists them all |
| GstLookup.ArrowsStayInRange | src/components/GstLookup.tsx:72-79 | from a row or from none, the arrows never leave the rows or go below -1 |
| GstLookup.EnterPicksListed | src/components/GstLookup.tsx:70-83 | with a non-empty list and a highlight on a row or on none, Enter always hands over a listed company |
| GstLookup.Lookup.constructor | src/components/GstLookup.tsx:17-19 | the box starts empty, closed and with no highlight |
| GstLookup.Lookup.Change | src/components/GstLookup.tsx:57-61 | typing replaces the text, opens the dropdown and removes the highlight |
| GstLookup.Lookup.Focus | src/components/GstLookup.tsx:62 | focusing opens the dropdown and changes nothing else |
| GstLookup.Lookup.Select | src/components/GstLookup.tsx:26-31 | the company is handed over, and the text, the dropdown and the highlight are cleared |
| GstLookup.Lookup.Clear | src/components/GstLookup.tsx:33-38 | `null` is handed over, and the text, the dropdown and the highlight are cleared |
| GstLookup.Lookup.KeyDown | src/components/GstLookup.tsx:63-85 | Escape closes the dropdown; any other key does nothing unless the dropdown is open, the text is not empty and something matches; then the arrows move the highlight and Enter hands over the chosen company |

## Left out

- Database calls are not modelled as network operations. What a write does is a change of `Ledger` state. Which checked call reports an error is a parameter: a `StoreReply` (all calls succeed, or call k fails and no later call is made) for the handlers that make several calls, and a `failed` flag or an outcome value for those that make one call.
- `ReviewStep.SaveAndDownload`: the reads whose errors the source does not check (the balance before the save, read with `|| 0`) are modelled as answered from the ledger. In the source a failed read there gives 0.
- `CustomerLedger.Ledger.EditInvoice`: the read of the old total, whose error the source does not check, is modelled as answered from the ledger. In the source a failed read gives 0, so the balance would rise by the whole new total.
- `ManagePayments.HandleRecordPayment`: the reload of the payment journal after a success (`loadAllPayments`) is not modelled. The journal is the ledger's `payments` field.
- `ManagePayments.HandleDeletePayment`: the reload of the payment journal after a delete is not modelled, for the same reason.
- Concurrency is not modelled: two handlers never interleave their calls. Within one handler the dependent writes are not atomic in the source either; the methods make them in the order the handler issues them and keep the writes made before a failed call.
- Rendering, toasts, `alert`, `window.confirm` (a `confirmed` parameter), focus handling, charts, and the PDF/XLSX byte generation and download. Each is presentation or a foreign library.
- Busy-state spinners (`deletingId`, `restoringId`, `purgingId`) are not modelled. They only disable buttons.
- `Date.now()`, `new Date()`, `toISOString`, locale date rendering and `Math.random`. These are parameters: a clock reading, an `IsoStamp` function, or parse/render functions given to `DateUtils.Format`.
- The model reads `Number(text)` only for decimal literals: an optional sign, digits and an optional fraction, with surrounding white space trimmed. `None` stands for NaN. Exponents, hexadecimal, `Infinity` and IEEE-754 rounding are not modelled, because money is an exact `real`.
- `String(number)` is modelled as a decimal rendering with a bounded fraction. It is exact for amounts in whole paise, which are the only ones the prefill round trip needs.
- Dialog and page state is modelled as values, or as small classes where the handlers assign fields. React's batching of state updates is not modelled.
- The CustomerStep highlight effect runs after a render in the app. The model runs it as an explicit `KeepHighlight` call.
- The window-level Shift+Enter listener of the customer step is not modelled separately. It reads the same pre-key company as the box's handler, so it reaches the same decision.
- Authentication, routing, layout shells, the settings and inventory pages.
- `AmountWords.NumberToWordsAsWritten`: from 10^9 rupees the source reads past the end of `tens`. The model reproduces this literally ("undefined") instead of treating it as a precondition.
- `EditCompanyDialog.PrefillRoundTrip`: proved only for companies whose fields are already trimmed and whose balance is whole paise, 0 or more. Other companies change on a save without edits, as the source's trimming and `Number` parsing imply.
- `CustomerStep.CustomerPage.SaveEdited`: requires a non-negative balance, as the edit dialog guarantees; the store's own balances are never negative.
- `CustomerStep.CustomerPage.AddCompany`: requires a non-negative balance, as the add dialog guarantees.
- `ItemsStep.ConfirmAddItem`: the guard that returns when no item dialog is open is not modelled. The method is the confirmed add.
- `ItemsStep.ConfirmEditItem`: the guard that returns when no edit dialog is open is not modelled. The method is the confirmed edit.
- `EditInvoice.HandleSearch`: the catch-all "An error occurred" message for an exception thrown by the client library is not modelled.
- `MockData.InvoiceNumberRoundTrip`: does not cover years below 10. There `slice(-2)` keeps a single digit and the number has 12 characters.
- `ItemsStep.FilterInventorySpec`: `toLowerCase` is modelled by `Text.ToLower`, which folds the ASCII letters A–Z only. Other Unicode letters are not folded, so a search differing from a name only in a non-ASCII letter's case is a miss in the model.
- `History.SearchSpec`: the same ASCII-only lowercasing as `ItemsStep.FilterInventorySpec`.
- `ManagePayments.FilterCompaniesSpec`: the same ASCII-only lowercasing as `ItemsStep.FilterInventorySpec`.
- `CustomerStep.FilterCompaniesSpec`: the same ASCII-only lowercasing as `ItemsStep.FilterInventorySpec`.
- `GstLookup.FilterCompaniesSpec`: the same ASCII-only lowercasing as `ItemsStep.FilterInventorySpec`.
- `AddCompanyDialog.NewCompany`: the absent GST number of a new company is the empty string, because `Company.gstNo` is a string in the model.

## Findings

| source | as written | input that shows it | evidently intended | confidence | as-written member | corrected member |
|---|---|---|---|---|---|---|
| src/components/InvoicePdf.tsx:498-502 | `threeDigits` joins an empty hundreds part with a space, so any amount whose last three digits have no hundreds gets a doubled (or leading) space | 42 prints "INR  Forty Two Only"; 1005 prints "INR One Thousand  Five Only" | words separated by single spaces | not executed | AmountWords.NumberToWordsAsWritten, AmountWords.DoubleSpaceAsWritten | AmountWords.NumberToWords, AmountWords.WordsTidy |
