/**
 * Finding an invoice to edit by its number, and loading a stored invoice
 * back into the wizard: its customer, its lines as cart lines, and the
 * editing mode with its id and number. The history page loads an invoice
 * with the same line mapping.
 */
module EditInvoice {
  import opened Wrappers
  import opened Text
  import opened JsNumber
  import opened MockData
  import opened WizardStore

  // ---------------------------------------------------------------- search

  const EnterNumberMessage: string := "Please enter an invoice number."
  const LogInMessage: string := "Please log in first."
  const NotFoundMessage: string := "Invoice not found. Check the number and try again."

  /** Where `handleSearch` ends: an error message (no invoice shown), or the invoice found. */
  datatype SearchOutcome<T> = SearchError(message: string) | Found(invoice: T)

  /** Whether the lookup ran: a blank term or no user stops before any query. */
  predicate Queries(searchTerm: string, loggedIn: bool) {
    !IsBlank(searchTerm) && loggedIn
  }

  /**
   * `handleSearch` for the typed term, whether a user is logged in, and what
   * the lookup (the latest invoice whose number contains the trimmed term)
   * returned: `None` for an error or no row. A failed lookup is reported,
   * never raised.
   */
  function HandleSearch<T>(searchTerm: string, loggedIn: bool, lookup: Option<T>): (o: SearchOutcome<T>)
    ensures IsBlank(searchTerm) ==> o == SearchError(EnterNumberMessage)
    ensures !IsBlank(searchTerm) && !loggedIn ==> o == SearchError(LogInMessage)
    ensures Queries(searchTerm, loggedIn) && lookup.None? ==> o == SearchError(NotFoundMessage)
    ensures o.Found? <==> Queries(searchTerm, loggedIn) && lookup.Some?
    ensures o.Found? ==> o.invoice == lookup.value
  {
    var term := Trim(searchTerm);
    if term == "" then SearchError(EnterNumberMessage)
    else if !loggedIn then SearchError(LogInMessage)
    else match lookup
      case None => SearchError(NotFoundMessage)
      case Some(inv) => Found(inv)
  }

  // ---------------------------------------------------------------- stored invoice to cart

  /** A JavaScript `a || b` on optional strings: the first one that is set and not empty. */
  function OrElse(a: Option<string>, b: string): (r: string)
    ensures a.Some? && a.value != "" ==> r == a.value
    ensures (a.None? || a.value == "") ==> r == b
  {
    if a.Some? && a.value != "" then a.value else b
  }

  /** `Number(v) || 1`: a stored 0, null or NaN becomes 1. */
  function OrOne(v: Option<real>): (r: real)
    ensures r != 0.0
    ensures v.Some? && v.value != 0.0 ==> r == v.value
  {
    if v.Some? && v.value != 0.0 then v.value else 1.0
  }

  /** A stored line with the inventory item it points to, as the lookup returns it (`None` for null, and for NaN numbers). */
  datatype StoredLine = StoredLine(
    id: string,
    inventoryItemId: Option<string>,
    itemName: Option<string>,
    itemHsn: Option<string>,
    itemUnit: Option<string>,
    unitPrice: Option<real>,
    quantity: Option<real>,
    discount: Option<real>,
    taxRate: Option<real>,
    inventoryName: Option<string>,
    inventoryHsn: Option<string>,
    inventoryUnit: Option<string>)

  /** The stored customer as the lookup returns it. */
  datatype StoredCompany = StoredCompany(
    id: string,
    name: string,
    gstNo: Option<string>,
    address: Option<string>,
    state: Option<string>,
    stateCode: Option<string>,
    pendingAmount: Option<real>,
    lastTransaction: Option<string>,
    phone: Option<string>,
    email: Option<string>)

  datatype StoredInvoice = StoredInvoice(id: string, number: string, company: Option<StoredCompany>, lines: seq<StoredLine>)

  /** The cart line for stored line `li` at position `idx`; `now` is the clock reading in the made-up item id. */
  function ToCartLine(li: StoredLine, idx: nat, now: string): InvoiceItem {
    var inv := InventoryItem(
      OrElse(li.inventoryItemId, "edit-" + now + "-" + NatDigits(idx)),
      OrElse(li.itemName, OrElse(li.inventoryName, "Item")),
      OrElse(li.itemHsn, OrElse(li.inventoryHsn, "")),
      OrZero(li.unitPrice),
      9999.0,
      OrElse(li.itemUnit, OrElse(li.inventoryUnit, "pcs")),
      OrZero(li.taxRate),
      Some(""));
    InvoiceItem("edit-item-" + li.id, inv, OrOne(li.quantity), OrZero(li.discount), None, None)
  }

  function ToCartLines(lines: seq<StoredLine>, now: string): (r: seq<InvoiceItem>)
    ensures |r| == |lines|
    ensures forall i :: 0 <= i < |lines| ==> r[i] == ToCartLine(lines[i], i, now)
  {
    seq(|lines|, i requires 0 <= i < |lines| => ToCartLine(lines[i], i, now))
  }

  /**
   * Every cart line loaded for editing has a non-zero quantity (the stored
   * one, or 1), the stored discount or 0, the stored price or 0, a stock of
   * 9999 and no box fields; its item id is the stored inventory id, or
   * starts with "edit-" when there is none; its own id is "edit-item-" and
   * the stored line's id.
   */
  lemma CartLineDefaults(li: StoredLine, idx: nat, now: string)
    ensures var c := ToCartLine(li, idx, now);
      && c.quantity != 0.0
      && (li.quantity.Some? && li.quantity.value != 0.0 ==> c.quantity == li.quantity.value)
      && (li.quantity.None? || li.quantity.value == 0.0 ==> c.quantity == 1.0)
      && c.discount == OrZero(li.discount) && c.item.rate == OrZero(li.unitPrice)
      && c.item.stock == 9999.0 && c.boxes.None? && c.itemsPerBox.None?
      && (li.inventoryItemId.Some? && li.inventoryItemId.value != "" ==> c.item.id == li.inventoryItemId.value)
      && (li.inventoryItemId.None? || li.inventoryItemId.value == "" ==> StartsWith(c.item.id, "edit-"))
      && StartsWith(c.id, "edit-item-")
  {
    PrefixStarts("edit-item-", li.id);
    PrefixStarts("edit-", now + "-" + NatDigits(idx));
    assert "edit-" + now + "-" + NatDigits(idx) == "edit-" + (now + "-" + NatDigits(idx));
  }

  /** The wizard's customer for an edit: gst number 'N/A', address, state and code '' and pending 0 when missing. */
  function ToCompany(comp: StoredCompany): Company {
    Company(comp.id, comp.name, OrElse(comp.gstNo, "N/A"), OrElse(comp.address, ""), OrElse(comp.state, ""),
      OrElse(comp.stateCode, ""), OrZero(comp.pendingAmount), comp.lastTransaction, comp.phone, comp.email)
  }

  /** The wizard after `handleEditInvoice` from the state before: reset, then the customer (if any), the lines and the editing mode. */
  function LoadedState(invoice: StoredInvoice, now: string, due30: string): WizardState {
    var s0 := Initial(due30);
    var s1 := if invoice.company.Some? then SetCompanyAction(s0, Some(ToCompany(invoice.company.value))) else s0;
    var s2 := SetItemsAction(s1, ToCartLines(invoice.lines, now));
    SetEditingAction(s2, invoice.id, invoice.number)
  }

  /**
   * Loading an invoice forgets whatever the wizard held: the state after it
   * depends only on the invoice; it is in edit mode for that invoice's id and
   * number, has one cart line per stored line, the default options, and the
   * stored customer's pending amount (0 when missing).
   */
  lemma LoadedStateSpec(invoice: StoredInvoice, now: string, due30: string)
    ensures var s := LoadedState(invoice, now, due30);
      && EditingPaired(s)
      && s.editingId == Some(invoice.id) && s.editingNumber == Some(invoice.number)
      && |s.items| == |invoice.lines|
      && s.options == DefaultOptions(due30)
      && (invoice.company.None? ==> s.company.None?)
      && (invoice.company.Some? ==> s.company == Some(ToCompany(invoice.company.value)))
      && (invoice.company.Some? ==> s.company.value.pendingAmount == OrZero(invoice.company.value.pendingAmount))
  {
  }

  /** `handleEditInvoice`: the wizard is reset before anything is loaded. */
  method HandleEditInvoice(w: Wizard, invoice: StoredInvoice, now: string, due30: string)
    requires w.Valid()
    modifies w
    ensures w.Valid()
    ensures w.State() == LoadedState(invoice, now, due30)
  {
    w.Reset(due30);
    if invoice.company.Some? {
      w.SetCompany(Some(ToCompany(invoice.company.value)));
    }
    w.SetItems(ToCartLines(invoice.lines, now));
    w.SetEditing(invoice.id, invoice.number);
  }
}
