/**
 * The invoice wizard's store: the cart, the chosen customer, the invoice
 * options and the editing mode (the id and number of the invoice being
 * edited). Each action replaces the fields it names and no others; `State`
 * is the snapshot the actions are specified on.
 */
module WizardStore {
  import opened Wrappers
  import opened MockData

  /** The options of the "options" step. */
  datatype InvoiceOptions = InvoiceOptions(
    paymentTerms: string,
    dueDate: string,
    notes: string,
    transportMode: string,
    vehicleNo: string)

  /** `createDefaultOptions`, for the date 30 days from now written as `YYYY-MM-DD` (`due30`, read from the clock). */
  function DefaultOptions(due30: string): InvoiceOptions {
    InvoiceOptions("30days", due30, "", "road", "")
  }

  /** A snapshot of the store's fields. */
  datatype WizardState = WizardState(
    items: seq<InvoiceItem>,
    company: Option<Company>,
    options: InvoiceOptions,
    editingId: Option<string>,
    editingNumber: Option<string>)

  /** The state the store starts in and `reset` returns to. */
  function Initial(due30: string): WizardState {
    WizardState([], None, DefaultOptions(due30), None, None)
  }

  /** The editing id and number are set together and cleared together. */
  predicate EditingPaired(s: WizardState) {
    s.editingId.Some? == s.editingNumber.Some?
  }

  function SetItemsAction(s: WizardState, items: seq<InvoiceItem>): WizardState {
    s.(items := items)
  }

  function SetCompanyAction(s: WizardState, company: Option<Company>): WizardState {
    s.(company := company)
  }

  function SetOptionsAction(s: WizardState, options: InvoiceOptions): WizardState {
    s.(options := options)
  }

  function SetEditingAction(s: WizardState, id: string, number: string): WizardState {
    s.(editingId := Some(id), editingNumber := Some(number))
  }

  function ClearEditingAction(s: WizardState): WizardState {
    s.(editingId := None, editingNumber := None)
  }

  function ResetAction(s: WizardState, due30: string): WizardState {
    Initial(due30)
  }

  /** The store starts with an empty cart, no customer and no editing mode. */
  lemma InitialIsEmpty(due30: string)
    ensures var s := Initial(due30);
      s.items == [] && s.company.None? && s.editingId.None? && s.editingNumber.None? && EditingPaired(s)
  {
  }

  /** Every action keeps the editing id and number paired. */
  lemma ActionsKeepPairing(s: WizardState, items: seq<InvoiceItem>, company: Option<Company>, options: InvoiceOptions, id: string, number: string, due30: string)
    requires EditingPaired(s)
    ensures EditingPaired(SetItemsAction(s, items))
    ensures EditingPaired(SetCompanyAction(s, company))
    ensures EditingPaired(SetOptionsAction(s, options))
    ensures EditingPaired(SetEditingAction(s, id, number))
    ensures EditingPaired(ClearEditingAction(s))
    ensures EditingPaired(ResetAction(s, due30))
  {
  }

  /** `reset` forgets everything: the state after it does not depend on the state before, so resetting twice is resetting once. */
  lemma ResetIdempotent(s: WizardState, t: WizardState, due30: string)
    ensures ResetAction(s, due30) == ResetAction(t, due30)
    ensures ResetAction(ResetAction(s, due30), due30) == ResetAction(s, due30)
  {
  }

  /** `clearEditing` leaves the cart, the customer and the options alone and undoes any `setEditing`. */
  lemma ClearEditingKeepsCart(s: WizardState, id: string, number: string)
    ensures var r := ClearEditingAction(s);
      r.items == s.items && r.company == s.company && r.options == s.options
      && r.editingId.None? && r.editingNumber.None?
    ensures ClearEditingAction(SetEditingAction(s, id, number)) == ClearEditingAction(s)
  {
  }

  /** The cart and customer setters and `setEditing` commute: each writes a field the others do not touch. */
  lemma SettersIndependent(s: WizardState, items: seq<InvoiceItem>, company: Option<Company>, id: string, number: string)
    ensures SetItemsAction(SetCompanyAction(s, company), items) == SetCompanyAction(SetItemsAction(s, items), company)
    ensures SetItemsAction(SetEditingAction(s, id, number), items) == SetEditingAction(SetItemsAction(s, items), id, number)
    ensures SetItemsAction(s, items).company == s.company && SetCompanyAction(s, company).items == s.items
  {
  }

  /** The store. */
  class Wizard {
    var items: seq<InvoiceItem>
    var company: Option<Company>
    var options: InvoiceOptions
    var editingId: Option<string>
    var editingNumber: Option<string>

    function State(): WizardState
      reads this
    {
      WizardState(items, company, options, editingId, editingNumber)
    }

    ghost predicate Valid()
      reads this
    {
      EditingPaired(State())
    }

    constructor(due30: string)
      ensures Valid() && State() == Initial(due30)
    {
      items := [];
      company := None;
      options := DefaultOptions(due30);
      editingId := None;
      editingNumber := None;
    }

    method SetItems(xs: seq<InvoiceItem>)
      requires Valid()
      modifies this
      ensures Valid() && State() == SetItemsAction(old(State()), xs)
    {
      items := xs;
    }

    method SetCompany(c: Option<Company>)
      requires Valid()
      modifies this
      ensures Valid() && State() == SetCompanyAction(old(State()), c)
    {
      company := c;
    }

    method SetOptions(o: InvoiceOptions)
      requires Valid()
      modifies this
      ensures Valid() && State() == SetOptionsAction(old(State()), o)
    {
      options := o;
    }

    method SetEditing(id: string, number: string)
      requires Valid()
      modifies this
      ensures Valid() && State() == SetEditingAction(old(State()), id, number)
    {
      editingId := Some(id);
      editingNumber := Some(number);
    }

    method ClearEditing()
      requires Valid()
      modifies this
      ensures Valid() && State() == ClearEditingAction(old(State()))
    {
      editingId := None;
      editingNumber := None;
    }

    method Reset(due30: string)
      requires Valid()
      modifies this
      ensures Valid() && State() == ResetAction(old(State()), due30)
    {
      items := [];
      company := None;
      options := DefaultOptions(due30);
      editingId := None;
      editingNumber := None;
    }
  }
}
