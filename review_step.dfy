/**
 * The review step: the invoice and tax totals, the guard before saving,
 * the save itself (a new invoice, or an edit of the one the wizard is
 * editing) with its line-item rows, and the rows handed to the printed
 * invoice. After a save the wizard is reset.
 */
module ReviewStep {
  import opened Wrappers
  import opened Text
  import opened JsNumber
  import opened Seqs
  import opened MockData
  import opened InvoiceSummary
  import opened WizardStore
  import opened CustomerLedger
  import InvoicePdf

  // ---------------------------------------------------------------- totals

  /** A line's total: `rate * quantity * (1 - discount / 100)`. */
  function LineTotal(it: InvoiceItem): real {
    it.item.rate * it.quantity * (1.0 - it.discount / 100.0)
  }

  /** The invoice total: the sum of the line totals. */
  function InvoiceTotal(items: seq<InvoiceItem>): real {
    Sum(items, LineTotal)
  }

  /** A line's tax: its total times `gstRate / 100`. */
  function LineTax(it: InvoiceItem): real {
    LineTotal(it) * (it.item.gstRate / 100.0)
  }

  /** The invoice's tax amount. */
  function TaxAmount(items: seq<InvoiceItem>): real {
    Sum(items, LineTax)
  }

  /** The saved total is the summary's subtotal: both are the sum of `base - base * discount / 100`. */
  lemma InvoiceTotalIsSubtotal(items: seq<InvoiceItem>)
    ensures InvoiceTotal(items) == Subtotal(items)
  {
    forall i | 0 <= i < |items| ensures LineTotal(items[i]) == LineFinal(items[i]) {
      LineFinalFormula(items[i]);
    }
    SumCongruent(items, LineTotal, LineFinal);
  }

  /** Tax is never negative when no line total and no GST rate is. */
  lemma TaxNonNegative(items: seq<InvoiceItem>)
    requires forall i :: 0 <= i < |items| ==> LineTotal(items[i]) >= 0.0 && items[i].item.gstRate >= 0.0
    ensures TaxAmount(items) >= 0.0
  {
    forall i | 0 <= i < |items| ensures LineTax(items[i]) >= 0.0 {
      assert LineTotal(items[i]) >= 0.0 && items[i].item.gstRate / 100.0 >= 0.0;
    }
    SumNonNegative(items, LineTax);
  }

  // ---------------------------------------------------------------- persisted lines

  /** The item ids that do not name a stored inventory item: those made up on the client. */
  predicate IsLocalId(id: string) {
    StartsWith(id, "local-") || StartsWith(id, "edit-") || (id != "" && AllDigits(id))
  }

  /** The `invoice_line_items` row for a cart line. */
  function ToLineRow(invoiceId: string, it: InvoiceItem): LineRow {
    LineRow(
      invoiceId,
      if IsLocalId(it.item.id) then None else Some(it.item.id),
      it.item.name,
      if it.item.hsn != "" then Some(it.item.hsn) else None,
      it.item.unit,
      it.quantity,
      it.item.rate,
      it.discount,
      it.item.gstRate,
      LineTotal(it))
  }

  function ToLineRows(invoiceId: string, items: seq<InvoiceItem>): (r: seq<LineRow>)
    ensures |r| == |items|
    ensures forall i :: 0 <= i < |items| ==> r[i] == ToLineRow(invoiceId, items[i])
  {
    seq(|items|, i requires 0 <= i < |items| => ToLineRow(invoiceId, items[i]))
  }

  function RowTotal(l: LineRow): real {
    l.lineTotal
  }

  /**
   * The persisted rows belong to the invoice, one per cart line; a row has
   * no inventory item exactly when the cart line's item id was made up on
   * the client; and the rows' totals add up to the invoice's total.
   */
  lemma LineRowsSpec(invoiceId: string, items: seq<InvoiceItem>)
    ensures var rows := ToLineRows(invoiceId, items);
      && (forall i :: 0 <= i < |items| ==> rows[i].invoiceId == invoiceId)
      && (forall i :: 0 <= i < |items| ==> (rows[i].inventoryItemId.None? <==> IsLocalId(items[i].item.id)))
      && Sum(rows, RowTotal) == InvoiceTotal(items)
  {
    SumMapped(items, ToLineRows(invoiceId, items), LineTotal, RowTotal);
  }

  /** Item ids the edit screens make up ("edit-…") are never linked to an inventory item; a stored id with a letter and no such prefix is. */
  lemma LocalIds(suffix: string)
    ensures IsLocalId("edit-" + suffix) && IsLocalId("local-" + suffix)
    ensures !IsLocalId("inv-" + suffix)
  {
    assert ("edit-" + suffix)[..5] == "edit-";
    assert ("local-" + suffix)[..6] == "local-";
    var s := "inv-" + suffix;
    assert s[0] == 'i' && !IsDigit(s[0]);
    assert !StartsWith(s, "local-") by {
      if |s| >= 6 {
        assert s[..6][0] == 'i';
      }
    }
    assert !StartsWith(s, "edit-") by {
      if |s| >= 5 {
        assert s[..5][0] == 'i';
      }
    }
  }

  // ---------------------------------------------------------------- rows for the printed invoice

  /** `item.item.unit || 'pcs'`. */
  function UnitOrPcs(unit: string): string {
    if unit != "" then unit else "pcs"
  }

  /** The row handed to the printed invoice for the cart line at position `idx`. */
  function PdfItem(it: InvoiceItem, idx: nat): InvoicePdf.RawItem {
    InvoicePdf.RawItem(
      Some(idx + 1),
      Some(if it.item.name != "" then it.item.name else "Item"),
      Some(it.item.hsn),
      Some(NumberText(it.quantity) + " " + UnitOrPcs(it.item.unit)),
      Some(Round2(it.item.rate)),
      Some(UnitOrPcs(it.item.unit)),
      Some(Round2(LineTotal(it))),
      it.boxes,
      it.itemsPerBox)
  }

  function PdfItems(items: seq<InvoiceItem>): (r: seq<InvoicePdf.RawItem>)
    ensures |r| == |items|
    ensures forall i :: 0 <= i < |items| ==> r[i] == PdfItem(items[i], i)
  {
    seq(|items|, i requires 0 <= i < |items| => PdfItem(items[i], i))
  }

  /** A line's total rounded to paise, as the printed invoice shows it. */
  function RoundedLine(it: InvoiceItem): real {
    Round2(LineTotal(it))
  }

  /** Rounding each line to paise moves the sum by at most half a paisa per line. */
  lemma {:induction false} RoundedSumClose(items: seq<InvoiceItem>)
    ensures Sum(items, RoundedLine) - InvoiceTotal(items) <= 0.005 * |items| as real
    ensures InvoiceTotal(items) - Sum(items, RoundedLine) <= 0.005 * |items| as real
  {
    if items != [] {
      RoundedSumClose(items[1..]);
      Round2Spec(LineTotal(items[0]));
    }
  }

  /**
   * The printed rows are numbered from 1 and carry the rate and the line
   * total rounded to paise; the printed subtotal is the sum of the rounded
   * line totals, so it is within half a paisa per line of the saved total.
   */
  lemma PdfItemsSpec(items: seq<InvoiceItem>, previousBalance: real)
    ensures var rows := InvoicePdf.Normalize(PdfItems(items));
      && (forall i :: 0 <= i < |items| ==> rows[i].slNo == i + 1 && rows[i].rate == Round2(items[i].item.rate) && rows[i].amount == RoundedLine(items[i]))
      && var t := InvoicePdf.CalculateTotals(rows, previousBalance);
        && t.subtotal == Sum(items, RoundedLine)
        && t.subtotal - InvoiceTotal(items) <= 0.005 * |items| as real
        && InvoiceTotal(items) - t.subtotal <= 0.005 * |items| as real
  {
    var raw := PdfItems(items);
    var rows := InvoicePdf.Normalize(raw);
    forall i | 0 <= i < |items|
      ensures rows[i].slNo == i + 1 && rows[i].rate == Round2(items[i].item.rate) && rows[i].amount == RoundedLine(items[i])
    {
      Round2Idempotent(items[i].item.rate);
      Round2Idempotent(LineTotal(items[i]));
    }
    SumMapped(items, rows, RoundedLine, InvoicePdf.ItemAmount);
    InvoicePdf.TotalsOfNormalized(raw, previousBalance);
    RoundedSumClose(items);
  }

  // ---------------------------------------------------------------- saving

  /** How a click on "download" ends. */
  datatype SaveOutcome =
    | CustomerRequired
    | ItemsRequired
    | NotSaved
    | PdfFailed
    | Saved(invoiceNumber: string, editing: bool, pdfItems: seq<InvoicePdf.RawItem>, previousBalance: real)

  /** The number of store calls whose error the save checks: 3 for a new invoice, 4 for an edit. */
  function SaveCalls(editing: bool): nat {
    if editing then 4 else 3
  }

  /** `!!editingInvoiceId`: an empty id does not count as editing. */
  predicate IsEditing(s: WizardState) {
    s.editingId.Some? && s.editingId.value != ""
  }

  /** The number the saved invoice carries: the edited invoice's own (or '' when unknown), else a freshly generated one. */
  function NumberToSave(s: WizardState, generated: string): string {
    if IsEditing(s) then (if s.editingNumber.Some? then s.editingNumber.value else "") else generated
  }

  /** The edited invoice keeps its number; a new invoice takes the generated one. */
  lemma NumberToSaveSpec(s: WizardState, generated: string)
    requires EditingPaired(s)
    ensures IsEditing(s) ==> NumberToSave(s, generated) == s.editingNumber.value
    ensures !IsEditing(s) ==> NumberToSave(s, generated) == generated
  {
  }

  /**
   * The download button and its confirmation, ending in
   * `handleSaveAndDownload`: refused with nothing written when no customer
   * is chosen or the cart is empty. Otherwise the balance before is read;
   * when a user is logged in, a new invoice is created as 'sent' (id
   * `newId`, number `generated`) or the edited invoice is re-saved, and its
   * lines are written, as `Ledger.CreateInvoice` and `Ledger.EditInvoice`
   * do with the store's `reply`. A store error ends the save (`NotSaved`)
   * with what was written before it kept. Then the printed invoice gets the
   * rows and the balance before; when it cannot be made (`pdfMade` false)
   * the outcome is `PdfFailed`. Only a save that gets as far as the
   * download resets the wizard; after an error the cart and the customer
   * stay. `now` stamps the writes, `dueIso` is the due date 30 days ahead,
   * `due30` the same date for the fresh options.
   */
  method SaveAndDownload(l: Ledger, w: Wizard, loggedIn: bool, newId: string, generated: string, now: string, dueIso: string, due30: string,
                         reply: StoreReply, pdfMade: bool)
    returns (o: SaveOutcome)
    requires l.Valid() && w.Valid()
    modifies l, w
    ensures l.Valid() && w.Valid()
    ensures old(w.company).None? ==> o == CustomerRequired
    ensures old(w.company).Some? && old(w.items) == [] ==> o == ItemsRequired
    ensures var go := old(w.company).Some? && old(w.items) != [];
      var stored := !loggedIn || Succeeds(reply, SaveCalls(IsEditing(old(w.State()))));
      && (o.Saved? <==> go && stored && pdfMade)
      && (o.PdfFailed? <==> go && stored && !pdfMade)
      && (o.NotSaved? <==> go && !stored)
    ensures !o.Saved? ==> unchanged(w)
    ensures o.CustomerRequired? || o.ItemsRequired? || !loggedIn ==> unchanged(l)
    ensures o.Saved? ==> w.State() == Initial(due30)
    ensures o.Saved? ==> o.invoiceNumber == NumberToSave(old(w.State()), generated) && o.editing == IsEditing(old(w.State()))
    ensures o.Saved? ==> o.pdfItems == PdfItems(old(w.items)) && o.previousBalance == old(l.PendingOf(w.company.value.id))
    ensures old(w.company).Some? && old(w.items) != [] && loggedIn ==>
      var c := old(w.company.value.id);
      var p := old(l.PendingOf(c));
      var total := InvoiceTotal(old(w.items));
      var editing := IsEditing(old(w.State()));
      var balanceCall := if editing then 3 else 2;
      var next := if editing then EditPending(p, TotalOf(old(l.invoices), old(w.editingId.value)), total) else CreatePending(p, total);
      && l.payments == old(l.payments) && l.deletedAt == old(l.deletedAt)
      && l.pending == (if Succeeds(reply, balanceCall) && c in old(l.pending) then old(l.pending)[c := next] else old(l.pending))
      && l.lastTransaction == (if Succeeds(reply, balanceCall) && c in old(l.pending) then old(l.lastTransaction)[c := now] else old(l.lastTransaction))
    ensures old(w.company).Some? && old(w.items) != [] && loggedIn && !IsEditing(old(w.State())) ==>
      var row := InvoiceRow(newId, old(w.company.value.id), generated, InvoiceTotal(old(w.items)), TaxAmount(old(w.items)), 0.0, Sent, Some(dueIso), now);
      && l.invoices == old(l.invoices) + (if Succeeds(reply, 1) then [row] else [])
      && l.lines == old(l.lines) + (if Succeeds(reply, 3) then ToLineRows(newId, old(w.items)) else [])
    ensures old(w.company).Some? && old(w.items) != [] && loggedIn && IsEditing(old(w.State())) ==>
      var id := old(w.editingId.value);
      && l.invoices == (if Succeeds(reply, 1) then ResaveRows(old(l.invoices), id, old(w.company.value.id), InvoiceTotal(old(w.items)), TaxAmount(old(w.items)), now) else old(l.invoices))
      && l.lines == (if Succeeds(reply, 2) then Filter(old(l.lines), (r: LineRow) => r.invoiceId != id) + (if Succeeds(reply, 4) then ToLineRows(id, old(w.items)) else []) else old(l.lines))
  {
    if w.company.None? {
      return CustomerRequired;
    }
    if w.items == [] {
      return ItemsRequired;
    }
    var company := w.company.value;
    var items := w.items;
    var pendingBefore := l.PendingOf(company.id);
    var editing := IsEditing(w.State());
    var invoiceNumber := NumberToSave(w.State(), generated);
    if loggedIn {
      var totalAmount := InvoiceTotal(items);
      var taxAmount := TaxAmount(items);
      var saved;
      if editing {
        var id := w.editingId.value;
        saved := l.EditInvoice(id, company.id, totalAmount, taxAmount, pendingBefore, ToLineRows(id, items), now, reply);
      } else {
        saved := l.CreateInvoice(InvoiceRow(newId, company.id, invoiceNumber, totalAmount, taxAmount, 0.0, Sent, Some(dueIso), now), pendingBefore, ToLineRows(newId, items), now, reply);
      }
      if !saved {
        return NotSaved;
      }
    }
    if !pdfMade {
      return PdfFailed;
    }
    o := Saved(invoiceNumber, editing, PdfItems(items), pendingBefore);
    w.Reset(due30);
  }
}
