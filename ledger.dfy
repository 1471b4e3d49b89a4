/**
 * The customer ledger as the pages see it in the database: each company's
 * pending balance, its last-transaction stamp and soft-delete stamp, the
 * invoices with their line items, and the payment journal. The balance
 * rules every page repeats are stated once here as functions of the
 * balance read before the write; each page handler that writes the ledger
 * is a method of `Ledger` and keeps every pending balance non-negative.
 */
module CustomerLedger {
  import opened Wrappers
  import opened JsNumber
  import opened Seqs

  // ---------------------------------------------------------------- balance rules

  /** Saving a new invoice of total `t`: `max(0, p + t)`. */
  function CreatePending(p: real, t: real): (r: real)
    ensures r >= 0.0 && r >= p + t
    ensures p + t >= 0.0 ==> r == p + t
    ensures p + t < 0.0 ==> r == 0.0
  {
    Max(0.0, p + t)
  }

  /** Re-saving an invoice whose total goes from `oldTotal` to `newTotal`: `max(0, p + (newTotal - oldTotal))`. */
  function EditPending(p: real, oldTotal: real, newTotal: real): (r: real)
    ensures r >= 0.0 && r >= p + (newTotal - oldTotal)
    ensures p + (newTotal - oldTotal) >= 0.0 ==> r == p + (newTotal - oldTotal)
    ensures p + (newTotal - oldTotal) < 0.0 ==> r == 0.0
  {
    Max(0.0, p + (newTotal - oldTotal))
  }

  /** Deleting an invoice of total `t`: `max(0, p - t)`. */
  function DeletePending(p: real, t: real): (r: real)
    ensures r >= 0.0 && r >= p - t
    ensures p - t >= 0.0 ==> r == p - t
    ensures p - t < 0.0 ==> r == 0.0
  {
    Max(0.0, p - t)
  }

  /** Receiving a payment of `a`: `max(0, p - a)`. */
  function PaymentPending(p: real, a: real): (r: real)
    ensures r >= 0.0 && r >= p - a
    ensures a <= p ==> r == p - a
  {
    Max(0.0, p - a)
  }

  /** Deleting a payment of `a` puts it back on the balance, without a clamp. */
  function RestorePending(p: real, a: real): real {
    p + a
  }

  /** Creating an invoice and then deleting it restores a non-negative balance: no clamp fires either way for a non-negative total. */
  lemma CreateThenDelete(p: real, t: real)
    requires p >= 0.0 && t >= 0.0
    ensures DeletePending(CreatePending(p, t), t) == p
  {
  }

  /** Deleting an invoice whose total exceeds the balance loses the difference: creating it again does not give the old balance back. */
  lemma DeleteClampLoses(p: real, t: real)
    requires 0.0 <= p < t
    ensures DeletePending(p, t) == 0.0
    ensures CreatePending(DeletePending(p, t), t) == t && t != p
  {
  }

  /** Recording an accepted payment and then deleting it restores the balance exactly. */
  lemma PaymentThenRestore(p: real, a: real)
    requires 0.0 < a <= p
    ensures RestorePending(PaymentPending(p, a), a) == p
  {
  }

  /** Re-saving an invoice with an unchanged total leaves a non-negative balance unchanged. */
  lemma EditUnchanged(p: real, t: real)
    requires p >= 0.0
    ensures EditPending(p, t, t) == p
  {
  }

  /** While the old total is still covered by the balance, editing is deleting the old invoice and creating the new one. */
  lemma EditIsDeleteThenCreate(p: real, oldTotal: real, newTotal: real)
    requires p >= oldTotal
    ensures EditPending(p, oldTotal, newTotal) == CreatePending(DeletePending(p, oldTotal), newTotal)
  {
  }

  /** Two edits in a row without a clamp in between are one edit from the first total to the last. */
  lemma EditTwice(p: real, a: real, b: real, c: real)
    requires p + (b - a) >= 0.0
    ensures EditPending(EditPending(p, a, b), b, c) == EditPending(p, a, c)
  {
  }

  // ---------------------------------------------------------------- payment validation

  /** Why a payment was refused, or the balance pair it was journalled with. */
  datatype PaymentOutcome =
    | InvalidAmount
    | ExceedsPending
    | Recorded(previous: real, next: real)

  /**
   * The payment guard both payment handlers apply to the parsed amount
   * (`None` for NaN): it must be a positive number no larger than the
   * pending balance. An amount over the balance is refused, not clamped.
   */
  function CheckPayment(amount: Option<real>, pending: real): (o: PaymentOutcome)
    ensures o.InvalidAmount? <==> amount.None? || amount.value <= 0.0
    ensures o.ExceedsPending? <==> amount.Some? && 0.0 < amount.value && amount.value > pending
    ensures o.Recorded? <==> amount.Some? && 0.0 < amount.value <= pending
    ensures o.Recorded? ==> o.previous == pending && o.next == pending - amount.value && o.next >= 0.0
  {
    if amount.None? || amount.value <= 0.0 then InvalidAmount
    else if amount.value > pending then ExceedsPending
    else Recorded(pending, PaymentPending(pending, amount.value))
  }

  /** How a page's payment handler ends: it returns before the guard without a user or a selected company. */
  datatype RecordOutcome = Ignored | Checked(result: PaymentOutcome)

  // ---------------------------------------------------------------- stored rows

  datatype InvoiceStatus = Sent | Updated

  /** A row of `invoices`. */
  datatype InvoiceRow = InvoiceRow(
    id: string,
    companyId: string,
    number: string,
    total: real,
    tax: real,
    received: real,
    status: InvoiceStatus,
    dueDate: Option<string>,
    updatedAt: string)

  /** A row of `invoice_line_items`. */
  datatype LineRow = LineRow(
    invoiceId: string,
    inventoryItemId: Option<string>,
    name: string,
    hsn: Option<string>,
    unit: string,
    quantity: real,
    unitPrice: real,
    discount: real,
    taxRate: real,
    lineTotal: real)

  /** A row of `company_payments`: the amount and the balance before and after it. */
  datatype PaymentRow = PaymentRow(
    id: string,
    companyId: string,
    amount: real,
    previousBalance: real,
    newBalance: real,
    note: Option<string>)

  /** The row `inv` after an edit re-saves it for `companyId` with a new total and tax. */
  function Resaved(inv: InvoiceRow, companyId: string, total: real, tax: real, now: string): InvoiceRow {
    inv.(companyId := companyId, total := total, tax := tax, status := Updated, updatedAt := now)
  }

  /** The invoices with the row of id `id` re-saved. */
  function ResaveRows(rows: seq<InvoiceRow>, id: string, companyId: string, total: real, tax: real, now: string): (r: seq<InvoiceRow>)
    ensures |r| == |rows|
    ensures forall i :: 0 <= i < |rows| ==> r[i] == if rows[i].id == id then Resaved(rows[i], companyId, total, tax, now) else rows[i]
  {
    seq(|rows|, i requires 0 <= i < |rows| => if rows[i].id == id then Resaved(rows[i], companyId, total, tax, now) else rows[i])
  }

  /** `total_amount` of the invoice `id`, or 0 when there is none (`oldInvoice?.total_amount || 0`). */
  function TotalOf(rows: seq<InvoiceRow>, id: string): real {
    if rows == [] then 0.0
    else if rows[0].id == id then rows[0].total
    else TotalOf(rows[1..], id)
  }

  /** After a re-save, the total read for the invoice is the new total when it is stored; no other invoice's total moves. */
  lemma {:induction false} ResavedTotal(rows: seq<InvoiceRow>, id: string, companyId: string, total: real, tax: real, now: string, x: string)
    ensures (exists i :: i in rows && i.id == id) ==> TotalOf(ResaveRows(rows, id, companyId, total, tax, now), id) == total
    ensures x != id ==> TotalOf(ResaveRows(rows, id, companyId, total, tax, now), x) == TotalOf(rows, x)
  {
    if rows != [] {
      assert ResaveRows(rows, id, companyId, total, tax, now)[1..] == ResaveRows(rows[1..], id, companyId, total, tax, now);
      ResavedTotal(rows[1..], id, companyId, total, tax, now, x);
      if rows[0].id != id && (exists i :: i in rows && i.id == id) {
        var i :| i in rows && i.id == id;
        assert i in rows[1..];
      }
    }
  }

  /**
   * Re-saving keeps every row's id and is idempotent; afterwards the old
   * total read for the invoice (as the next edit reads it) is the new
   * total, when the invoice is stored, and no other invoice's total moves.
   */
  lemma ResaveRowsSpec(rows: seq<InvoiceRow>, id: string, companyId: string, total: real, tax: real, now: string, x: string)
    ensures forall i :: 0 <= i < |rows| ==> ResaveRows(rows, id, companyId, total, tax, now)[i].id == rows[i].id
    ensures ResaveRows(ResaveRows(rows, id, companyId, total, tax, now), id, companyId, total, tax, now) == ResaveRows(rows, id, companyId, total, tax, now)
    ensures (exists i :: i in rows && i.id == id) ==> TotalOf(ResaveRows(rows, id, companyId, total, tax, now), id) == total
    ensures x != id ==> TotalOf(ResaveRows(rows, id, companyId, total, tax, now), x) == TotalOf(rows, x)
  {
    ResavedTotal(rows, id, companyId, total, tax, now, x);
  }

  /** The ids of the invoices of company `c`: the lines the cascade removes with the company. */
  function InvoiceIdsOf(rows: seq<InvoiceRow>, c: string): (r: set<string>)
    ensures forall i :: i in rows && i.companyId == c ==> i.id in r
    ensures forall x :: x in r ==> exists i :: i in rows && i.companyId == c && i.id == x
  {
    set i | i in rows && i.companyId == c :: i.id
  }

  // ---------------------------------------------------------------- store replies

  /**
   * How the store answers the calls a handler checks for errors, in the
   * order the handler makes them: all without an error, or call number
   * `step` (counted from 1) with an error, the calls before it without one.
   * A handler makes no call after the first error it sees.
   */
  datatype StoreReply = AllSucceed | FailsAt(step: nat)

  /** Call `k` of a handler (and every call before it) is answered without an error. */
  predicate Succeeds(reply: StoreReply, k: nat) {
    reply.AllSucceed? || k < reply.step
  }

  class Ledger {
    /** `companies.pending_amount`, for every stored company. */
    var pending: map<string, real>
    /** `companies.last_transaction`. */
    var lastTransaction: map<string, string>
    /** `companies.deleted_at` of the companies moved to Junk (`is_deleted = true`). */
    var deletedAt: map<string, int>
    var invoices: seq<InvoiceRow>
    var lines: seq<LineRow>
    var payments: seq<PaymentRow>

    /** No balance is negative and every journalled payment is positive. */
    ghost predicate Valid()
      reads this
    {
      && (forall c :: c in pending ==> pending[c] >= 0.0)
      && (forall p :: p in payments ==> p.amount > 0.0)
    }

    constructor()
      ensures Valid()
      ensures pending == map[] && lastTransaction == map[] && deletedAt == map[]
      ensures invoices == [] && lines == [] && payments == []
    {
      pending := map[];
      lastTransaction := map[];
      deletedAt := map[];
      invoices := [];
      lines := [];
      payments := [];
    }

    /** `Number(row?.pending_amount || 0)`: the stored balance, 0 for a missing company. */
    function PendingOf(c: string): (r: real)
      reads this
      requires Valid()
      ensures r >= 0.0
      ensures c !in pending ==> r == 0.0
    {
      if c in pending then pending[c] else 0.0
    }

    /** `update({ pending_amount, last_transaction }).eq('id', c)`: no row changes when the company does not exist. */
    method WritePending(c: string, v: real, now: string)
      modifies this
      ensures pending == if c in old(pending) then old(pending)[c := v] else old(pending)
      ensures lastTransaction == if c in old(pending) then old(lastTransaction)[c := now] else old(lastTransaction)
      ensures deletedAt == old(deletedAt) && invoices == old(invoices) && lines == old(lines) && payments == old(payments)
    {
      if c in pending {
        pending := pending[c := v];
        lastTransaction := lastTransaction[c := now];
      }
    }

    /**
     * The create branch of the invoice save, whose store calls are 1 the
     * insert of the invoice as 'sent' with nothing received, 2 the raise of
     * the company's balance by the total from the balance read before
     * (`pendingBefore`), 3 the insert of the lines. The first call that
     * reports an error ends the save; what the calls before it wrote stays.
     */
    method CreateInvoice(inv: InvoiceRow, pendingBefore: real, newLines: seq<LineRow>, now: string, reply: StoreReply)
      returns (saved: bool)
      requires Valid()
      requires inv.status == Sent && inv.received == 0.0
      modifies this
      ensures Valid()
      ensures saved <==> Succeeds(reply, 3)
      ensures invoices == old(invoices) + (if Succeeds(reply, 1) then [inv] else [])
      ensures pending == if Succeeds(reply, 2) && inv.companyId in old(pending) then old(pending)[inv.companyId := CreatePending(pendingBefore, inv.total)] else old(pending)
      ensures lastTransaction == if Succeeds(reply, 2) && inv.companyId in old(pending) then old(lastTransaction)[inv.companyId := now] else old(lastTransaction)
      ensures lines == old(lines) + (if Succeeds(reply, 3) then newLines else [])
      ensures payments == old(payments) && deletedAt == old(deletedAt)
    {
      if !Succeeds(reply, 1) {
        return false;
      }
      invoices := invoices + [inv];
      if !Succeeds(reply, 2) {
        return false;
      }
      WritePending(inv.companyId, CreatePending(pendingBefore, inv.total), now);
      if !Succeeds(reply, 3) {
        return false;
      }
      lines := lines + newLines;
      saved := true;
    }

    /**
     * The edit branch of the invoice save: the old total is read first (its
     * error is not checked, a missing row reads as 0); then the store calls
     * 1 re-save the invoice as 'updated', 2 delete its old lines, 3 move the
     * company's balance by the difference of the totals, 4 insert the new
     * lines. The first call that reports an error ends the save.
     */
    method EditInvoice(id: string, companyId: string, total: real, tax: real, pendingBefore: real, newLines: seq<LineRow>, now: string, reply: StoreReply)
      returns (saved: bool)
      requires Valid()
      modifies this
      ensures Valid()
      ensures saved <==> Succeeds(reply, 4)
      ensures invoices == if Succeeds(reply, 1) then ResaveRows(old(invoices), id, companyId, total, tax, now) else old(invoices)
      ensures lines == if Succeeds(reply, 2) then Filter(old(lines), (l: LineRow) => l.invoiceId != id) + (if Succeeds(reply, 4) then newLines else []) else old(lines)
      ensures pending == if Succeeds(reply, 3) && companyId in old(pending) then old(pending)[companyId := EditPending(pendingBefore, TotalOf(old(invoices), id), total)] else old(pending)
      ensures lastTransaction == if Succeeds(reply, 3) && companyId in old(pending) then old(lastTransaction)[companyId := now] else old(lastTransaction)
      ensures payments == old(payments) && deletedAt == old(deletedAt)
    {
      var oldTotal := TotalOf(invoices, id);
      if !Succeeds(reply, 1) {
        return false;
      }
      invoices := ResaveRows(invoices, id, companyId, total, tax, now);
      if !Succeeds(reply, 2) {
        return false;
      }
      lines := Filter(lines, (l: LineRow) => l.invoiceId != id);
      if !Succeeds(reply, 3) {
        return false;
      }
      WritePending(companyId, EditPending(pendingBefore, oldTotal, total), now);
      if !Succeeds(reply, 4) {
        return false;
      }
      lines := lines + newLines;
      saved := true;
    }

    /**
     * Deleting an invoice from the history or the sales report, whose store
     * calls are 1 the read of the company's balance (an error when the
     * company has no row), 2 the write of that balance lowered by the
     * invoice's total, 3 the delete of the invoice and, by cascade, its
     * lines. The first call that reports an error ends the delete; a
     * failed delete leaves the lowered balance written.
     */
    method DeleteInvoice(inv: InvoiceRow, now: string, reply: StoreReply) returns (ok: bool, next: real)
      requires Valid()
      modifies this
      ensures Valid()
      ensures ok <==> Succeeds(reply, 3) && inv.companyId in old(pending)
      ensures Succeeds(reply, 1) && inv.companyId in old(pending) ==> next == DeletePending(old(pending)[inv.companyId], inv.total)
      ensures pending == if Succeeds(reply, 2) && inv.companyId in old(pending) then old(pending)[inv.companyId := next] else old(pending)
      ensures lastTransaction == if Succeeds(reply, 2) && inv.companyId in old(pending) then old(lastTransaction)[inv.companyId := now] else old(lastTransaction)
      ensures invoices == if ok then Filter(old(invoices), (i: InvoiceRow) => i.id != inv.id) else old(invoices)
      ensures lines == if ok then Filter(old(lines), (l: LineRow) => l.invoiceId != inv.id) else old(lines)
      ensures payments == old(payments) && deletedAt == old(deletedAt)
    {
      if !Succeeds(reply, 1) || inv.companyId !in pending {
        return false, 0.0;
      }
      var previous := pending[inv.companyId];
      next := DeletePending(previous, inv.total);
      if !Succeeds(reply, 2) {
        return false, next;
      }
      WritePending(inv.companyId, next, now);
      if !Succeeds(reply, 3) {
        return false, next;
      }
      invoices := Filter(invoices, (i: InvoiceRow) => i.id != inv.id);
      lines := Filter(lines, (l: LineRow) => l.invoiceId != inv.id);
      ok := true;
    }

    /**
     * Recording a payment against the balance the page holds (`previous`):
     * refused with nothing written unless `CheckPayment` accepts it; then the
     * store calls are 1 the insert of the journal entry (previous, next,
     * amount), 2 the write of `next` as the balance. A failed balance write
     * leaves the entry journalled; `done` says both calls succeeded.
     */
    method RecordPayment(id: string, companyId: string, amount: Option<real>, previous: real, note: Option<string>, now: string, reply: StoreReply)
      returns (o: PaymentOutcome, done: bool)
      requires Valid()
      modifies this
      ensures Valid()
      ensures o == CheckPayment(amount, previous)
      ensures done <==> o.Recorded? && Succeeds(reply, 2)
      ensures payments == if o.Recorded? && Succeeds(reply, 1) then old(payments) + [PaymentRow(id, companyId, amount.value, previous, o.next, note)] else old(payments)
      ensures pending == if done && companyId in old(pending) then old(pending)[companyId := o.next] else old(pending)
      ensures lastTransaction == if done && companyId in old(pending) then old(lastTransaction)[companyId := now] else old(lastTransaction)
      ensures invoices == old(invoices) && lines == old(lines) && deletedAt == old(deletedAt)
    {
      o := CheckPayment(amount, previous);
      if !o.Recorded? || !Succeeds(reply, 1) {
        return o, false;
      }
      payments := payments + [PaymentRow(id, companyId, amount.value, previous, o.next, note)];
      if !Succeeds(reply, 2) {
        return o, false;
      }
      WritePending(companyId, o.next, now);
      done := true;
    }

    /**
     * Deleting a journalled payment, whose store calls are 1 the read of the
     * company's balance (an error when the company has no row), 2 the delete
     * of the entry, 3 the write of the balance read with the amount added
     * back. A failed read or delete ends the handler; a failed balance write
     * leaves the entry deleted and the balance as it was. `deleted` says the
     * entry is gone.
     */
    method DeletePayment(p: PaymentRow, now: string, reply: StoreReply) returns (deleted: bool, restored: real)
      requires Valid()
      requires p in payments
      modifies this
      ensures Valid()
      ensures deleted <==> Succeeds(reply, 2) && p.companyId in old(pending)
      ensures Succeeds(reply, 1) && p.companyId in old(pending) ==> restored == RestorePending(old(pending)[p.companyId], p.amount)
      ensures payments == if deleted then Filter(old(payments), (q: PaymentRow) => q.id != p.id) else old(payments)
      ensures pending == if deleted && Succeeds(reply, 3) then old(pending)[p.companyId := restored] else old(pending)
      ensures lastTransaction == if deleted && Succeeds(reply, 3) then old(lastTransaction)[p.companyId := now] else old(lastTransaction)
      ensures invoices == old(invoices) && lines == old(lines) && deletedAt == old(deletedAt)
    {
      if !Succeeds(reply, 1) || p.companyId !in pending {
        return false, 0.0;
      }
      var current := pending[p.companyId];
      restored := RestorePending(current, p.amount);
      if !Succeeds(reply, 2) {
        return false, restored;
      }
      payments := Filter(payments, (q: PaymentRow) => q.id != p.id);
      deleted := true;
      if Succeeds(reply, 3) {
        WritePending(p.companyId, restored, now);
      }
    }

    /**
     * Inserting a new company row with its opening balance and its
     * `last_transaction` (null when `stamp` is `None`), under the id the
     * store chose.
     */
    method InsertCompany(c: string, v: real, stamp: Option<string>)
      requires Valid() && v >= 0.0 && c !in pending
      modifies this
      ensures Valid()
      ensures pending == old(pending)[c := v]
      ensures lastTransaction == if stamp.Some? then old(lastTransaction)[c := stamp.value] else old(lastTransaction) - {c}
      ensures deletedAt == old(deletedAt)
      ensures invoices == old(invoices) && lines == old(lines) && payments == old(payments)
    {
      pending := pending[c := v];
      lastTransaction := if stamp.Some? then lastTransaction[c := stamp.value] else lastTransaction - {c};
    }

    /** Saving an edited company: its balance is overwritten, its stamp is not touched; no row changes for an unknown id. */
    method UpdateBalance(c: string, v: real)
      requires Valid() && v >= 0.0
      modifies this
      ensures Valid()
      ensures pending == if c in old(pending) then old(pending)[c := v] else old(pending)
      ensures lastTransaction == old(lastTransaction) && deletedAt == old(deletedAt)
      ensures invoices == old(invoices) && lines == old(lines) && payments == old(payments)
    {
      if c in pending {
        pending := pending[c := v];
      }
    }

    /** Moving a company to Junk: `is_deleted` set and `deleted_at` stamped; nothing is removed. */
    method SoftDeleteCompany(c: string, nowMs: int)
      requires Valid()
      modifies this
      ensures Valid()
      ensures deletedAt == if c in old(pending) then old(deletedAt)[c := nowMs] else old(deletedAt)
      ensures pending == old(pending) && lastTransaction == old(lastTransaction)
      ensures invoices == old(invoices) && lines == old(lines) && payments == old(payments)
    {
      if c in pending {
        deletedAt := deletedAt[c := nowMs];
      }
    }

    /** Restoring a company from Junk clears its `is_deleted` and `deleted_at`. */
    method RestoreCompany(c: string)
      requires Valid()
      modifies this
      ensures Valid()
      ensures deletedAt == old(deletedAt) - {c}
      ensures pending == old(pending) && lastTransaction == old(lastTransaction)
      ensures invoices == old(invoices) && lines == old(lines) && payments == old(payments)
    {
      deletedAt := deletedAt - {c};
    }

    /**
     * Deleting a company for good matches only a soft-deleted row; its
     * invoices, their lines and its payments go with it.
     */
    method PurgeCompany(c: string)
      requires Valid()
      modifies this
      ensures Valid()
      ensures c !in old(deletedAt) ==> pending == old(pending) && lastTransaction == old(lastTransaction) && deletedAt == old(deletedAt)
      ensures c !in old(deletedAt) ==> invoices == old(invoices) && lines == old(lines) && payments == old(payments)
      ensures c in old(deletedAt) ==> pending == old(pending) - {c} && lastTransaction == old(lastTransaction) - {c} && deletedAt == old(deletedAt) - {c}
      ensures c in old(deletedAt) ==> invoices == Filter(old(invoices), (i: InvoiceRow) => i.companyId != c)
      ensures c in old(deletedAt) ==> lines == Filter(old(lines), (l: LineRow) => l.invoiceId !in InvoiceIdsOf(old(invoices), c))
      ensures c in old(deletedAt) ==> payments == Filter(old(payments), (q: PaymentRow) => q.companyId != c)
    {
      if c in deletedAt {
        var gone := InvoiceIdsOf(invoices, c);
        lines := Filter(lines, (l: LineRow) => l.invoiceId !in gone);
        invoices := Filter(invoices, (i: InvoiceRow) => i.companyId != c);
        payments := Filter(payments, (q: PaymentRow) => q.companyId != c);
        pending := pending - {c};
        lastTransaction := lastTransaction - {c};
        deletedAt := deletedAt - {c};
      }
    }
  }
}
