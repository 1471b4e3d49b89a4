/**
 * The Junk page: soft-deleted customers with the days left before they are
 * purged, restoring one, and deleting one for good.
 */
module JunkCustomers {
  import opened Wrappers
  import opened Seqs
  import opened CustomerLedger

  /** One day in milliseconds. */
  const DayMs: int := 24 * 60 * 60 * 1000

  /** How long a deleted customer is kept: 30 days, in milliseconds. */
  const KeepMs: int := 30 * DayMs

  /** `Math.ceil(x / d)` for a positive divisor. */
  function CeilDiv(x: int, d: int): (r: int)
    requires d > 0
    ensures (r - 1) * d < x <= r * d
  {
    -((-x) / d)
  }

  /** `CeilDiv` only grows with its dividend. */
  lemma CeilDivMonotone(x: int, y: int, d: int)
    requires d > 0 && x <= y
    ensures CeilDiv(x, d) <= CeilDiv(y, d)
  {
    var a, b := CeilDiv(x, d), CeilDiv(y, d);
    assert (a - 1) * d < x <= y <= b * d;
    assert (a - 1) * d < b * d ==> a - 1 < b;
  }

  /**
   * `daysUntilPurge` for the deletion time as read (`None` when it does
   * not parse, where the source computes NaN) and the current time, both
   * in milliseconds: the whole days left, rounded up, never below 0.
   */
  function DaysUntilPurge(deletedMs: Option<int>, nowMs: int): (r: Option<int>)
    ensures r.Some? <==> deletedMs.Some?
    ensures r.Some? ==> r.value >= 0
    ensures r.Some? ==> (r.value == 0 <==> nowMs - deletedMs.value >= KeepMs)
  {
    match deletedMs
    case None => None
    case Some(deleted) => Some(Max(CeilDiv(KeepMs - (nowMs - deleted), DayMs), 0))
  }

  function Max(a: int, b: int): int {
    if a >= b then a else b
  }

  /** A customer deleted just now has 30 days left; a day later, 29. */
  lemma DaysAtDeletion(t: int)
    ensures DaysUntilPurge(Some(t), t) == Some(30)
    ensures DaysUntilPurge(Some(t), t + DayMs) == Some(29)
  {
    assert CeilDiv(KeepMs, DayMs) == 30;
    assert CeilDiv(KeepMs - DayMs, DayMs) == 29;
  }

  /** The count never goes up as time passes, and stays at most 30 once deleted. */
  lemma DaysMonotone(deleted: int, now1: int, now2: int)
    requires now1 <= now2
    ensures DaysUntilPurge(Some(deleted), now2).value <= DaysUntilPurge(Some(deleted), now1).value
    ensures deleted <= now1 ==> DaysUntilPurge(Some(deleted), now1).value <= 30
  {
    CeilDivMonotone(KeepMs - (now2 - deleted), KeepMs - (now1 - deleted), DayMs);
    if deleted <= now1 {
      CeilDivMonotone(KeepMs - (now1 - deleted), KeepMs, DayMs);
      assert CeilDiv(KeepMs, DayMs) == 30;
    }
  }

  /**
   * "Delete forever" is offered when the count is at most 0, that is once
   * the whole 30 days have passed; never for a deletion time that does not
   * parse.
   */
  predicate PurgeOffered(deletedMs: Option<int>, nowMs: int) {
    var days := DaysUntilPurge(deletedMs, nowMs);
    days.Some? && days.value <= 0
  }

  lemma PurgeOfferedSpec(deletedMs: Option<int>, nowMs: int)
    ensures PurgeOffered(deletedMs, nowMs) <==> deletedMs.Some? && nowMs - deletedMs.value >= KeepMs
    ensures PurgeOffered(deletedMs, nowMs) ==> DaysUntilPurge(deletedMs, nowMs) == Some(0)
  {
  }

  /** A row of the Junk list (`None` for a missing field). */
  datatype DeletedCompany = DeletedCompany(
    id: string,
    name: string,
    phone: Option<string>,
    email: Option<string>,
    address: Option<string>,
    state: Option<string>,
    stateCode: Option<string>,
    pendingAmount: real,
    deletedAt: string)

  /** The list without company `id`, the others in order. */
  function WithoutId(list: seq<DeletedCompany>, id: string): (r: seq<DeletedCompany>)
    ensures forall c :: c in r <==> c in list && c.id != id
    ensures SubsequenceOf(r, list)
  {
    FilterIsSubsequence(list, (c: DeletedCompany) => c.id != id);
    Filter(list, (c: DeletedCompany) => c.id != id)
  }

  /** The page's list of deleted customers. */
  class JunkPage {
    var deleted: seq<DeletedCompany>

    constructor (deleted: seq<DeletedCompany>)
      ensures this.deleted == deleted
    {
      this.deleted := deleted;
    }

    /**
     * `handleRestore`: nothing without a user; when the store reports an
     * error (`failed`) nothing changes; otherwise the customer is no longer
     * deleted and leaves the list.
     */
    method Restore(l: Ledger, id: string, loggedIn: bool, failed: bool) returns (ok: bool)
      requires l.Valid()
      modifies this, l
      ensures l.Valid()
      ensures ok <==> loggedIn && !failed
      ensures !ok ==> unchanged(this) && unchanged(l)
      ensures ok ==> deleted == WithoutId(old(deleted), id)
      ensures ok ==> l.deletedAt == old(l.deletedAt) - {id} && l.pending == old(l.pending) && l.lastTransaction == old(l.lastTransaction)
      ensures ok ==> l.invoices == old(l.invoices) && l.lines == old(l.lines) && l.payments == old(l.payments)
    {
      if !loggedIn || failed {
        return false;
      }
      l.RestoreCompany(id);
      deleted := WithoutId(deleted, id);
      ok := true;
    }

    /**
     * `handlePermanentDelete`: nothing without a user or the confirmation,
     * or when the store reports an error. Otherwise the delete matches only
     * a soft-deleted row (a customer that is not deleted keeps everything),
     * and the customer leaves the list either way.
     */
    method PermanentDelete(l: Ledger, id: string, loggedIn: bool, confirmed: bool, failed: bool) returns (ok: bool)
      requires l.Valid()
      modifies this, l
      ensures l.Valid()
      ensures ok <==> loggedIn && confirmed && !failed
      ensures !ok ==> unchanged(this) && unchanged(l)
      ensures ok ==> deleted == WithoutId(old(deleted), id)
      ensures ok && id !in old(l.deletedAt) ==>
        && l.pending == old(l.pending) && l.lastTransaction == old(l.lastTransaction) && l.deletedAt == old(l.deletedAt)
        && l.invoices == old(l.invoices) && l.lines == old(l.lines) && l.payments == old(l.payments)
      ensures ok && id in old(l.deletedAt) ==>
        && l.pending == old(l.pending) - {id} && l.lastTransaction == old(l.lastTransaction) - {id} && l.deletedAt == old(l.deletedAt) - {id}
        && l.invoices == Filter(old(l.invoices), (i: InvoiceRow) => i.companyId != id)
        && l.lines == Filter(old(l.lines), (r: LineRow) => r.invoiceId !in InvoiceIdsOf(old(l.invoices), id))
        && l.payments == Filter(old(l.payments), (q: PaymentRow) => q.companyId != id)
    {
      if !loggedIn || !confirmed || failed {
        return false;
      }
      l.PurgeCompany(id);
      deleted := WithoutId(deleted, id);
      ok := true;
    }
  }
}
