/**
 * The invoice history page: the list of companies with an outstanding
 * balance, the search over invoices, the grouping by month, deleting an
 * invoice (its total is taken off the customer's balance) and loading an
 * invoice back into the wizard for editing.
 */
module History {
  import opened Wrappers
  import opened Text
  import opened Seqs
  import opened MockData
  import opened WizardStore
  import opened CustomerLedger
  import opened EditInvoice

  /**
   * An invoice as the history query returns it: the row, the joined
   * customer (`None` when the join is empty), the joined lines, and
   * `formatISTMonthYear(created_at)`, the month it is listed under.
   */
  datatype HistoryInvoice = HistoryInvoice(row: InvoiceRow, company: Option<StoredCompany>, lines: seq<StoredLine>, month: string)

  /** An entry of the "Outstanding balances" list. */
  datatype BalanceEntry = BalanceEntry(id: string, name: string, pending: real)

  function Owing(): BalanceEntry -> bool {
    (e: BalanceEntry) => e.pending > 0.0
  }

  // ---------------------------------------------------------------- outstanding balances

  /** The list as loaded: the companies in query order, keeping those with a positive balance. */
  function InitialOutstanding(rows: seq<BalanceEntry>): (r: seq<BalanceEntry>)
    ensures forall i :: 0 <= i < |r| ==> r[i].pending > 0.0
    ensures forall e :: e in r <==> e in rows && e.pending > 0.0
    ensures SubsequenceOf(r, rows)
  {
    FilterIsSubsequence(rows, Owing());
    Filter(rows, Owing())
  }

  /** Entry `e` after company `id`'s balance became `next`. */
  function Rebalanced(e: BalanceEntry, id: string, next: real): BalanceEntry {
    if e.id == id then e.(pending := next) else e
  }

  /** The list after a delete: the affected company's balance replaced, then every entry not owing dropped. */
  function UpdateOutstanding(list: seq<BalanceEntry>, id: string, next: real): seq<BalanceEntry> {
    Filter(seq(|list|, i requires 0 <= i < |list| => Rebalanced(list[i], id, next)), Owing())
  }

  /**
   * After a delete every listed company owes something; the other companies'
   * entries are kept exactly when they owe something, unchanged; the affected
   * company is listed with the new balance and only if it is positive.
   */
  lemma {:induction false} OutstandingAfterDelete(list: seq<BalanceEntry>, id: string, next: real)
    ensures var r := UpdateOutstanding(list, id, next);
      && (forall i :: 0 <= i < |r| ==> r[i].pending > 0.0)
      && (forall e: BalanceEntry :: e.id != id ==> (e in r <==> e in list && e.pending > 0.0))
      && (forall e :: e in r && e.id == id ==> e.pending == next)
      && (next <= 0.0 ==> forall e :: e in r ==> e.id != id)
      && (next > 0.0 ==> forall e :: e in list && e.id == id ==> e.(pending := next) in r)
      && |r| <= |list|
  {
    var m := seq(|list|, i requires 0 <= i < |list| => Rebalanced(list[i], id, next));
    var r := UpdateOutstanding(list, id, next);
    forall e: BalanceEntry | e.id != id ensures e in m <==> e in list {
      if e in list {
        var i :| 0 <= i < |list| && list[i] == e;
        assert m[i] == e;
      }
    }
    forall e | e in r && e.id == id ensures e.pending == next {
      var i :| 0 <= i < |m| && m[i] == e;
    }
    forall e | e in list && e.id == id && next > 0.0 ensures e.(pending := next) in r {
      var i :| 0 <= i < |list| && list[i] == e;
      assert m[i] == e.(pending := next);
    }
  }

  /** Entries of the other companies keep their relative order. */
  lemma OutstandingKeepsOrder(list: seq<BalanceEntry>, id: string, next: real)
    ensures SubsequenceOf(UpdateOutstanding(list, id, next), seq(|list|, i requires 0 <= i < |list| => Rebalanced(list[i], id, next)))
  {
    FilterIsSubsequence(seq(|list|, i requires 0 <= i < |list| => Rebalanced(list[i], id, next)), Owing());
  }

  // ---------------------------------------------------------------- search and grouping

  /** The invoice number, or the customer's name when there is a customer, contains the term; both lowercased, nothing trimmed. */
  predicate Matches(inv: HistoryInvoice, search: string) {
    var term := ToLower(search);
    Contains(ToLower(inv.row.number), term) || (inv.company.Some? && Contains(ToLower(inv.company.value.name), term))
  }

  function MatchesTerm(search: string): HistoryInvoice -> bool {
    (inv: HistoryInvoice) => Matches(inv, search)
  }

  /** `filteredInvoices`. */
  function FilterInvoices(invoices: seq<HistoryInvoice>, search: string): seq<HistoryInvoice> {
    Filter(invoices, MatchesTerm(search))
  }

  /**
   * An invoice is listed exactly when its number or its customer's name
   * contains the typed term, ignoring case; the list keeps the loaded
   * order; the empty search lists everything.
   */
  lemma SearchSpec(invoices: seq<HistoryInvoice>, search: string)
    ensures forall inv :: inv in FilterInvoices(invoices, search) <==> inv in invoices && Matches(inv, search)
    ensures SubsequenceOf(FilterInvoices(invoices, search), invoices)
    ensures search == "" ==> FilterInvoices(invoices, search) == invoices
  {
    FilterIsSubsequence(invoices, MatchesTerm(search));
    if search == "" {
      forall i | 0 <= i < |invoices| ensures MatchesTerm(search)(invoices[i]) {
        EmptyContained(ToLower(invoices[i].row.number));
      }
      FilterKeepsAll(invoices, MatchesTerm(search));
    }
  }

  function MonthOf(inv: HistoryInvoice): string {
    inv.month
  }

  /** `groupedByDate`: every listed invoice is in the group of its month and no other, in list order. */
  method GroupByMonth(filtered: seq<HistoryInvoice>) returns (groups: map<string, seq<HistoryInvoice>>, order: seq<string>)
    ensures IsGrouping(filtered, MonthOf, groups, order)
    ensures forall inv :: inv in filtered ==> inv.month in groups
    ensures forall inv, k :: inv in filtered && k in groups ==> (inv in groups[k] <==> inv.month == k)
    ensures forall k :: k in groups ==> SubsequenceOf(groups[k], filtered)
  {
    groups, order := GroupBy(filtered, MonthOf);
    GroupedIsGrouping(filtered, MonthOf);
    forall inv, k | inv in filtered && k in groups ensures inv.month in groups && (inv in groups[k] <==> inv.month == k) {
      GroupingPlacesEach(filtered, MonthOf, groups, order, inv, k);
    }
    FirstKeysSpec(filtered, MonthOf);
    forall inv | inv in filtered ensures inv.month in groups {
      assert inv.month in FirstKeys(filtered, MonthOf);
    }
    forall k | k in groups ensures SubsequenceOf(groups[k], filtered) {
      GroupingKeepsOrder(filtered, MonthOf, groups, order, k);
    }
  }

  // ---------------------------------------------------------------- editing from history

  /** The customer as the history page hands it to the wizard: like an edit, but with balance 0 and empty stamp, phone and email. */
  function HistoryCompany(comp: StoredCompany): (c: Company)
    ensures c == ToCompany(Blanked(comp))
  {
    Company(comp.id, comp.name, OrElse(comp.gstNo, "N/A"), OrElse(comp.address, ""), OrElse(comp.state, ""),
      OrElse(comp.stateCode, ""), 0.0, Some(""), Some(""), Some(""))
  }

  /** A stored customer with the fields the history page does not pass on blanked. */
  function Blanked(comp: StoredCompany): StoredCompany {
    comp.(pendingAmount := Some(0.0), lastTransaction := Some(""), phone := Some(""), email := Some(""))
  }

  /** The wizard after `handleEditFromHistory`. */
  function HistoryLoadedState(invoice: HistoryInvoice, now: string, due30: string): WizardState {
    var s0 := Initial(due30);
    var s1 := if invoice.company.Some? then SetCompanyAction(s0, Some(HistoryCompany(invoice.company.value))) else s0;
    var s2 := SetItemsAction(s1, ToCartLines(invoice.lines, now));
    SetEditingAction(s2, invoice.row.id, invoice.row.number)
  }

  /**
   * Editing from history is editing the same invoice by number, with the
   * customer's balance, stamp, phone and email blanked: the wizard is in
   * edit mode for the invoice, has its lines as cart lines, and a customer
   * balance of 0.
   */
  lemma {:induction false} HistoryLoadedSpec(invoice: HistoryInvoice, now: string, due30: string)
    ensures var stored := StoredInvoice(invoice.row.id, invoice.row.number,
                                        if invoice.company.Some? then Some(Blanked(invoice.company.value)) else None, invoice.lines);
      HistoryLoadedState(invoice, now, due30) == LoadedState(stored, now, due30)
    ensures var s := HistoryLoadedState(invoice, now, due30);
      && EditingPaired(s)
      && s.editingId == Some(invoice.row.id) && s.editingNumber == Some(invoice.row.number)
      && s.items == ToCartLines(invoice.lines, now)
      && s.options == DefaultOptions(due30)
      && (invoice.company.None? <==> s.company.None?)
      && (s.company.Some? ==> s.company.value.pendingAmount == 0.0 && s.company.value.id == invoice.company.value.id)
  {
    var stored := StoredInvoice(invoice.row.id, invoice.row.number,
                                if invoice.company.Some? then Some(Blanked(invoice.company.value)) else None, invoice.lines);
    LoadedStateSpec(stored, now, due30);
  }

  /** `handleEditFromHistory`: the wizard is reset, then loaded. */
  method HandleEditFromHistory(w: Wizard, invoice: HistoryInvoice, now: string, due30: string)
    requires w.Valid()
    modifies w
    ensures w.Valid()
    ensures w.State() == HistoryLoadedState(invoice, now, due30)
  {
    w.Reset(due30);
    if invoice.company.Some? {
      w.SetCompany(Some(HistoryCompany(invoice.company.value)));
    }
    w.SetItems(ToCartLines(invoice.lines, now));
    w.SetEditing(invoice.row.id, invoice.row.number);
  }

  // ---------------------------------------------------------------- the page

  /** The page's state: the loaded invoices and the outstanding balances. */
  class HistoryPage {
    var invoices: seq<HistoryInvoice>
    var outstanding: seq<BalanceEntry>

    /** Every listed company owes something. */
    predicate Valid()
      reads this
    {
      forall i :: 0 <= i < |outstanding| ==> outstanding[i].pending > 0.0
    }

    constructor (invoices: seq<HistoryInvoice>, balances: seq<BalanceEntry>)
      ensures Valid()
      ensures this.invoices == invoices && outstanding == InitialOutstanding(balances)
    {
      this.invoices := invoices;
      outstanding := InitialOutstanding(balances);
    }

    /**
     * `handleDeleteInvoice`: nothing without a user or the confirmation, and
     * nothing when the invoice has no customer. Otherwise the customer's
     * balance is read and written back lower by the total (never below 0),
     * then the invoice is deleted, as `Ledger.DeleteInvoice` does with the
     * store's `reply`; only when every call succeeds does the invoice leave
     * the page's list and the outstanding list show the new balance.
     */
    method DeleteInvoice(l: Ledger, invoice: HistoryInvoice, loggedIn: bool, confirmed: bool, now: string, reply: StoreReply) returns (ok: bool)
      requires Valid() && l.Valid()
      modifies this, l
      ensures Valid() && l.Valid()
      ensures ok <==> loggedIn && confirmed && invoice.company.Some? && invoice.company.value.id in old(l.pending) && Succeeds(reply, 3)
      ensures !(loggedIn && confirmed && invoice.company.Some?) ==> unchanged(l)
      ensures loggedIn && confirmed && invoice.company.Some? ==>
        var id := invoice.company.value.id;
        var written := Succeeds(reply, 2) && id in old(l.pending);
        && l.pending == (if written then old(l.pending)[id := DeletePending(old(l.pending)[id], invoice.row.total)] else old(l.pending))
        && l.lastTransaction == (if written then old(l.lastTransaction)[id := now] else old(l.lastTransaction))
      ensures l.invoices == if ok then Filter(old(l.invoices), (i: InvoiceRow) => i.id != invoice.row.id) else old(l.invoices)
      ensures l.lines == if ok then Filter(old(l.lines), (r: LineRow) => r.invoiceId != invoice.row.id) else old(l.lines)
      ensures l.payments == old(l.payments) && l.deletedAt == old(l.deletedAt)
      ensures !ok ==> unchanged(this)
      ensures ok ==>
        var id := invoice.company.value.id;
        && invoices == Filter(old(invoices), (i: HistoryInvoice) => i.row.id != invoice.row.id)
        && outstanding == UpdateOutstanding(old(outstanding), id, DeletePending(old(l.pending)[id], invoice.row.total))
    {
      if !loggedIn || !confirmed || invoice.company.None? {
        return false;
      }
      var id := invoice.company.value.id;
      var next;
      ok, next := l.DeleteInvoice(invoice.row.(companyId := id), now, reply);
      if ok {
        invoices := Filter(invoices, (i: HistoryInvoice) => i.row.id != invoice.row.id);
        outstanding := UpdateOutstanding(outstanding, id, next);
      }
    }
  }
}
