/**
 * The payments page: the total outstanding, the company search, recording a
 * payment against a company's balance, deleting a payment (its amount is
 * put back), and the journal grouped by company.
 */
module ManagePayments {
  import opened Wrappers
  import opened Text
  import opened JsNumber
  import opened Seqs
  import opened MockData
  import opened CustomerLedger

  /** `c.pendingAmount ?? 0`. */
  function PendingAmount(c: Company): real {
    c.pendingAmount
  }

  /** `totalOutstanding`: the sum of the companies' pending amounts. */
  function TotalOutstanding(companies: seq<Company>): real {
    Sum(companies, PendingAmount)
  }

  /** Changing one company's balance moves the total outstanding by exactly the change. */
  lemma {:induction false} TotalAfterUpdate(companies: seq<Company>, k: nat, next: real, now: string)
    requires DistinctIds(companies) && k < |companies|
    ensures TotalOutstanding(SetPendingIn(companies, companies[k].id, next, now))
      == TotalOutstanding(companies) - companies[k].pendingAmount + next
  {
    var id := companies[k].id;
    var r := SetPendingIn(companies, id, next, now);
    assert r[1..] == SetPendingIn(companies[1..], id, next, now);
    if k == 0 {
      forall i | 0 <= i < |companies[1..]| ensures companies[1..][i].id != id {
        assert companies[1..][i] == companies[i + 1];
      }
      SumCongruent(companies[1..], PendingAmount, (c: Company) => if c.id == id then next else c.pendingAmount);
      SumMapped(companies[1..], r[1..], PendingAmount, PendingAmount);
    } else {
      assert companies[0].id != id;
      assert companies[1..][k - 1] == companies[k];
      TotalAfterUpdate(companies[1..], k - 1, next, now);
    }
  }

  /** No company is listed with a negative balance, so the total outstanding is not negative. */
  lemma TotalNonNegative(companies: seq<Company>)
    requires forall i :: 0 <= i < |companies| ==> companies[i].pendingAmount >= 0.0
    ensures TotalOutstanding(companies) >= 0.0
  {
    SumNonNegative(companies, PendingAmount);
  }

  /** A company matches a lowercased term on its name or its GST number. */
  predicate CompanyMatches(c: Company, term: string) {
    Contains(ToLower(c.name), term) || (c.gstNo != "" && Contains(ToLower(c.gstNo), term))
  }

  /** `filteredCompanies`. */
  function FilterCompanies(companies: seq<Company>, search: string): seq<Company> {
    var term := ToLower(Trim(search));
    if term == "" then companies else Filter(companies, (c: Company) => CompanyMatches(c, term))
  }

  /** A blank search lists every company; otherwise exactly the matching ones, in order. */
  lemma FilterCompaniesSpec(companies: seq<Company>, search: string)
    ensures IsBlank(search) ==> FilterCompanies(companies, search) == companies
    ensures !IsBlank(search) ==>
      var term := ToLower(Trim(search));
      && (forall c :: c in FilterCompanies(companies, search) <==> c in companies && CompanyMatches(c, term))
      && SubsequenceOf(FilterCompanies(companies, search), companies)
  {
    var term := ToLower(Trim(search));
    if !IsBlank(search) {
      assert |term| == |Trim(search)|;
      FilterIsSubsequence(companies, (c: Company) => CompanyMatches(c, term));
    }
  }

  /** `Number(text.replace(/,/g, '').trim())`: commas are dropped before the number is read. */
  function ParseAmountText(text: string): Option<real> {
    ParseNumber(Trim(RemoveAll(text, ',')))
  }

  /** Typing commas anywhere in an amount does not change what it reads as. */
  lemma CommasIgnored(text: string)
    ensures ParseAmountText(text) == ParseAmountText(RemoveAll(text, ','))
  {
    RemoveAllAbsent(RemoveAll(text, ','), ',');
  }

  /** A thousands separator between two runs of digits is dropped: "1,500" is read as "1500". */
  lemma SeparatorDropped(a: string, b: string)
    requires AllDigits(a) && AllDigits(b)
    ensures RemoveAll(a + "," + b, ',') == a + b
  {
    var tail := "," + b;
    assert a + "," + b == a + tail;
    RemoveAllConcat(a, tail, ',');
    assert tail[0] == ',' && tail[1..] == b;
    assert RemoveAll(tail, ',') == RemoveAll(b, ',');
    RemoveAllDigits(a);
    RemoveAllDigits(b);
  }

  /** `paymentNote.trim() || null`. */
  function NoteOrNull(note: string): Option<string> {
    var t := Trim(note);
    if t != "" then Some(t) else None
  }

  /**
   * `handleRecordPayment`: nothing happens without a user or a selected
   * company; otherwise the typed amount is checked against the selected
   * company's balance as the page holds it, and an accepted payment is
   * journalled and written to the company's balance, as
   * `Ledger.RecordPayment` does with the store's `reply`. Only when both
   * calls succeed (`done`) does the list show the new balance for that
   * company and the selection clear; after an error both stay as they were.
   */
  method HandleRecordPayment(l: Ledger, companies: seq<Company>, selected: Option<Company>, loggedIn: bool,
                             amountText: string, note: string, paymentId: string, now: string, reply: StoreReply)
    returns (o: RecordOutcome, done: bool, shown: seq<Company>, selectedAfter: Option<Company>)
    requires l.Valid()
    modifies l
    ensures l.Valid()
    ensures o.Ignored? <==> !loggedIn || selected.None?
    ensures o.Ignored? ==> unchanged(l)
    ensures o.Checked? ==> o.result == CheckPayment(ParseAmountText(amountText), selected.value.pendingAmount)
    ensures done <==> o.Checked? && o.result.Recorded? && Succeeds(reply, 2)
    ensures o.Checked? ==>
      var c := selected.value.id;
      && l.payments == (if o.result.Recorded? && Succeeds(reply, 1)
                        then old(l.payments) + [PaymentRow(paymentId, c, ParseAmountText(amountText).value, o.result.previous, o.result.next, NoteOrNull(note))]
                        else old(l.payments))
      && l.pending == (if done && c in old(l.pending) then old(l.pending)[c := o.result.next] else old(l.pending))
      && l.lastTransaction == (if done && c in old(l.pending) then old(l.lastTransaction)[c := now] else old(l.lastTransaction))
    ensures l.invoices == old(l.invoices) && l.lines == old(l.lines) && l.deletedAt == old(l.deletedAt)
    ensures shown == if done then SetPendingIn(companies, selected.value.id, o.result.next, now) else companies
    ensures selectedAfter == if done then None else selected
  {
    if !loggedIn || selected.None? {
      return Ignored, false, companies, selected;
    }
    var c := selected.value;
    var result;
    result, done := l.RecordPayment(paymentId, c.id, ParseAmountText(amountText), c.pendingAmount, NoteOrNull(note), now, reply);
    o := Checked(result);
    shown := if done then SetPendingIn(companies, c.id, result.next, now) else companies;
    selectedAfter := if done then None else selected;
  }

  /**
   * `handleDeletePayment`: nothing without a user or the confirmation;
   * otherwise the company's balance is read, the entry deleted and the
   * amount added back to the balance, as `Ledger.DeletePayment` does with
   * the store's `reply`. Once the entry is deleted (`deleted`) the list
   * shows the restored balance even when writing it to the store failed.
   */
  method HandleDeletePayment(l: Ledger, companies: seq<Company>, p: PaymentRow, loggedIn: bool, confirmed: bool, now: string, reply: StoreReply)
    returns (deleted: bool, shown: seq<Company>)
    requires l.Valid() && p in l.payments
    modifies l
    ensures l.Valid()
    ensures deleted <==> loggedIn && confirmed && p.companyId in old(l.pending) && Succeeds(reply, 2)
    ensures !(loggedIn && confirmed) ==> unchanged(l)
    ensures l.payments == if deleted then Filter(old(l.payments), (q: PaymentRow) => q.id != p.id) else old(l.payments)
    ensures deleted && Succeeds(reply, 3) ==>
      && l.pending == old(l.pending)[p.companyId := RestorePending(old(l.pending)[p.companyId], p.amount)]
      && l.lastTransaction == old(l.lastTransaction)[p.companyId := now]
    ensures !(deleted && Succeeds(reply, 3)) ==> l.pending == old(l.pending) && l.lastTransaction == old(l.lastTransaction)
    ensures l.invoices == old(l.invoices) && l.lines == old(l.lines) && l.deletedAt == old(l.deletedAt)
    ensures shown == if deleted then SetPendingIn(companies, p.companyId, RestorePending(old(l.pending)[p.companyId], p.amount), now) else companies
  {
    if !loggedIn || !confirmed {
      return false, companies;
    }
    var restored;
    deleted, restored := l.DeletePayment(p, now, reply);
    shown := if deleted then SetPendingIn(companies, p.companyId, restored, now) else companies;
  }

  function CompanyOf(p: PaymentRow): string {
    p.companyId
  }

  /** `byCompany`: the journal split by company, each company's entries in journal order. */
  method GroupByCompany(list: seq<PaymentRow>) returns (byCompany: map<string, seq<PaymentRow>>, order: seq<string>)
    ensures IsGrouping(list, CompanyOf, byCompany, order)
    ensures forall p, k :: p in list && k in byCompany ==> (p in byCompany[k] <==> p.companyId == k)
    ensures forall k :: k in byCompany ==> SubsequenceOf(byCompany[k], list)
  {
    byCompany, order := GroupBy(list, CompanyOf);
    GroupedIsGrouping(list, CompanyOf);
    forall p, k | p in list && k in byCompany ensures p in byCompany[k] <==> p.companyId == k {
      GroupingPlacesEach(list, CompanyOf, byCompany, order, p, k);
    }
    forall k | k in byCompany ensures SubsequenceOf(byCompany[k], list) {
      GroupingKeepsOrder(list, CompanyOf, byCompany, order, k);
    }
  }
}
