/**
 * Step 1 of the invoice wizard, choosing the customer: the search over the
 * page's companies by name, the highlighted row and the arrow keys, Enter
 * and Shift+Enter, and the page's list after a company is edited, moved to
 * Junk or added. The chosen company lives in the wizard's store.
 */
module CustomerStep {
  import opened Wrappers
  import opened Text
  import opened Seqs
  import opened MockData
  import opened WizardStore
  import opened CustomerLedger
  import ItemsStep
  import opened Keyboard

  // ---------------------------------------------------------------- search

  function NameHas(term: string): Company -> bool {
    (c: Company) => Contains(ToLower(c.name), term)
  }

  /** `filtered`: every company for a blank search, otherwise those whose lowercased name contains the trimmed, lowercased term. */
  function FilterCompanies(all: seq<Company>, search: string): seq<Company> {
    var term := ToLower(Trim(search));
    if term == "" then all else Filter(all, NameHas(term))
  }

  /** A blank search lists every company; otherwise exactly those whose name contains the term, in the page's order. */
  lemma FilterCompaniesSpec(all: seq<Company>, search: string)
    ensures IsBlank(search) ==> FilterCompanies(all, search) == all
    ensures !IsBlank(search) ==> var term := ToLower(Trim(search));
      && (forall c :: c in FilterCompanies(all, search) <==> c in all && Contains(ToLower(c.name), term))
      && SubsequenceOf(FilterCompanies(all, search), all)
  {
    var term := ToLower(Trim(search));
    if !IsBlank(search) {
      assert |term| == |Trim(search)|;
      FilterIsSubsequence(all, NameHas(term));
    }
  }

  // ---------------------------------------------------------------- the highlight

  /** ArrowDown: one row further, but not past the last row; 0 when nothing is listed. */
  function DownIndex(prev: int, len: nat): (r: int)
    ensures len == 0 ==> r == 0
    ensures len > 0 ==> r <= len - 1
    ensures len > 0 && prev + 1 <= len - 1 ==> r == prev + 1
    ensures len > 0 && prev + 1 > len - 1 ==> r == len - 1
  {
    if len != 0 then (if prev + 1 < len - 1 then prev + 1 else len - 1) else 0
  }

  /** ArrowUp: one row back, but not before the first row. */
  function UpIndex(prev: int): (r: int)
    ensures r >= 0
    ensures prev >= 1 ==> r == prev - 1
    ensures prev < 1 ==> r == 0
  {
    if 0 >= prev - 1 then 0 else prev - 1
  }

  /** From a listed row, either arrow key lands on a listed row. */
  lemma ArrowsStayInRange(prev: int, len: nat)
    requires 0 <= prev < len
    ensures 0 <= DownIndex(prev, len) < len
    ensures 0 <= UpIndex(prev) < len
  {
  }

  /** ArrowUp undoes ArrowDown from any row above the last, and ArrowDown undoes ArrowUp from any row below the first. */
  lemma ArrowsUndo(prev: int, len: nat)
    requires 0 <= prev < len
    ensures prev < len - 1 ==> UpIndex(DownIndex(prev, len)) == prev
    ensures prev > 0 ==> DownIndex(UpIndex(prev), len) == prev
  {
  }

  /** `filtered[highlightedIndex] ?? filtered[0]`: the highlighted row, the first row when the highlight is off the list, nothing for an empty list. */
  function Target(f: seq<Company>, h: int): (r: Option<Company>)
    ensures r.None? <==> f == []
    ensures r.Some? ==> r.value in f
    ensures 0 <= h < |f| ==> r == Some(f[h])
    ensures f != [] && !(0 <= h < |f|) ==> r == Some(f[0])
  {
    if 0 <= h < |f| then Some(f[h]) else if f != [] then Some(f[0]) else None
  }

  /** `goNext`: moving on to the items needs a chosen company. */
  predicate CanGoNext(company: Option<Company>) {
    company.Some?
  }

  // ---------------------------------------------------------------- list updates

  /** A company as the page shows it after an edit of company `updated.id`. */
  function Updated(c: Company, updated: Company): Company {
    if c.id == updated.id then updated else c
  }

  /** `prev.map(c => c.id === updated.id ? updated : c)`. */
  function ReplaceCompany(list: seq<Company>, updated: Company): (r: seq<Company>)
    ensures |r| == |list|
    ensures forall i :: 0 <= i < |list| ==> r[i] == Updated(list[i], updated)
  {
    seq(|list|, i requires 0 <= i < |list| => Updated(list[i], updated))
  }

  /**
   * Saving an edit changes only the rows with the edited id, which become
   * the edited company; the ids in the list, and so their uniqueness, stay
   * as they were; saving the same edit twice is saving it once.
   */
  lemma ReplaceCompanySpec(list: seq<Company>, updated: Company)
    ensures forall i :: 0 <= i < |list| && list[i].id != updated.id ==> ReplaceCompany(list, updated)[i] == list[i]
    ensures forall i :: 0 <= i < |list| && list[i].id == updated.id ==> ReplaceCompany(list, updated)[i] == updated
    ensures forall i :: 0 <= i < |list| ==> ReplaceCompany(list, updated)[i].id == list[i].id
    ensures DistinctIds(list) ==> DistinctIds(ReplaceCompany(list, updated))
    ensures ReplaceCompany(ReplaceCompany(list, updated), updated) == ReplaceCompany(list, updated)
  {
    var r := ReplaceCompany(list, updated);
    assert forall i :: 0 <= i < |list| ==> r[i].id == list[i].id;
  }

  function OtherThan(id: string): Company -> bool {
    (c: Company) => c.id != id
  }

  /** `prev.filter(c => c.id !== target.id)`. */
  function WithoutCompany(list: seq<Company>, id: string): (r: seq<Company>)
    ensures forall c :: c in r <==> c in list && c.id != id
    ensures SubsequenceOf(r, list)
  {
    FilterIsSubsequence(list, OtherThan(id));
    Filter(list, OtherThan(id))
  }

  /** ISO text for a last-transaction date (`new Date(x).toISOString()`, foreign to the model). */
  type IsoStamp = string -> string

  /** A default for a blank text (`s || d`). */
  function OrDefault(s: string, d: string): string {
    if s != "" then s else d
  }

  /**
   * The company the page shows after the store inserted `c` under `id`: the
   * row read back, with the insert's defaults ('Maharashtra', '27') and no
   * GST number (shown as 'N/A').
   */
  function SavedRow(c: Company, id: string, iso: IsoStamp): Company {
    Company(id, c.name, "N/A", c.address, OrDefault(c.state, "Maharashtra"), OrDefault(c.stateCode, "27"),
      c.pendingAmount,
      if c.lastTransaction.Some? && c.lastTransaction.value != "" then Some(iso(c.lastTransaction.value)) else None,
      c.phone, c.email)
  }

  /**
   * A saved company carries the store's id, the given name, address,
   * balance, phone and email, 'N/A' for the GST number, and a state and a
   * state code that are never blank: the given ones, or 'Maharashtra' and
   * '27' when those are blank.
   */
  lemma SavedRowSpec(c: Company, id: string, iso: IsoStamp)
    ensures var s := SavedRow(c, id, iso);
      && s.id == id && s.name == c.name && s.address == c.address && s.pendingAmount == c.pendingAmount
      && s.phone == c.phone && s.email == c.email && s.gstNo == "N/A"
      && s.state != "" && s.stateCode != ""
      && (c.state == "" ==> s.state == "Maharashtra") && (c.state != "" ==> s.state == c.state)
      && (c.stateCode == "" ==> s.stateCode == "27") && (c.stateCode != "" ==> s.stateCode == c.stateCode)
      && (s.lastTransaction.Some? <==> c.lastTransaction.Some? && c.lastTransaction.value != "")
  {
  }

  /** How the store answered the insert of a new company. */
  datatype InsertOutcome = Inserted(id: string) | InsertFailed

  // ---------------------------------------------------------------- the page

  /** The page's state: its companies, the search text and the highlighted row. */
  class CustomerPage {
    var companies: seq<Company>
    var search: string
    var highlighted: int

    /** The highlight is never negative. */
    predicate Valid()
      reads this
    {
      highlighted >= 0
    }

    function Filtered(): seq<Company>
      reads this
    {
      FilterCompanies(companies, search)
    }

    constructor (companies: seq<Company>)
      ensures Valid()
      ensures this.companies == companies && search == "" && highlighted == 0
    {
      this.companies := companies;
      search := "";
      highlighted := 0;
    }

    /** Typing into the search box: the text replaced and the first row highlighted. */
    method Type(text: string)
      modifies this
      ensures Valid()
      ensures companies == old(companies) && search == text && highlighted == 0
    {
      search := text;
      highlighted := 0;
    }

    /** The effect that runs when the number of results changes: the highlight kept on the list, or 0 for none. */
    method KeepHighlight()
      requires Valid()
      modifies this
      ensures Valid()
      ensures companies == old(companies) && search == old(search)
      ensures highlighted == ItemsStep.ClampHighlight(old(highlighted), |Filtered()|)
      ensures Filtered() == [] ==> highlighted == 0
      ensures Filtered() != [] ==> 0 <= highlighted < |Filtered()|
    {
      highlighted := ItemsStep.ClampHighlight(highlighted, |Filtered()|);
    }

    /**
     * A key in the search box. Shift+Enter chooses the target row, when
     * there is one, and then moves on (`next`) when a company was chosen
     * before the key: `goNext` reads the company of the last render, not
     * the one just chosen. Enter only chooses; the arrows move the
     * highlight; other keys do nothing.
     */
    method KeyDown(w: Wizard, key: Key, shift: bool) returns (next: bool)
      requires Valid() && w.Valid()
      modifies this, w
      ensures Valid() && w.Valid()
      ensures companies == old(companies) && search == old(search)
      ensures var t := Target(Filtered(), old(highlighted));
        && (key == Enter && t.Some? ==> w.State() == SetCompanyAction(old(w.State()), t))
        && (key == Enter && t.None? ==> w.State() == old(w.State()))
        && (key != Enter ==> w.State() == old(w.State()))
      ensures next <==> key == Enter && shift && CanGoNext(old(w.company))
      ensures highlighted == match key
        case ArrowDown => DownIndex(old(highlighted), |Filtered()|)
        case ArrowUp => UpIndex(old(highlighted))
        case _ => old(highlighted)
    {
      var f := Filtered();
      next := false;
      if key == Enter && shift {
        var rendered := w.company;
        var target := Target(f, highlighted);
        if target.Some? {
          w.SetCompany(target);
        }
        next := CanGoNext(rendered);
        return;
      }
      if key == ArrowDown {
        highlighted := DownIndex(highlighted, |f|);
        return;
      }
      if key == ArrowUp {
        highlighted := UpIndex(highlighted);
        return;
      }
      if key == Enter {
        var target := Target(f, highlighted);
        if target.Some? {
          w.SetCompany(target);
        }
      }
    }

    /**
     * `handleSaveEditedCompany`: the page's list always shows the edit, and
     * the chosen company becomes the edited one when it is that company;
     * with a user and no store error the stored balance is overwritten.
     */
    method SaveEdited(w: Wizard, l: Ledger, updated: Company, loggedIn: bool, failed: bool)
      requires Valid() && w.Valid() && l.Valid()
      requires updated.pendingAmount >= 0.0
      modifies this, w, l
      ensures Valid() && w.Valid() && l.Valid()
      ensures companies == ReplaceCompany(old(companies), updated)
      ensures search == old(search) && highlighted == old(highlighted)
      ensures old(w.company).Some? && old(w.company).value.id == updated.id ==> w.State() == SetCompanyAction(old(w.State()), Some(updated))
      ensures !(old(w.company).Some? && old(w.company).value.id == updated.id) ==> w.State() == old(w.State())
      ensures loggedIn && !failed ==> l.pending == (if updated.id in old(l.pending) then old(l.pending)[updated.id := updated.pendingAmount] else old(l.pending))
      ensures !(loggedIn && !failed) ==> l.pending == old(l.pending)
      ensures l.lastTransaction == old(l.lastTransaction) && l.deletedAt == old(l.deletedAt)
      ensures l.invoices == old(l.invoices) && l.lines == old(l.lines) && l.payments == old(l.payments)
    {
      companies := ReplaceCompany(companies, updated);
      if w.company.Some? && w.company.value.id == updated.id {
        w.SetCompany(Some(updated));
      }
      if loggedIn && !failed {
        l.UpdateBalance(updated.id, updated.pendingAmount);
      }
    }

    /**
     * `handleDeleteCompany`: nothing without the confirmation; otherwise the
     * company leaves the page's list, the choice is cleared when it was the
     * chosen one, and with a user and no store error the company is moved
     * to Junk (stamped with the clock reading `nowMs`).
     */
    method DeleteCompany(w: Wizard, l: Ledger, target: Company, confirmed: bool, loggedIn: bool, failed: bool, nowMs: int)
      requires Valid() && w.Valid() && l.Valid()
      modifies this, w, l
      ensures Valid() && w.Valid() && l.Valid()
      ensures !confirmed ==> companies == old(companies) && w.State() == old(w.State()) && l.deletedAt == old(l.deletedAt)
      ensures confirmed ==> companies == WithoutCompany(old(companies), target.id)
      ensures confirmed && old(w.company).Some? && old(w.company).value.id == target.id ==> w.State() == SetCompanyAction(old(w.State()), None)
      ensures confirmed && !(old(w.company).Some? && old(w.company).value.id == target.id) ==> w.State() == old(w.State())
      ensures confirmed && loggedIn && !failed ==>
        l.deletedAt == (if target.id in old(l.pending) then old(l.deletedAt)[target.id := nowMs] else old(l.deletedAt))
      ensures !(confirmed && loggedIn && !failed) ==> l.deletedAt == old(l.deletedAt)
      ensures search == old(search) && highlighted == old(highlighted)
      ensures l.pending == old(l.pending) && l.lastTransaction == old(l.lastTransaction)
      ensures l.invoices == old(l.invoices) && l.lines == old(l.lines) && l.payments == old(l.payments)
    {
      if !confirmed {
        return;
      }
      companies := WithoutCompany(companies, target.id);
      if w.company.Some? && w.company.value.id == target.id {
        w.SetCompany(None);
      }
      if loggedIn && !failed {
        l.SoftDeleteCompany(target.id, nowMs);
      }
    }

    /**
     * `handleAddCompanyWizard`: the new company is appended to the page's
     * list and chosen. Without a user, or when the insert fails, it is the
     * company as given; when the store inserted it, it is the row read back
     * and the store holds its balance and its stamp (the given one in ISO
     * form, or none) under the new id.
     */
    method AddCompany(w: Wizard, l: Ledger, c: Company, loggedIn: bool, outcome: InsertOutcome, iso: IsoStamp)
      requires Valid() && w.Valid() && l.Valid()
      requires c.pendingAmount >= 0.0
      requires outcome.Inserted? ==> outcome.id !in l.pending
      modifies this, w, l
      ensures Valid() && w.Valid() && l.Valid()
      ensures var shown := if loggedIn && outcome.Inserted? then SavedRow(c, outcome.id, iso) else c;
        && companies == old(companies) + [shown]
        && w.State() == SetCompanyAction(old(w.State()), Some(shown))
      ensures loggedIn && outcome.Inserted? ==> l.pending == old(l.pending)[outcome.id := c.pendingAmount]
      ensures loggedIn && outcome.Inserted? ==>
        var stamp := SavedRow(c, outcome.id, iso).lastTransaction;
        l.lastTransaction == if stamp.Some? then old(l.lastTransaction)[outcome.id := stamp.value] else old(l.lastTransaction) - {outcome.id}
      ensures !(loggedIn && outcome.Inserted?) ==> l.pending == old(l.pending) && l.lastTransaction == old(l.lastTransaction)
      ensures search == old(search) && highlighted == old(highlighted)
      ensures l.deletedAt == old(l.deletedAt) && l.invoices == old(l.invoices) && l.lines == old(l.lines) && l.payments == old(l.payments)
    {
      var shown := c;
      if loggedIn && outcome.Inserted? {
        shown := SavedRow(c, outcome.id, iso);
        l.InsertCompany(outcome.id, c.pendingAmount, shown.lastTransaction);
      }
      companies := companies + [shown];
      w.SetCompany(Some(shown));
    }
  }
}
