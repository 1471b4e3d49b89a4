/**
 * The customer lookup box: the companies whose name or GST number contains
 * the typed text, the highlighted row of the dropdown (-1 for none), and
 * the keys that move it, choose a company or close the dropdown.
 */
module GstLookup {
  import opened Wrappers
  import opened Text
  import opened Seqs
  import opened MockData
  import opened Keyboard

  /** The name or the GST number contains the term, both lowercased; nothing is trimmed. */
  predicate CompanyMatches(c: Company, term: string) {
    Contains(ToLower(c.name), ToLower(term)) || Contains(ToLower(c.gstNo), ToLower(term))
  }

  function MatchesTerm(term: string): Company -> bool {
    (c: Company) => CompanyMatches(c, term)
  }

  /** `filteredCompanies`. */
  function FilterCompanies(companies: seq<Company>, term: string): seq<Company> {
    Filter(companies, MatchesTerm(term))
  }

  /** A company is listed exactly when its name or GST number contains the term, in the given order; the empty term lists them all. */
  lemma FilterCompaniesSpec(companies: seq<Company>, term: string)
    ensures forall c :: c in FilterCompanies(companies, term) <==> c in companies && CompanyMatches(c, term)
    ensures SubsequenceOf(FilterCompanies(companies, term), companies)
    ensures term == "" ==> FilterCompanies(companies, term) == companies
  {
    FilterIsSubsequence(companies, MatchesTerm(term));
    if term == "" {
      forall i | 0 <= i < |companies| ensures MatchesTerm(term)(companies[i]) {
        EmptyContained(ToLower(companies[i].name));
      }
      FilterKeepsAll(companies, MatchesTerm(term));
    }
  }

  /** ArrowDown: one row further while there is a row below; otherwise where it was. */
  function DownIndex(prev: int, len: nat): (r: int)
    ensures prev < len - 1 ==> r == prev + 1
    ensures prev >= len - 1 ==> r == prev
  {
    if prev < len - 1 then prev + 1 else prev
  }

  /** ArrowUp: one row back while there is a row above; otherwise no row (-1). */
  function UpIndex(prev: int): (r: int)
    ensures prev > 0 ==> r == prev - 1
    ensures prev <= 0 ==> r == -1
  {
    if prev > 0 then prev - 1 else -1
  }

  /** Starting on a row or on none, the arrows keep the highlight on a row or on none: never below -1, never past the last row. */
  lemma ArrowsStayInRange(prev: int, len: nat)
    requires -1 <= prev < len
    ensures -1 <= DownIndex(prev, len) < len
    ensures -1 <= UpIndex(prev) < len
  {
  }

  /** The row Enter chooses: the highlighted one, the first when none is highlighted. */
  function EnterIndex(h: int): (idx: int)
    ensures h >= 0 ==> idx == h
    ensures h < 0 ==> idx == 0
  {
    if h >= 0 then h else 0
  }

  /** `filteredCompanies[idx]`: `None` (JavaScript's `undefined`) past the end. */
  function RowAt(f: seq<Company>, idx: int): (r: Option<Company>)
    ensures 0 <= idx < |f| ==> r == Some(f[idx])
    ensures !(0 <= idx < |f|) ==> r.None?
  {
    if 0 <= idx < |f| then Some(f[idx]) else None
  }

  /** What the lookup hands to `onSelectCompany`, if it calls it: a company, or none (`null` or `undefined`). */
  datatype Emitted = NoCall | Picked(company: Option<Company>)

  /** The lookup's state. */
  class Lookup {
    var term: string
    var searching: bool
    var highlighted: int

    /** The highlight is a row index or -1 for none. */
    predicate Valid()
      reads this
    {
      highlighted >= -1
    }

    constructor ()
      ensures Valid()
      ensures term == "" && !searching && highlighted == -1
    {
      term := "";
      searching := false;
      highlighted := -1;
    }

    /** Typing: the text replaced, the dropdown open and no row highlighted. */
    method Change(text: string)
      modifies this
      ensures Valid()
      ensures term == text && searching && highlighted == -1
    {
      term := text;
      searching := true;
      highlighted := -1;
    }

    /** Focusing the box opens the dropdown. */
    method Focus()
      modifies this
      ensures term == old(term) && searching && highlighted == old(highlighted)
    {
      searching := true;
    }

    /** `handleSelectCompany`: the company is handed over, the text cleared, the dropdown closed and the highlight removed. */
    method Select(c: Option<Company>) returns (e: Emitted)
      modifies this
      ensures Valid()
      ensures e == Picked(c)
      ensures term == "" && !searching && highlighted == -1
    {
      e := Picked(c);
      term := "";
      searching := false;
      highlighted := -1;
    }

    /** `handleClear`: the choice is cleared (`null`), and so are the text, the dropdown and the highlight. */
    method Clear() returns (e: Emitted)
      modifies this
      ensures Valid()
      ensures e == Picked(None)
      ensures term == "" && !searching && highlighted == -1
    {
      e := Select(None);
    }

    /**
     * A key in the box, with `companies` the list it searches. Escape closes
     * the dropdown and removes the highlight. Any other key does nothing
     * unless the dropdown is open, the text is not empty and something
     * matches; then the arrows move the highlight and Enter chooses the
     * highlighted company (the first when none is highlighted).
     */
    method KeyDown(companies: seq<Company>, key: Key) returns (e: Emitted)
      requires Valid()
      modifies this
      ensures Valid()
      ensures var f := FilterCompanies(companies, old(term));
        var active := old(searching) && old(term) != "" && f != [];
        && (key == Escape ==> e == NoCall && term == old(term) && !searching && highlighted == -1)
        && (key != Escape && !active ==> e == NoCall && term == old(term) && searching == old(searching) && highlighted == old(highlighted))
        && (active && key == ArrowDown ==> e == NoCall && term == old(term) && searching && highlighted == DownIndex(old(highlighted), |f|))
        && (active && key == ArrowUp ==> e == NoCall && term == old(term) && searching && highlighted == UpIndex(old(highlighted)))
        && (active && key == Enter ==> e == Picked(RowAt(f, EnterIndex(old(highlighted)))) && term == "" && !searching && highlighted == -1)
        && (active && key == OtherKey ==> e == NoCall && term == old(term) && searching && highlighted == old(highlighted))
    {
      e := NoCall;
      if key == Escape {
        searching := false;
        highlighted := -1;
        return;
      }
      var f := FilterCompanies(companies, term);
      if !searching || term == "" || |f| == 0 {
        return;
      }
      if key == ArrowDown {
        highlighted := DownIndex(highlighted, |f|);
      } else if key == ArrowUp {
        highlighted := UpIndex(highlighted);
      } else if key == Enter {
        var idx := EnterIndex(highlighted);
        e := Select(RowAt(f, idx));
      }
    }
  }

  /**
   * While the companies and the text stay the same, a highlight reached
   * through the keys is always a listed row or none, so Enter always hands
   * over a listed company.
   */
  lemma EnterPicksListed(f: seq<Company>, h: int)
    requires f != [] && -1 <= h < |f|
    ensures RowAt(f, EnterIndex(h)).Some?
    ensures RowAt(f, EnterIndex(h)).value in f
    ensures h == -1 ==> RowAt(f, EnterIndex(h)) == Some(f[0])
  {
  }
}
