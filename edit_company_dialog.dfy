/**
 * The "Edit company" dialog: the form filled from the company when it
 * opens, and the edited company it hands back, validated as in the add
 * dialog.
 */
module EditCompanyDialog {
  import opened Wrappers
  import opened Text
  import opened JsNumber
  import opened MockData
  import opened AddCompanyDialog

  /** `s ?? ''`. */
  function OrEmpty(s: Option<string>): string {
    if s.Some? then s.value else ""
  }

  /** The form as filled from `company`: the balance written with `String`. */
  function Prefill(company: Company): CompanyForm {
    CompanyForm(company.name, OrEmpty(company.email), OrEmpty(company.phone), company.address, NumberText(company.pendingAmount))
  }

  /** The company with the form's name, email, phone, address and balance. */
  function Edited(company: Company, cf: CleanForm): Company
    requires BalanceOk(cf.balance)
  {
    company.(name := cf.name, email := if cf.email != "" then Some(cf.email) else None, phone := Some(cf.phone),
             address := cf.address, pendingAmount := cf.balance.value)
  }

  /**
   * An edit changes only the name, email, phone, address and balance: the
   * id, GST number, state, state code and last transaction are kept; the
   * new fields are the trimmed ones, the balance the parsed one (0 or more).
   */
  lemma EditedSpec(company: Company, form: CompanyForm)
    requires Validation(form) == map[]
    ensures var c := Edited(company, Clean(form));
      && c.id == company.id && c.gstNo == company.gstNo && c.state == company.state
      && c.stateCode == company.stateCode && c.lastTransaction == company.lastTransaction
      && c.name == Trim(form.name) && c.name != ""
      && c.phone == Some(Trim(form.phone)) && c.phone.value != ""
      && c.address == Trim(form.address)
      && c.email == (if IsBlank(form.email) then None else Some(Trim(form.email)))
      && c.pendingAmount >= 0.0 && Some(c.pendingAmount) == ParseBalance(form.previousBalance)
  {
    ValidationSpec(form);
  }

  /**
   * Saving the form as it was filled, without typing anything, hands back
   * the same company when its fields carry no surrounding white space, its
   * name and phone are set, its email is absent or not empty and its
   * balance is a whole number of paise, 0 or more.
   */
  lemma {:induction false} PrefillRoundTrip(company: Company)
    requires company.name != "" && Trim(company.name) == company.name
    requires company.phone.Some? && company.phone.value != "" && Trim(company.phone.value) == company.phone.value
    requires company.email.None? || (company.email.value != "" && Trim(company.email.value) == company.email.value)
    requires Trim(company.address) == company.address
    requires company.pendingAmount >= 0.0 && IsCents(company.pendingAmount)
    ensures Validation(Prefill(company)) == map[]
    ensures Edited(company, Clean(Prefill(company))) == company
  {
    var form := Prefill(company);
    var text := NumberText(company.pendingAmount);
    NumberTextRoundTrip(company.pendingAmount);
    BlankBalanceIsZero(text);
    assert ParseBalance(text) == Some(company.pendingAmount);
    ValidationSpec(form);
  }

  /** The dialog's state; `company` is the one being edited, `None` while nothing is. */
  datatype EditDialog = EditDialog(company: Option<Company>, open: bool, form: CompanyForm, errors: map<FormField, string>)

  /** The dialog as first shown: an empty form and no errors. */
  function Opened(company: Option<Company>, open: bool): (d: EditDialog)
    ensures d.company == company && d.open == open && d.form == EmptyForm && d.errors == map[]
  {
    EditDialog(company, open, EmptyForm, map[])
  }

  /** Opening with a company fills the form from it and clears the errors; otherwise nothing changes. */
  function Fill(d: EditDialog): (r: EditDialog)
    ensures r.company == d.company && r.open == d.open
    ensures d.company.Some? && d.open ==> r.form == Prefill(d.company.value) && r.errors == map[]
    ensures d.company.None? || !d.open ==> r == d
  {
    if d.company.Some? && d.open then d.(form := Prefill(d.company.value), errors := map[]) else d
  }

  /**
   * `handleSubmit`: nothing is shown, so nothing happens, without a
   * company; with any error the errors are shown and `onSave` is not
   * called; otherwise the edited company is handed to `onSave` and the
   * dialog closes.
   */
  method Submit(d: EditDialog) returns (next: EditDialog, saved: Option<Company>)
    ensures saved.Some? <==> d.company.Some? && Validation(d.form) == map[]
    ensures d.company.None? ==> next == d
    ensures d.company.Some? && Validation(d.form) != map[] ==> next == d.(errors := Validation(d.form))
    ensures saved.Some? ==> saved.value == Edited(d.company.value, Clean(d.form)) && next == d.(open := false)
  {
    if d.company.None? {
      return d, None;
    }
    var cf := Clean(d.form);
    var newErrors := CollectErrors(cf.name == "", cf.phone == "", !BalanceOk(cf.balance));
    if newErrors != map[] {
      return d.(errors := newErrors), None;
    }
    saved := Some(Edited(d.company.value, cf));
    next := d.(open := false);
  }
}
