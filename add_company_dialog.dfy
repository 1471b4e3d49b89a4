/**
 * The "Add company" dialog: its form, the validation of a submitted form
 * (name and phone required, the previous balance a number, 0 or more),
 * and the company it hands to the page. The edit dialog validates the
 * same way.
 */
module AddCompanyDialog {
  import opened Wrappers
  import opened Text
  import opened JsNumber
  import opened MockData

  const NameRequired: string := "Company name is required"
  const PhoneRequired: string := "Contact number is required"
  const BalanceInvalid: string := "Enter a valid previous balance (0 or more)"

  /** The form's text fields. */
  datatype CompanyForm = CompanyForm(name: string, email: string, phone: string, address: string, previousBalance: string)

  const EmptyForm: CompanyForm := CompanyForm("", "", "", "", "")

  datatype FormField = NameField | EmailField | PhoneField | AddressField | BalanceField

  /** The typed balance: 0 when blank, otherwise `Number` of the text (`None` for NaN). */
  function ParseBalance(text: string): Option<real> {
    if !IsBlank(text) then ParseNumber(text) else Some(0.0)
  }

  /** A parsed balance is accepted when it is a number and not negative. */
  predicate BalanceOk(b: Option<real>) {
    b.Some? && b.value >= 0.0
  }

  /** The form as the checks and the new company read it: the text fields trimmed, the balance parsed. */
  datatype CleanForm = CleanForm(name: string, email: string, phone: string, address: string, balance: Option<real>)

  function Clean(form: CompanyForm): CleanForm {
    CleanForm(Trim(form.name), Trim(form.email), Trim(form.phone), Trim(form.address), ParseBalance(form.previousBalance))
  }

  /** The blank case is only a shortcut: `Number` of white space is 0 already. */
  lemma BlankBalanceIsZero(text: string)
    ensures ParseBalance(text) == ParseNumber(text)
  {
    if IsBlank(text) {
      ParseBlank(text);
    }
  }

  /** The errors for the three checks: a blank name, a blank phone, a bad balance; one entry per failed check and no other. */
  function ErrorsFor(nameBlank: bool, phoneBlank: bool, balanceBad: bool): (e: map<FormField, string>)
    ensures e.Keys <= {NameField, PhoneField, BalanceField}
    ensures (NameField in e <==> nameBlank) && (PhoneField in e <==> phoneBlank) && (BalanceField in e <==> balanceBad)
    ensures NameField in e ==> e[NameField] == NameRequired
    ensures PhoneField in e ==> e[PhoneField] == PhoneRequired
    ensures BalanceField in e ==> e[BalanceField] == BalanceInvalid
    ensures e == map[] <==> !nameBlank && !phoneBlank && !balanceBad
  {
    var e3 := AddIf(AddIf(AddIf(map[], nameBlank, NameField, NameRequired), phoneBlank, PhoneField, PhoneRequired), balanceBad, BalanceField, BalanceInvalid);
    assert NameField in e3 ==> e3 != map[];
    e3
  }

  /** `if (cond) e[k] = v`. */
  function AddIf(e: map<FormField, string>, cond: bool, k: FormField, v: string): map<FormField, string> {
    if cond then e[k := v] else e
  }

  /** The errors of a cleaned form, by field. */
  function ErrorsOf(cf: CleanForm): map<FormField, string> {
    ErrorsFor(cf.name == "", cf.phone == "", !BalanceOk(cf.balance))
  }

  /** The errors of a submitted form, by field. */
  function Validation(form: CompanyForm): map<FormField, string> {
    ErrorsOf(Clean(form))
  }

  /** A form passes: its name and phone are not blank and its balance is a number, 0 or more. */
  predicate Passes(form: CompanyForm) {
    !IsBlank(form.name) && !IsBlank(form.phone) && BalanceOk(ParseBalance(form.previousBalance))
  }

  /** A form passes exactly when its name and phone are not blank and its balance is a number, 0 or more. */
  lemma ValidationSpec(form: CompanyForm)
    ensures Validation(form) == map[] <==> Passes(form)
    ensures NameField in Validation(form) <==> IsBlank(form.name)
    ensures PhoneField in Validation(form) <==> IsBlank(form.phone)
    ensures BalanceField in Validation(form) <==> !BalanceOk(ParseBalance(form.previousBalance))
  {
  }

  /** The company a valid form describes, with a made-up id from the clock reading `nowMs`. */
  function NewCompany(cf: CleanForm, nowMs: nat): Company
    requires BalanceOk(cf.balance)
  {
    Company("new-" + NatDigits(nowMs), cf.name, "", cf.address, "Maharashtra", "27",
      cf.balance.value, None, Some(cf.phone), if cf.email != "" then Some(cf.email) else None)
  }

  /**
   * The company handed over for a valid form: fields trimmed, name and phone
   * not empty, no email when it is blank, the parsed balance (0 or more),
   * Maharashtra (code 27), no GST number and no last transaction.
   */
  lemma NewCompanySpec(form: CompanyForm, nowMs: nat)
    requires Validation(form) == map[]
    ensures var c := NewCompany(Clean(form), nowMs);
      && c.id == "new-" + NatDigits(nowMs)
      && c.name == Trim(form.name) && c.name != ""
      && c.phone == Some(Trim(form.phone)) && c.phone.value != ""
      && c.address == Trim(form.address)
      && c.email == (if IsBlank(form.email) then None else Some(Trim(form.email)))
      && c.pendingAmount >= 0.0 && Some(c.pendingAmount) == ParseBalance(form.previousBalance)
      && c.state == "Maharashtra" && c.stateCode == "27"
      && c.gstNo == "" && c.lastTransaction.None?
  {
    ValidationSpec(form);
  }

  /** The errors for the outcomes of the three checks, collected one at a time. */
  method CollectErrors(nameBlank: bool, phoneBlank: bool, balanceBad: bool) returns (newErrors: map<FormField, string>)
    ensures newErrors == ErrorsFor(nameBlank, phoneBlank, balanceBad)
  {
    newErrors := map[];
    if nameBlank {
      newErrors := newErrors[NameField := NameRequired];
    }
    assert newErrors == AddIf(map[], nameBlank, NameField, NameRequired);
    ghost var e1 := newErrors;
    if phoneBlank {
      newErrors := newErrors[PhoneField := PhoneRequired];
    }
    assert newErrors == AddIf(e1, phoneBlank, PhoneField, PhoneRequired);
    ghost var e2 := newErrors;
    if balanceBad {
      newErrors := newErrors[BalanceField := BalanceInvalid];
    }
    assert newErrors == AddIf(e2, balanceBad, BalanceField, BalanceInvalid);
  }

  /** Submitting the empty form shows the name and phone errors and no balance error. */
  lemma EmptyFormRejected()
    ensures Validation(EmptyForm) != map[]
    ensures NameField in Validation(EmptyForm) && PhoneField in Validation(EmptyForm)
    ensures BalanceField !in Validation(EmptyForm)
  {
    assert Trim("") == "";
    ValidationSpec(EmptyForm);
  }

  /** The dialog's state: the form, the errors shown, and whether it is open. */
  datatype AddDialog = AddDialog(form: CompanyForm, errors: map<FormField, string>, open: bool)

  const Closed: AddDialog := AddDialog(EmptyForm, map[], false)

  /** Typing into a field; typing a name or a phone blanks that field's error. */
  function Type(d: AddDialog, field: FormField, text: string): (r: AddDialog)
    ensures r.open == d.open
    ensures field != NameField && field != PhoneField ==> r.errors == d.errors
    ensures field == NameField || field == PhoneField ==> r.errors == d.errors[field := ""]
  {
    match field
    case NameField => d.(form := d.form.(name := text), errors := d.errors[NameField := ""])
    case EmailField => d.(form := d.form.(email := text))
    case PhoneField => d.(form := d.form.(phone := text), errors := d.errors[PhoneField := ""])
    case AddressField => d.(form := d.form.(address := text))
    case BalanceField => d.(form := d.form.(previousBalance := text))
  }

  /**
   * `handleSubmit`: with any error the errors are shown, the form is kept
   * and no company is handed over; otherwise the new company is handed
   * over, the form and the errors are cleared and the dialog closes.
   */
  method Submit(d: AddDialog, nowMs: nat) returns (next: AddDialog, emitted: Option<Company>)
    ensures emitted.None? <==> Validation(d.form) != map[]
    ensures emitted.None? ==> next == d.(errors := Validation(d.form))
    ensures emitted.Some? ==> emitted.value == NewCompany(Clean(d.form), nowMs) && next == Closed
  {
    var cf := Clean(d.form);
    var newErrors := CollectErrors(cf.name == "", cf.phone == "", !BalanceOk(cf.balance));
    if newErrors != map[] {
      return d.(errors := newErrors), None;
    }
    emitted := Some(NewCompany(cf, nowMs));
    next := AddDialog(EmptyForm, map[], false);
  }
}
