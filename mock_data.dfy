/**
 * The application's shared record types (inventory items, companies, cart
 * lines) and the `INV/YYMM/NNNN` invoice-number generator.
 */
module MockData {
  import opened Wrappers
  import opened Text

  /** An item of the seller's inventory. */
  datatype InventoryItem = InventoryItem(
    id: string,
    name: string,
    hsn: string,
    rate: real,
    stock: real,
    unit: string,
    gstRate: real,
    category: Option<string>)

  /** A customer company, with the balance it still owes. */
  datatype Company = Company(
    id: string,
    name: string,
    gstNo: string,
    address: string,
    state: string,
    stateCode: string,
    pendingAmount: real,
    lastTransaction: Option<string>,
    phone: Option<string>,
    email: Option<string>)

  /** A page's list of companies after a balance change of company `id`: that company's balance and stamp replaced, every other entry kept. */
  function SetPendingIn(companies: seq<Company>, id: string, next: real, now: string): (r: seq<Company>)
    ensures |r| == |companies|
    ensures forall i :: 0 <= i < |companies| ==> r[i] == if companies[i].id == id then companies[i].(pendingAmount := next, lastTransaction := Some(now)) else companies[i]
  {
    seq(|companies|, i requires 0 <= i < |companies| =>
      if companies[i].id == id then companies[i].(pendingAmount := next, lastTransaction := Some(now)) else companies[i])
  }

  /** Company ids are unique in the list. */
  predicate DistinctIds(companies: seq<Company>) {
    forall i, j :: 0 <= i < j < |companies| ==> companies[i].id != companies[j].id
  }

  /**
   * A balance change keeps every entry's id (so unique ids stay unique),
   * leaves a list without the company as it was, gives every entry of the
   * company the new balance and stamp, and applying it twice is applying
   * it once.
   */
  lemma SetPendingInSpec(companies: seq<Company>, id: string, next: real, now: string)
    ensures var r := SetPendingIn(companies, id, next, now);
      && (forall i :: 0 <= i < |companies| ==> r[i].id == companies[i].id)
      && (DistinctIds(companies) ==> DistinctIds(r))
      && ((forall c :: c in companies ==> c.id != id) ==> r == companies)
      && (forall c :: c in r && c.id == id ==> c.pendingAmount == next && c.lastTransaction == Some(now))
      && SetPendingIn(r, id, next, now) == r
  {
    var r := SetPendingIn(companies, id, next, now);
    assert forall i :: 0 <= i < |companies| ==> r[i].id == companies[i].id;
  }

  /** A cart line: an item, how many, and its discount in percent. */
  datatype InvoiceItem = InvoiceItem(
    id: string,
    item: InventoryItem,
    quantity: real,
    discount: real,
    boxes: Option<real>,
    itemsPerBox: Option<real>)

  /** `s.slice(-2)`: the last two characters, or all of `s` when it is shorter. */
  function LastTwo(s: string): (r: string)
    ensures |r| == if |s| >= 2 then 2 else |s|
  {
    if |s| >= 2 then s[|s| - 2..] else s
  }

  /**
   * `generateInvoiceNumber` for the date's full year, its zero-based month
   * (`getMonth()`) and the value `random` drawn by `Math.random()`.
   */
  function GenerateInvoiceNumber(year: nat, month0: nat, random: real): string
    requires month0 < 12
    requires 0.0 <= random < 1.0
  {
    FormatInvoiceNumber(year, month0 + 1, (random * 9999.0).Floor)
  }

  /** `INV/` + the year's last two digits + the month and the serial, zero-padded to 2 and 4 digits. */
  function FormatInvoiceNumber(year: nat, month: nat, serial: nat): string {
    var yy := LastTwo(NatDigits(year));
    var mm := PadStart(NatDigits(month), 2, '0');
    var nnnn := PadStart(NatDigits(serial), 4, '0');
    "INV/" + yy + mm + "/" + nnnn
  }

  /** The fields of an invoice number: two-digit year, month, serial. */
  datatype InvoiceNumberParts = InvoiceNumberParts(yy: nat, month: nat, serial: nat)

  /** Reads an `INV/YYMM/NNNN` number back into its fields; anything else is `None`. */
  function ParseInvoiceNumber(s: string): Option<InvoiceNumberParts> {
    if |s| == 13 && s[..4] == "INV/" && s[8] == '/' && AllDigits(s[4..6]) && AllDigits(s[6..8]) && AllDigits(s[9..]) then
      Some(InvoiceNumberParts(DigitsValue(s[4..6]), DigitsValue(s[6..8]), DigitsValue(s[9..])))
    else None
  }

  /** The serial part is `floor(random * 9999)`, so it lies in 0..9998. */
  lemma SerialRange(random: real)
    requires 0.0 <= random < 1.0
    ensures 0 <= (random * 9999.0).Floor <= 9998
  {
  }

  /** Any `INV/` + two digits + two digits + `/` + four digits reads back as its three numbers. */
  lemma ParseAssembled(yy: string, mm: string, nnnn: string)
    requires |yy| == 2 && |mm| == 2 && |nnnn| == 4
    requires AllDigits(yy) && AllDigits(mm) && AllDigits(nnnn)
    ensures var r := "INV/" + yy + mm + "/" + nnnn;
      && |r| == 13
      && Count(r, '/') == 2
      && ParseInvoiceNumber(r) == Some(InvoiceNumberParts(DigitsValue(yy), DigitsValue(mm), DigitsValue(nnnn)))
  {
    var r := "INV/" + yy + mm + "/" + nnnn;
    assert r[..4] == "INV/";
    assert r[4..6] == yy;
    assert r[6..8] == mm;
    assert r[9..] == nnnn;
    assert r == "INV/" + (yy + (mm + ("/" + nnnn)));
    CountConcat("INV/", yy + (mm + ("/" + nnnn)), '/');
    CountConcat(yy, mm + ("/" + nnnn), '/');
    CountConcat(mm, "/" + nnnn, '/');
    CountConcat("/", nnnn, '/');
    CountDigits(yy, '/');
    CountDigits(mm, '/');
    CountDigits(nnnn, '/');
  }

  /** A number formatted from a two-digit-or-longer year, a one- or two-digit month and a serial below 10000 reads back. */
  lemma FormatRoundTrip(year: nat, month: nat, serial: nat)
    requires year >= 10 && month < 100 && serial < 10000
    ensures var r := FormatInvoiceNumber(year, month, serial);
      && |r| == 13
      && Count(r, '/') == 2
      && ParseInvoiceNumber(r) == Some(InvoiceNumberParts(year % 100, month, serial))
  {
    var yy := LastTwo(NatDigits(year));
    var mm := PadStart(NatDigits(month), 2, '0');
    var nnnn := PadStart(NatDigits(serial), 4, '0');
    DigitsLength(month, 2);
    DigitsLength(serial, 4);
    LastTwoDigits(year);
    PadStartValue(month, 2);
    PadStartValue(serial, 4);
    ParseAssembled(yy, mm, nnnn);
  }

  /**
   * For every year of at least two digits the number has 13 characters,
   * exactly two '/', and reads back as (year mod 100, month, serial) with the
   * month in 1..12 and the serial in 0..9998.
   */
  lemma InvoiceNumberRoundTrip(year: nat, month0: nat, random: real)
    requires year >= 10 && month0 < 12 && 0.0 <= random < 1.0
    ensures var r := GenerateInvoiceNumber(year, month0, random);
      && |r| == 13
      && Count(r, '/') == 2
      && ParseInvoiceNumber(r) == Some(InvoiceNumberParts(year % 100, month0 + 1, (random * 9999.0).Floor))
      && 1 <= month0 + 1 <= 12 && (random * 9999.0).Floor <= 9998
  {
    SerialRange(random);
    FormatRoundTrip(year, month0 + 1, (random * 9999.0).Floor);
  }
}
