/**
 * The printed tax invoice: how the component normalises the items it is
 * handed, its totals (`calculateTotals`), the Indian-style amount format
 * (`formatAmount`), the item-table cells and the blank-cell fallback of the
 * meta rows. The amount in words is in module AmountWords.
 */
module InvoicePdf {
  import opened Wrappers
  import opened Text
  import opened JsNumber
  import opened Seqs

  /** An item as it reaches the component; any field may be missing (`None`; for numbers also NaN). */
  datatype RawItem = RawItem(
    slNo: Option<int>,
    description: Option<string>,
    hsn: Option<string>,
    quantity: Option<string>,
    rate: Option<real>,
    unit: Option<string>,
    amount: Option<real>,
    boxes: Option<real>,
    itemsPerBox: Option<real>)

  /** An item after normalisation: every field present, money in whole paise. */
  datatype Item = Item(
    slNo: int,
    description: string,
    hsn: string,
    quantity: string,
    rate: real,
    unit: string,
    amount: real,
    boxes: Option<real>,
    itemsPerBox: Option<real>)

  /** `String(x).trim()` when present, `''` when missing. */
  function TrimmedOrEmpty(s: Option<string>): string {
    match s
    case Some(t) => Trim(t)
    case None => ""
  }

  /** The normalisation of the item at index `idx`. */
  function NormalizeItem(it: RawItem, idx: nat): Item {
    Item(
      it.slNo.GetOr(idx + 1),
      TrimmedOrEmpty(it.description),
      TrimmedOrEmpty(it.hsn),
      it.quantity.GetOr("0"),
      Round2(OrZero(it.rate)),
      it.unit.GetOr(""),
      Round2(OrZero(it.amount)),
      it.boxes,
      it.itemsPerBox)
  }

  /** `(itemsProp ?? []).map(...)`: the items normalised in order. */
  function Normalize(raw: seq<RawItem>): (r: seq<Item>)
    ensures |r| == |raw|
    ensures forall i :: 0 <= i < |raw| ==> r[i] == NormalizeItem(raw[i], i)
  {
    seq(|raw|, i requires 0 <= i < |raw| => NormalizeItem(raw[i], i))
  }

  /**
   * Missing fields get defaults instead of failing: the serial number is the
   * position counted from 1, texts are trimmed or empty, the quantity text is
   * "0", rate and amount are 0; rate and amount are always whole paise and the
   * boxes columns are passed through untouched.
   */
  lemma NormalizeDefaults(raw: seq<RawItem>, i: nat)
    requires i < |raw|
    ensures var it := Normalize(raw)[i];
      && (raw[i].slNo.None? ==> it.slNo == i + 1)
      && (raw[i].slNo.Some? ==> it.slNo == raw[i].slNo.value)
      && (raw[i].description.None? ==> it.description == "")
      && Trim(it.description) == it.description
      && Trim(it.hsn) == it.hsn
      && (raw[i].quantity.None? ==> it.quantity == "0")
      && (raw[i].rate.None? ==> it.rate == 0.0)
      && (raw[i].amount.None? ==> it.amount == 0.0)
      && IsCents(it.rate) && IsCents(it.amount)
      && it.boxes == raw[i].boxes && it.itemsPerBox == raw[i].itemsPerBox
  {
    var it := Normalize(raw)[i];
    Round2Spec(OrZero(raw[i].rate));
    Round2Spec(OrZero(raw[i].amount));
    if raw[i].rate.None? {
      CentsOfInt(0);
      Round2OfCents(0.0);
    }
    if raw[i].amount.None? {
      CentsOfInt(0);
      Round2OfCents(0.0);
    }
    match raw[i].description {
      case Some(t) => TrimIdempotent(t);
      case None =>
    }
    match raw[i].hsn {
      case Some(t) => TrimIdempotent(t);
      case None =>
    }
  }

  /** What `calculateTotals` returns. */
  datatype Totals = Totals(subtotal: real, roundOff: real, grandTotal: real, currentBalance: real)

  function ItemAmount(it: Item): real {
    it.amount
  }

  /** `calculateTotals`, for the normalised items and the previous balance. */
  function CalculateTotals(items: seq<Item>, previousBalance: real): Totals {
    var subtotal := Round2(Sum(items, ItemAmount));
    var roundOff := Round2(Round2(subtotal) - subtotal);
    var grandTotal := Round2(subtotal + roundOff);
    var currentBalance := Round2(Max(0.0, previousBalance + grandTotal));
    Totals(subtotal, roundOff, grandTotal, currentBalance)
  }

  /** A sum of whole paise is a whole number of paise. */
  lemma {:induction false} SumOfCents(items: seq<Item>)
    requires forall i :: 0 <= i < |items| ==> IsCents(items[i].amount)
    ensures IsCents(Sum(items, ItemAmount))
  {
    if items == [] {
      CentsOfInt(0);
    } else {
      SumOfCents(items[1..]);
      CentsAdd(items[0].amount, Sum(items[1..], ItemAmount));
    }
  }

  /** `round2(0)` is 0. */
  lemma Round2Zero()
    ensures Round2(0.0) == 0.0
  {
    CentsOfInt(0);
    Round2OfCents(0.0);
  }

  /**
   * For any items and any previous balance: the round-off is 0, the grand
   * total is the subtotal, which is a whole number of paise, and the current
   * balance is never negative.
   */
  lemma TotalsShape(items: seq<Item>, previousBalance: real)
    ensures var t := CalculateTotals(items, previousBalance);
      && t.roundOff == 0.0
      && t.grandTotal == t.subtotal
      && IsCents(t.subtotal)
      && t.currentBalance >= 0.0
  {
    var subtotal := Round2(Sum(items, ItemAmount));
    Round2Spec(Sum(items, ItemAmount));
    Round2OfCents(subtotal);
    Round2Zero();
    assert subtotal + 0.0 == subtotal;
    Round2NonNegative(Max(0.0, previousBalance + subtotal));
  }

  /**
   * For normalised items the subtotal is exactly the sum of the line amounts,
   * and with a previous balance in whole paise the current balance is exactly
   * `max(0, previous + grand total)`.
   */
  lemma TotalsOfNormalized(raw: seq<RawItem>, previousBalance: real)
    ensures var items := Normalize(raw);
      var t := CalculateTotals(items, previousBalance);
      && t.subtotal == Sum(items, ItemAmount)
      && t.grandTotal == t.subtotal
      && t.roundOff == 0.0
      && t.currentBalance >= 0.0
      && (IsCents(previousBalance) ==> t.currentBalance == Max(0.0, previousBalance + t.grandTotal))
  {
    var items := Normalize(raw);
    forall i | 0 <= i < |items|
      ensures IsCents(items[i].amount)
    {
      NormalizeDefaults(raw, i);
    }
    SumOfCents(items);
    Round2OfCents(Sum(items, ItemAmount));
    TotalsShape(items, previousBalance);
    var t := CalculateTotals(items, previousBalance);
    if IsCents(previousBalance) {
      CentsAdd(previousBalance, t.grandTotal);
      CentsOfInt(0);
      Round2OfCents(Max(0.0, previousBalance + t.grandTotal));
    }
  }

  /** `digits.replace(/\B(?=(\d{3})+(?!\d))/g, ',')`: a ',' before every complete group of three digits counted from the right. */
  function GroupThousands(d: string): string
    decreases |d|
  {
    if |d| <= 3 then d else GroupThousands(d[..|d| - 3]) + "," + d[|d| - 3..]
  }

  /** `formatAmount`: `|amount|.toFixed(2)`, its whole part grouped in thousands. */
  function FormatAmount(amount: real): string {
    var parts := Split(ToFixed2(Abs(amount)), '.');
    GroupThousands(parts[0]) + "." + (if |parts| >= 2 then parts[1] else "undefined")
  }

  /** Removing the commas of a grouped number gives its digits back. */
  lemma {:induction false} UngroupThousands(d: string)
    requires AllDigits(d)
    ensures RemoveAll(GroupThousands(d), ',') == d
    decreases |d|
  {
    if |d| > 3 {
      var h, t := d[..|d| - 3], d[|d| - 3..];
      var g := GroupThousands(h);
      assert AllDigits(h) && AllDigits(t);
      assert GroupThousands(d) == g + ("," + t);
      UngroupThousands(h);
      assert RemoveAll(g + ("," + t), ',') == h + t by {
        RemoveAllConcat(g, "," + t, ',');
        assert RemoveAll("," + t, ',') == RemoveAll(t, ',');
        RemoveAllDigits(t);
      }
      assert d == h + t;
    } else {
      RemoveAllDigits(d);
    }
  }

  /** The grouped digits are digits and commas, never start or end with a comma, and have no two commas in a row. */
  lemma {:induction false} GroupedShape(d: string)
    requires d != [] && AllDigits(d)
    ensures var g := GroupThousands(d);
      && g != [] && IsDigit(g[0]) && IsDigit(g[|g| - 1])
      && (forall i :: 0 <= i < |g| ==> IsDigit(g[i]) || g[i] == ',')
      && (forall i :: 0 <= i < |g| - 1 ==> g[i] == ',' ==> IsDigit(g[i + 1]))
    decreases |d|
  {
    if |d| > 3 {
      GroupedShape(d[..|d| - 3]);
    }
  }

  /** `toFixed(2)` of a non-negative amount splits at its '.' into the rupees and the two paise digits. */
  lemma SplitFixed(n: nat)
    ensures var w := NatDigits(n / 100);
      var f := [DigitChar((n % 100) / 10), DigitChar(n % 10)];
      Split(FixedDigits(n), '.') == [w, f]
  {
    var w := NatDigits(n / 100);
    var f := [DigitChar((n % 100) / 10), DigitChar(n % 10)];
    IndexOfAfterDigits(w, "." + f);
    assert FixedDigits(n) == w + ("." + f);
    assert FixedDigits(n)[|w| + 1..] == f;
    IndexOfDigits(f);
  }

  /** Grouped rupee digits, '.', and the paise digits, with the commas removed, are the plain rupee digits, '.' and the paise. */
  lemma UngroupFormatted(w: string, f: string)
    requires AllDigits(w) && AllDigits(f)
    ensures RemoveAll(GroupThousands(w) + "." + f, ',') == w + "." + f
  {
    assert GroupThousands(w) + "." + f == GroupThousands(w) + ("." + f);
    RemoveAllConcat(GroupThousands(w), "." + f, ',');
    UngroupThousands(w);
    assert RemoveAll("." + f, ',') == "." + f by {
      assert ("." + f)[1..] == f;
      RemoveAllDigits(f);
    }
    assert w + ("." + f) == w + "." + f;
  }

  /** `formatAmount` is the grouped rupees of |amount| in paise, a '.', and its two paise digits. */
  lemma FormatAmountDigits(amount: real)
    ensures var n: nat := Paise(Abs(amount));
      FormatAmount(amount) == GroupThousands(NatDigits(n / 100)) + "." + [DigitChar((n % 100) / 10), DigitChar(n % 10)]
  {
    var a := Abs(amount);
    Round2Spec(a);
    var n: nat := Paise(a);
    assert ToFixed2(a) == FixedDigits(n);
    SplitFixed(n);
  }

  /** `formatAmount` depends on |amount| only. */
  lemma FormatAmountSymmetric(amount: real)
    ensures FormatAmount(-amount) == FormatAmount(amount)
  {
    assert Abs(-amount) == Abs(amount);
  }

  /**
   * `formatAmount` always ends in '.' and two digits, and before them stand
   * the whole rupees of |amount| rounded to paise, grouped in thousands.
   */
  lemma FormatAmountShape(amount: real)
    ensures var r := FormatAmount(amount);
      var n := Paise(Abs(amount));
      && |r| >= 4 && r[|r| - 3] == '.' && IsDigit(r[|r| - 2]) && IsDigit(r[|r| - 1])
      && r[..|r| - 3] == GroupThousands(NatDigits(n / 100))
  {
    Round2Spec(Abs(amount));
    var n: nat := Paise(Abs(amount));
    FormatAmountDigits(amount);
    var g := GroupThousands(NatDigits(n / 100));
    assert g != [] by {
      if |NatDigits(n / 100)| > 3 {
        assert |g| >= 4;
      }
    }
    DecimalShape(g, DigitChar((n % 100) / 10), DigitChar(n % 10));
  }

  /** Text, '.', and two characters. */
  lemma DecimalShape(g: string, c1: char, c2: char)
    requires g != []
    ensures var r := g + "." + [c1, c2];
      && |r| >= 4 && r[|r| - 3] == '.' && r[|r| - 2] == c1 && r[|r| - 1] == c2 && r[..|r| - 3] == g
  {
    var r := g + "." + [c1, c2];
    assert r[..|r| - 3] == g;
  }

  /** With its commas removed, `formatAmount`'s text reads back through `Number` as |amount| rounded to paise. */
  lemma FormatAmountReadsBack(amount: real)
    ensures var p := ParseNumber(RemoveAll(FormatAmount(amount), ','));
      p.Some? && p.value == Round2(Abs(amount))
  {
    Round2Spec(Abs(amount));
    var n: nat := Paise(Abs(amount));
    var w := NatDigits(n / 100);
    var f := [DigitChar((n % 100) / 10), DigitChar(n % 10)];
    FormatAmountDigits(amount);
    UngroupFormatted(w, f);
    assert FixedDigits(n) == w + "." + f;
    FixedDigitsParse(n);
  }

  /** JavaScript's `x || ' '` for a text cell: an empty text shows a no-break space. */
  function Cell(s: string): (r: string)
    ensures r != []
    ensures s != [] ==> r == s
  {
    if s == "" then "\U{00A0}" else s
  }

  /** The invoice details the meta rows show; any of them may be missing. */
  datatype InvoiceDetails = InvoiceDetails(
    invoiceNo: Option<string>,
    invoiceDate: Option<string>,
    modeOfPayment: Option<string>,
    deliveryNote: Option<string>,
    referenceNo: Option<string>,
    buyerOrderNo: Option<string>,
    dispatchDocNo: Option<string>,
    dispatchedThrough: Option<string>,
    otherReferences: Option<string>,
    deliveryNoteDate: Option<string>,
    destination: Option<string>,
    billOfLadingNo: Option<string>,
    motorVehicleNo: Option<string>,
    termsOfDelivery: Option<string>)

  /** A row of the details grid: two labels and their values. */
  datatype MetaRow = MetaRow(left: string, right: string, leftVal: string, rightVal: string)

  /** `metaRows`, every missing detail read as `''`. */
  function MetaRows(d: InvoiceDetails): seq<MetaRow> {
    [ MetaRow("Invoice No.", "Dated", d.invoiceNo.GetOr(""), d.invoiceDate.GetOr("")),
      MetaRow("Delivery Note", "Mode/Terms of Payment", d.deliveryNote.GetOr(""), d.modeOfPayment.GetOr("")),
      MetaRow("Reference No. & Date", "Other References", d.referenceNo.GetOr(""), d.otherReferences.GetOr("")),
      MetaRow("Buyer's Order No.", "Dated", d.buyerOrderNo.GetOr(""), ""),
      MetaRow("Dispatch Doc No.", "Delivery Note Date", d.dispatchDocNo.GetOr(""), d.deliveryNoteDate.GetOr("")),
      MetaRow("Dispatched through", "Destination", d.dispatchedThrough.GetOr(""), d.destination.GetOr("")),
      MetaRow("Bill of Lading/LR-RR No.", "Motor Vehicle No.", d.billOfLadingNo.GetOr(""), d.motorVehicleNo.GetOr("")),
      MetaRow("Terms of Delivery", "", d.termsOfDelivery.GetOr(""), "") ]
  }

  /** The four texts a meta row prints. */
  function MetaCells(row: MetaRow): seq<string> {
    [Cell(row.left), Cell(row.leftVal), Cell(row.right), Cell(row.rightVal)]
  }

  /**
   * The grid has eight rows; every printed cell is non-empty, and a cell
   * shows its value exactly when that value is non-empty; the invoice number
   * and date head the grid.
   */
  lemma MetaRowsFilled(d: InvoiceDetails)
    ensures var rows := MetaRows(d);
      && |rows| == 8
      && (forall i, j :: 0 <= i < 8 && 0 <= j < 4 ==> MetaCells(rows[i])[j] != [])
      && (forall i :: 0 <= i < 8 ==> rows[i].leftVal != [] ==> MetaCells(rows[i])[1] == rows[i].leftVal)
      && (forall i :: 0 <= i < 8 ==> rows[i].rightVal != [] ==> MetaCells(rows[i])[3] == rows[i].rightVal)
      && rows[0].leftVal == d.invoiceNo.GetOr("") && rows[0].rightVal == d.invoiceDate.GetOr("")
      && MetaCells(rows[7])[2] == "\U{00A0}"
  {
  }

  /** `hasBoxes`: both box fields present and both positive. */
  predicate HasBoxes(it: Item) {
    it.boxes.Some? && it.itemsPerBox.Some? && it.boxes.value > 0.0 && it.itemsPerBox.value > 0.0
  }

  /** The quantity an item row shows (boxes × items per box), 0 when its box columns are blank. */
  function RowQuantity(it: Item): real {
    if HasBoxes(it) then it.boxes.value * it.itemsPerBox.value else 0.0
  }

  /** The printed cells of an item row. */
  datatype RowCells = RowCells(
    slNo: int,
    description: string,
    boxesLine: Option<string>,
    quantity: string,
    boxes: string,
    perBox: string,
    rate: string,
    amount: string)

  /** An item row of the table: the box columns filled only when `hasBoxes`, no-break spaces otherwise. */
  function ItemRow(it: Item): RowCells {
    var nbsp := "\U{00A0}";
    if HasBoxes(it) then
      var b, p := it.boxes.value, it.itemsPerBox.value;
      RowCells(it.slNo, if it.description == "" then "\U{2014}" else it.description,
        Some(NumberText(p) + "NOS X " + NumberText(b) + " BOX"),
        NumberText(RowQuantity(it)), NumberText(b), NumberText(p),
        ToFixed2(it.rate), "Rs. " + FormatAmount(it.amount))
    else
      RowCells(it.slNo, if it.description == "" then "\U{2014}" else it.description,
        None, nbsp, nbsp, nbsp, ToFixed2(it.rate), "Rs. " + FormatAmount(it.amount))
  }

  /**
   * The box columns and the second description line appear exactly when both
   * box fields are positive, and the quantity then shown is the row quantity;
   * otherwise the three box cells hold no-break spaces. The description cell
   * is never empty and the rate is printed with two decimals.
   */
  lemma ItemRowBoxes(it: Item)
    ensures var c := ItemRow(it);
      && (c.boxesLine.Some? <==> HasBoxes(it))
      && (HasBoxes(it) ==> c.quantity == NumberText(RowQuantity(it)))
      && (!HasBoxes(it) ==> c.quantity == "\U{00A0}" && c.boxes == "\U{00A0}" && c.perBox == "\U{00A0}")
      && c.description != []
      && c.rate[|c.rate| - 3] == '.'
  {
  }

  /** A term of the footer's quantity total: `it.boxes && it.itemsPerBox ? boxes * itemsPerBox : 0` (a 0 or missing field counts as false). */
  function FooterQuantity(it: Item): real {
    if it.boxes.Some? && it.itemsPerBox.Some? && it.boxes.value != 0.0 && it.itemsPerBox.value != 0.0 then
      it.boxes.value * it.itemsPerBox.value
    else 0.0
  }

  /**
   * The footer tests its box fields for being non-zero where the rows test
   * them for being positive; with no negative box field the footer total is
   * the sum of the quantities the rows show.
   */
  lemma FooterMatchesRows(items: seq<Item>)
    requires forall i :: 0 <= i < |items| ==> items[i].boxes.GetOr(0.0) >= 0.0 && items[i].itemsPerBox.GetOr(0.0) >= 0.0
    ensures Sum(items, FooterQuantity) == Sum(items, RowQuantity)
  {
    SumCongruent(items, FooterQuantity, RowQuantity);
  }
}
