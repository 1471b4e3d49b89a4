/**
 * The custom printed invoice: the subtotal of the cart lines, IGST at a rate
 * fixed to 0, rounding to whole rupees, the previous balance and the total
 * payable, with the amount in words as a placeholder.
 */
module CustomInvoicePdf {
  import opened Wrappers
  import opened Seqs
  import opened JsNumber
  import opened MockData
  import opened InvoiceSummary

  /** The IGST rate, fixed to 0: no GST is charged. */
  const IgstRate: real := 0.0

  /** The figures at the foot of the invoice. */
  datatype CustomTotals = CustomTotals(
    subtotal: real,
    igstAmount: real,
    roundOff: real,
    grandTotal: real,
    previousBalance: real,
    totalPayable: real,
    totalQuantity: real,
    words: string)

  function Quantity(it: InvoiceItem): real {
    it.quantity
  }

  /** The placeholder `numberToWords`: the amount as `toFixed(2)` writes it between "INR " and " Only". */
  function PlaceholderWords(x: real): string {
    "INR " + ToFixed2(x) + " Only"
  }

  function Totals(items: seq<InvoiceItem>, company: Company): CustomTotals {
    var subtotal := Sum(items, LineFinal);
    var igstAmount := subtotal * IgstRate / 100.0;
    var roundOff := JsRound(subtotal + igstAmount) as real - (subtotal + igstAmount);
    var grandTotal := subtotal + igstAmount + roundOff;
    var previousBalance := company.pendingAmount;
    var totalPayable := grandTotal + previousBalance;
    CustomTotals(subtotal, igstAmount, roundOff, grandTotal, previousBalance, totalPayable,
      Sum(items, Quantity), PlaceholderWords(totalPayable))
  }

  /**
   * The subtotal is the on-screen summary's; IGST is 0; the round-off is
   * within half a rupee, so the grand total is the subtotal rounded to a
   * whole number of rupees; the payable adds the company's pending amount.
   */
  lemma TotalsFacts(items: seq<InvoiceItem>, company: Company)
    ensures var t := Totals(items, company);
      && t.subtotal == Subtotal(items)
      && t.igstAmount == 0.0
      && t.grandTotal == JsRound(t.subtotal) as real
      && t.grandTotal == t.subtotal + t.roundOff
      && -0.5 < t.roundOff <= 0.5
      && t.totalPayable == t.grandTotal + company.pendingAmount
      && t.totalQuantity == Sum(items, Quantity)
  {
  }

  /** The words read back, through `Number`, as the payable rounded to paise. */
  lemma WordsReadBack(x: real)
    ensures var w := PlaceholderWords(x);
      && w[..4] == "INR " && w[|w| - 5..] == " Only"
      && var p := ParseNumber(w[4..|w| - 5]);
        p.Some? && p.value == if x < 0.0 then -Round2(-x) else Round2(x)
  {
    var w := PlaceholderWords(x);
    assert w[4..|w| - 5] == ToFixed2(x);
    ToFixed2RoundTrip(x);
  }

  /** A printed row: its number, name, quantity and final amount. */
  datatype CustomRow = CustomRow(index: nat, name: string, quantity: real, finalAmount: real)

  function Rows(items: seq<InvoiceItem>): (r: seq<CustomRow>)
    ensures |r| == |items|
    ensures forall i :: 0 <= i < |items| ==> r[i] == CustomRow(i + 1, items[i].item.name, items[i].quantity, LineFinal(items[i]))
  {
    seq(|items|, i requires 0 <= i < |items| => CustomRow(i + 1, items[i].item.name, items[i].quantity, LineFinal(items[i])))
  }

  function FinalAmountOf(r: CustomRow): real {
    r.finalAmount
  }

  function RowQuantity(r: CustomRow): real {
    r.quantity
  }

  /** The rows' final amounts add up to the subtotal, and their quantities to the total quantity. */
  lemma RowsMatchTotals(items: seq<InvoiceItem>, company: Company)
    ensures Sum(Rows(items), FinalAmountOf) == Totals(items, company).subtotal
    ensures Sum(Rows(items), RowQuantity) == Totals(items, company).totalQuantity
  {
    SumMapped(items, Rows(items), LineFinal, FinalAmountOf);
    SumMapped(items, Rows(items), Quantity, RowQuantity);
  }

  /** The "Previous Balance" row, shown only for a positive balance. */
  function PreviousBalanceRow(t: CustomTotals): (r: Option<real>)
    ensures r.Some? <==> t.previousBalance > 0.0
    ensures r.Some? ==> r.value == t.previousBalance
  {
    if t.previousBalance > 0.0 then Some(t.previousBalance) else None
  }
}
