/**
 * The on-screen invoice summary: each cart line's amount before discount,
 * its discount and its final amount, and the summary card built from them.
 * The other printed invoices price their lines with the same three figures.
 */
module InvoiceSummary {
  import opened Wrappers
  import opened Seqs
  import opened MockData

  /** A line's amount before discount: `rate * quantity`. */
  function LineBase(it: InvoiceItem): real {
    it.item.rate * it.quantity
  }

  /** A line's discount: `base * discount / 100`. */
  function LineDiscount(it: InvoiceItem): real {
    LineBase(it) * it.discount / 100.0
  }

  /** A line's final amount: `base - base * discount / 100`. */
  function LineFinal(it: InvoiceItem): real {
    LineBase(it) - LineDiscount(it)
  }

  /** The final amount is `rate * quantity * (1 - discount / 100)`, and lies between 0 and the base for a discount in 0..100. */
  lemma LineFinalFormula(it: InvoiceItem)
    ensures LineFinal(it) == it.item.rate * it.quantity * (1.0 - it.discount / 100.0)
    ensures LineBase(it) == LineFinal(it) + LineDiscount(it)
    ensures LineBase(it) >= 0.0 && 0.0 <= it.discount <= 100.0 ==> 0.0 <= LineFinal(it) <= LineBase(it)
  {
    var b := LineBase(it);
    assert LineDiscount(it) == b * (it.discount / 100.0);
    if b >= 0.0 && 0.0 <= it.discount <= 100.0 {
      assert 0.0 <= it.discount / 100.0 <= 1.0;
      assert 0.0 <= b * (it.discount / 100.0) <= b * 1.0;
    }
  }

  /** `calculateSubtotal`. */
  function Subtotal(items: seq<InvoiceItem>): real {
    Sum(items, LineFinal)
  }

  /** `calculateTotalDiscount`. */
  function TotalDiscount(items: seq<InvoiceItem>): real {
    Sum(items, LineDiscount)
  }

  /** The "Subtotal (before discount)" figure `subtotal + totalDiscount` is the sum of `rate * quantity`. */
  lemma BeforeDiscount(items: seq<InvoiceItem>)
    ensures Subtotal(items) + TotalDiscount(items) == Sum(items, LineBase)
  {
    forall it: InvoiceItem ensures LineBase(it) == LineFinal(it) + LineDiscount(it) {
      LineFinalFormula(it);
    }
    SumAdd(items, LineFinal, LineDiscount, LineBase);
  }

  /** With non-negative bases and discounts in 0..100, neither the subtotal nor the discount is negative and the discount never exceeds the base. */
  lemma TotalsNonNegative(items: seq<InvoiceItem>)
    requires forall i :: 0 <= i < |items| ==> LineBase(items[i]) >= 0.0 && 0.0 <= items[i].discount <= 100.0
    ensures Subtotal(items) >= 0.0
    ensures TotalDiscount(items) >= 0.0
    ensures Subtotal(items) <= Sum(items, LineBase)
  {
    forall i | 0 <= i < |items| ensures LineFinal(items[i]) >= 0.0 && LineDiscount(items[i]) >= 0.0 {
      LineFinalFormula(items[i]);
    }
    SumNonNegative(items, LineFinal);
    SumNonNegative(items, LineDiscount);
    BeforeDiscount(items);
  }

  /** The bottom of the card: the grand total alone, or the invoice amount, the pending amount and their sum. */
  datatype Payable = GrandTotal(grand: real) | WithPending(invoiceAmount: real, pending: real, totalPayable: real)

  /** What the card shows: a hint for an empty cart, or the figures. */
  datatype SummaryView =
    | NoItems
    | Figures(beforeDiscount: real, discountRow: Option<real>, total: real, payable: Payable)

  /** The summary card for a cart and the selected company. */
  function Summary(items: seq<InvoiceItem>, company: Option<Company>): SummaryView {
    if items == [] then NoItems
    else
      var subtotal := Subtotal(items);
      var totalDiscount := TotalDiscount(items);
      var grandTotal := subtotal;
      Figures(
        subtotal + totalDiscount,
        if totalDiscount > 0.0 then Some(totalDiscount) else None,
        subtotal,
        if company.Some? && company.value.pendingAmount != 0.0 && company.value.pendingAmount > 0.0
        then WithPending(grandTotal, company.value.pendingAmount, grandTotal + company.value.pendingAmount)
        else GrandTotal(grandTotal))
  }

  /**
   * The card shows figures iff the cart is not empty; the first figure is the
   * sum of `rate * quantity`; the discount row appears iff the discount is
   * positive; the grand total is the subtotal; the pending block appears iff
   * the company owes something, and then the payable is the total plus that.
   */
  lemma SummaryShows(items: seq<InvoiceItem>, company: Option<Company>)
    ensures Summary(items, company).NoItems? <==> items == []
    ensures items != [] ==>
      var v := Summary(items, company);
      && v.beforeDiscount == Sum(items, LineBase)
      && (v.discountRow.Some? <==> TotalDiscount(items) > 0.0)
      && (v.discountRow.Some? ==> v.discountRow.value == TotalDiscount(items))
      && v.total == Subtotal(items)
      && (v.payable.WithPending? <==> company.Some? && company.value.pendingAmount > 0.0)
      && (v.payable.WithPending? ==> v.payable.invoiceAmount == Subtotal(items))
      && (v.payable.WithPending? ==> v.payable.totalPayable == Subtotal(items) + company.value.pendingAmount)
      && (v.payable.GrandTotal? ==> v.payable.grand == Subtotal(items))
  {
    if items != [] {
      BeforeDiscount(items);
    }
  }
}
