/**
 * The simple printed invoice: a row per cart line with its final amount,
 * the total, and the optional due-date, notes and transport sections.
 */
module SimpleInvoicePdf {
  import opened Wrappers
  import opened Seqs
  import opened JsNumber
  import opened MockData
  import opened InvoiceSummary
  import opened WizardStore

  /** `calculateTotal`: the sum of every line's final amount. */
  function CalculateTotal(items: seq<InvoiceItem>): real {
    Sum(items, LineFinal)
  }

  /** A printed row. `discountNote` is the discount in percent when the note is shown. */
  datatype SimpleRow = SimpleRow(
    index: nat,
    name: string,
    category: Option<string>,
    discountNote: Option<real>,
    hsn: string,
    quantity: real,
    unit: string,
    rateText: string,
    finalAmount: real,
    amountText: string)

  /** The row of line `it` at position `i`. */
  function Row(it: InvoiceItem, i: nat): SimpleRow {
    var finalAmount := LineFinal(it);
    SimpleRow(
      i + 1,
      it.item.name,
      if it.item.category.Some? && it.item.category.value != "" then it.item.category else None,
      if it.discount > 0.0 then Some(it.discount) else None,
      it.item.hsn,
      it.quantity,
      it.item.unit,
      "₹" + ToFixed2(it.item.rate),
      finalAmount,
      "₹" + ToFixed2(finalAmount))
  }

  /** The table body, one row per cart line in cart order. */
  function Rows(items: seq<InvoiceItem>): (r: seq<SimpleRow>)
    ensures |r| == |items|
    ensures forall i :: 0 <= i < |items| ==> r[i] == Row(items[i], i)
  {
    seq(|items|, i requires 0 <= i < |items| => Row(items[i], i))
  }

  function FinalAmountOf(r: SimpleRow): real {
    r.finalAmount
  }

  /** The rows are numbered from 1; each shows the discount note iff its discount is positive, and its amount as `toFixed(2)` writes it. */
  lemma RowShows(it: InvoiceItem, i: nat)
    ensures var r := Row(it, i);
      && r.index == i + 1
      && (r.discountNote.Some? <==> it.discount > 0.0)
      && r.finalAmount == it.item.rate * it.quantity * (1.0 - it.discount / 100.0)
      && r.amountText[1..] == ToFixed2(r.finalAmount)
  {
    LineFinalFormula(it);
    var t := ToFixed2(LineFinal(it));
    assert ("₹" + t)[1..] == t;
  }

  /** The printed total is the sum of the printed rows' amounts, and the same figure the on-screen summary calls the total. */
  lemma RowsSumToTotal(items: seq<InvoiceItem>)
    ensures Sum(Rows(items), FinalAmountOf) == CalculateTotal(items)
    ensures CalculateTotal(items) == Subtotal(items)
  {
    SumMapped(items, Rows(items), LineFinal, FinalAmountOf);
  }

  /** The transport section: its mode line and its vehicle line, each shown when set. */
  datatype TransportSection = TransportSection(mode: Option<string>, vehicle: Option<string>)

  /** What the page prints around the table. */
  datatype Extras = Extras(dueDate: Option<string>, notes: Option<string>, transport: Option<TransportSection>)

  /** A JavaScript string is truthy when it is not empty. */
  function Truthy(s: string): Option<string> {
    if s != "" then Some(s) else None
  }

  function PageExtras(o: InvoiceOptions): Extras {
    Extras(
      Truthy(o.dueDate),
      Truthy(o.notes),
      if o.transportMode != "" || o.vehicleNo != "" then Some(TransportSection(Truthy(o.transportMode), Truthy(o.vehicleNo))) else None)
  }

  /**
   * The due date appears iff one is given, the notes iff there are any, and
   * the transport section iff a mode or a vehicle number is set; inside it,
   * each line appears iff its field is set.
   */
  lemma ExtrasShown(o: InvoiceOptions)
    ensures var e := PageExtras(o);
      && (e.dueDate.Some? <==> o.dueDate != "")
      && (e.dueDate.Some? ==> e.dueDate.value == o.dueDate)
      && (e.notes.Some? <==> o.notes != "")
      && (e.transport.Some? <==> o.transportMode != "" || o.vehicleNo != "")
      && (e.transport.Some? ==> (e.transport.value.mode.Some? <==> o.transportMode != ""))
      && (e.transport.Some? ==> (e.transport.value.vehicle.Some? <==> o.vehicleNo != ""))
  {
  }
}
