/**
 * The items step of the wizard: the add and edit dialogs with their boxes ×
 * items-per-box quantities, removing a line, the running total, the
 * inventory search and the highlighted search result. The cart lives in the
 * wizard store; each handler computes the next cart and hands it to
 * `setItems`.
 */
module ItemsStep {
  import opened Wrappers
  import opened Text
  import opened JsNumber
  import opened Seqs
  import opened MockData
  import opened InvoiceSummary
  import opened WizardStore

  // ---------------------------------------------------------------- dialog fields

  /** `Math.max(1, Math.floor(Number(text) || 1))` for the parsed text (`None` for NaN). */
  function ClampCount(v: Option<real>): int {
    var x := if v.Some? && v.value != 0.0 then v.value else 1.0;
    if x.Floor > 1 then x.Floor else 1
  }

  /** `Math.max(0, Number(text) || 0)`. */
  function ClampPrice(v: Option<real>): real {
    Max(0.0, OrZero(v))
  }

  /** A count is always at least 1: the floor of the number when that is at least 1, else 1 (blank, 0, NaN, negative or below 1). */
  lemma ClampCountSpec(v: Option<real>)
    ensures ClampCount(v) >= 1
    ensures v.Some? && v.value >= 1.0 ==> ClampCount(v) == v.value.Floor
    ensures v.None? || v.value < 1.0 ==> ClampCount(v) == 1
  {
  }

  /** A blank field counts as 1. */
  lemma BlankCountIsOne(s: string)
    requires IsBlank(s)
    ensures ClampCount(ParseNumber(s)) == 1
  {
    ParseBlank(s);
  }

  /** A price is never negative, and a non-negative one is kept as typed. */
  lemma ClampPriceSpec(v: Option<real>)
    ensures ClampPrice(v) >= 0.0
    ensures v.Some? && v.value >= 0.0 ==> ClampPrice(v) == v.value
    ensures v.None? || v.value < 0.0 ==> ClampPrice(v) == 0.0
  {
  }

  /** What a confirmed dialog yields: boxes, items per box and the price per item. */
  datatype Entry = Entry(boxes: int, itemsPerBox: int, price: real)

  function ReadEntry(boxesText: string, perBoxText: string, priceText: string): Entry {
    Entry(ClampCount(ParseNumber(boxesText)), ClampCount(ParseNumber(perBoxText)), ClampPrice(ParseNumber(priceText)))
  }

  /** `boxes * itemsPerBox`. */
  function EntryQuantity(e: Entry): real {
    (e.boxes * e.itemsPerBox) as real
  }

  /** Every dialog entry has at least one box of at least one item, a non-negative price, and so a quantity of at least 1. */
  lemma EntryBounds(boxes: Option<real>, perBox: Option<real>, price: Option<real>)
    ensures var e := Entry(ClampCount(boxes), ClampCount(perBox), ClampPrice(price));
      e.boxes >= 1 && e.itemsPerBox >= 1 && e.price >= 0.0 && EntryQuantity(e) >= 1.0
  {
    var b := ClampCount(boxes);
    var p := ClampCount(perBox);
    ClampCountSpec(boxes);
    ClampCountSpec(perBox);
    ClampPriceSpec(price);
    assert b * p >= 1 by {
      assert b * p >= b * 1;
    }
  }

  // ---------------------------------------------------------------- cart updates

  /** Some line of the cart is for inventory item `itemId`. */
  predicate InCart(items: seq<InvoiceItem>, itemId: string) {
    exists i :: 0 <= i < |items| && items[i].item.id == itemId
  }

  /** A line for the same inventory item after a re-add: more of it, at the new price. */
  function Accumulated(line: InvoiceItem, e: Entry): InvoiceItem {
    line.(quantity := line.quantity + EntryQuantity(e), item := line.item.(rate := e.price))
  }

  /** The line a first add appends: a copy of the inventory item at the entered price, with no discount. */
  function NewLine(inv: InventoryItem, e: Entry, newId: string): InvoiceItem {
    InvoiceItem(newId, inv.(rate := e.price), EntryQuantity(e), 0.0, Some(e.boxes as real), Some(e.itemsPerBox as real))
  }

  /** The cart after `confirmAddItem` (`newId` is `wizard-` followed by the clock reading). */
  function AddItem(items: seq<InvoiceItem>, inv: InventoryItem, e: Entry, newId: string): seq<InvoiceItem> {
    if InCart(items, inv.id) then
      seq(|items|, i requires 0 <= i < |items| => if items[i].item.id == inv.id then Accumulated(items[i], e) else items[i])
    else items + [NewLine(inv, e, newId)]
  }

  /** The line `editDialogItemId` after `confirmEditItem`: quantity, price, boxes and items per box replaced. */
  function Replaced(line: InvoiceItem, e: Entry): InvoiceItem {
    line.(quantity := EntryQuantity(e), item := line.item.(rate := e.price), boxes := Some(e.boxes as real), itemsPerBox := Some(e.itemsPerBox as real))
  }

  function EditItem(items: seq<InvoiceItem>, lineId: string, e: Entry): (r: seq<InvoiceItem>)
    ensures |r| == |items|
  {
    seq(|items|, i requires 0 <= i < |items| => if items[i].id == lineId then Replaced(items[i], e) else items[i])
  }

  /** `handleRemoveItem`. */
  function RemoveItem(items: seq<InvoiceItem>, lineId: string): seq<InvoiceItem> {
    Filter(items, (l: InvoiceItem) => l.id != lineId)
  }

  /**
   * Re-adding an item already in the cart keeps the cart's length; every
   * line for that item gets the entered quantity added and the new price, its
   * id, discount and box fields kept; every other line is unchanged.
   */
  lemma AddExistingAccumulates(items: seq<InvoiceItem>, inv: InventoryItem, e: Entry, newId: string, i: nat)
    requires InCart(items, inv.id) && i < |items|
    ensures var r := AddItem(items, inv, e, newId);
      && |r| == |items|
      && (items[i].item.id == inv.id ==>
            && r[i].quantity == items[i].quantity + EntryQuantity(e)
            && r[i].item.rate == e.price
            && r[i].id == items[i].id && r[i].discount == items[i].discount
            && r[i].boxes == items[i].boxes && r[i].itemsPerBox == items[i].itemsPerBox)
      && (items[i].item.id != inv.id ==> r[i] == items[i])
  {
  }

  /** Adding an item not yet in the cart appends exactly one line, with no discount and the boxes recorded. */
  lemma AddNewAppends(items: seq<InvoiceItem>, inv: InventoryItem, e: Entry, newId: string)
    requires !InCart(items, inv.id)
    ensures var r := AddItem(items, inv, e, newId);
      && r[..|items|] == items && |r| == |items| + 1
      && r[|items|].id == newId && r[|items|].item == inv.(rate := e.price)
      && r[|items|].quantity == EntryQuantity(e) && r[|items|].discount == 0.0
      && r[|items|].boxes == Some(e.boxes as real) && r[|items|].itemsPerBox == Some(e.itemsPerBox as real)
  {
  }

  /** After any add, the item is in the cart. */
  lemma AddPutsInCart(items: seq<InvoiceItem>, inv: InventoryItem, e: Entry, newId: string)
    ensures InCart(AddItem(items, inv, e, newId), inv.id)
  {
    var r := AddItem(items, inv, e, newId);
    if InCart(items, inv.id) {
      var i :| 0 <= i < |items| && items[i].item.id == inv.id;
      assert r[i].item.id == inv.id;
    } else {
      assert r[|items|].item.id == inv.id;
    }
  }

  /** Editing replaces: only the lines with that id change, and they get exactly the entered figures. */
  lemma EditReplaces(items: seq<InvoiceItem>, lineId: string, e: Entry, i: nat)
    requires i < |items|
    ensures var r := EditItem(items, lineId, e);
      && (items[i].id == lineId ==>
            && r[i].quantity == EntryQuantity(e) && r[i].item.rate == e.price
            && r[i].boxes == Some(e.boxes as real) && r[i].itemsPerBox == Some(e.itemsPerBox as real)
            && r[i].id == items[i].id && r[i].discount == items[i].discount)
      && (items[i].id != lineId ==> r[i] == items[i])
  {
  }

  /** The asymmetry: confirming the same edit twice is confirming it once, while adding the same entry twice adds its quantity twice. */
  lemma EditIdempotentAddAccumulates(items: seq<InvoiceItem>, lineId: string, inv: InventoryItem, e: Entry, newId: string, i: nat)
    requires InCart(items, inv.id) && i < |items| && items[i].item.id == inv.id
    ensures EditItem(EditItem(items, lineId, e), lineId, e) == EditItem(items, lineId, e)
    ensures AddItem(AddItem(items, inv, e, newId), inv, e, newId)[i].quantity == items[i].quantity + 2.0 * EntryQuantity(e)
  {
    var once := AddItem(items, inv, e, newId);
    assert once[i].item.id == inv.id;
    assert InCart(once, inv.id);
  }

  /** Removing deletes exactly the lines with that id and keeps the others in order. */
  lemma RemoveKeepsOthers(items: seq<InvoiceItem>, lineId: string)
    ensures var r := RemoveItem(items, lineId);
      && (forall l :: l in r <==> l in items && l.id != lineId)
      && SubsequenceOf(r, items)
  {
    FilterIsSubsequence(items, (l: InvoiceItem) => l.id != lineId);
  }

  // ---------------------------------------------------------------- the step's page

  /** `totalAmount`: the sum of `rate * quantity`, discounts ignored. */
  function TotalAmount(items: seq<InvoiceItem>): real {
    Sum(items, LineBase)
  }

  /** The running total is the summary's figure before discount: the discounted subtotal plus the discount. */
  lemma TotalIgnoresDiscount(items: seq<InvoiceItem>)
    ensures TotalAmount(items) == Subtotal(items) + TotalDiscount(items)
  {
    BeforeDiscount(items);
  }

  /** An item matches a lowercased term on its name, its HSN code or its category. */
  predicate ItemMatches(it: InventoryItem, term: string) {
    || Contains(ToLower(it.name), term)
    || (it.hsn != "" && Contains(ToLower(it.hsn), term))
    || (it.category.Some? && it.category.value != "" && Contains(ToLower(it.category.value), term))
  }

  /** `filteredItems`. */
  function FilterInventory(inventory: seq<InventoryItem>, search: string): seq<InventoryItem> {
    var term := ToLower(Trim(search));
    if term == "" then inventory else Filter(inventory, (it: InventoryItem) => ItemMatches(it, term))
  }

  /** A blank search shows the whole inventory; otherwise exactly the matching items, in inventory order. */
  lemma FilterInventorySpec(inventory: seq<InventoryItem>, search: string)
    ensures IsBlank(search) ==> FilterInventory(inventory, search) == inventory
    ensures !IsBlank(search) ==> var term := ToLower(Trim(search));
      && (forall it :: it in FilterInventory(inventory, search) <==> it in inventory && ItemMatches(it, term))
      && SubsequenceOf(FilterInventory(inventory, search), inventory)
  {
    var term := ToLower(Trim(search));
    if !IsBlank(search) {
      assert |term| == |Trim(search)|;
      FilterIsSubsequence(inventory, (it: InventoryItem) => ItemMatches(it, term));
    }
  }

  /** The highlight after the result list changes: kept, but not past the last result; 0 for no results. */
  function ClampHighlight(prev: int, len: nat): (r: int)
    ensures len == 0 ==> r == 0
    ensures len > 0 && prev >= 0 ==> 0 <= r < len
    ensures len > 0 && prev < len ==> r == prev
  {
    if len != 0 then (if prev < len - 1 then prev else len - 1) else 0
  }

  /** `goNext`: moving on to the review needs at least one line. */
  predicate CanGoNext(items: seq<InvoiceItem>) {
    items != []
  }

  // ---------------------------------------------------------------- handlers

  method ConfirmAddItem(w: Wizard, inv: InventoryItem, boxesText: string, perBoxText: string, priceText: string, newId: string)
    requires w.Valid()
    modifies w
    ensures w.Valid()
    ensures w.State() == SetItemsAction(old(w.State()), AddItem(old(w.items), inv, ReadEntry(boxesText, perBoxText, priceText), newId))
  {
    var e := ReadEntry(boxesText, perBoxText, priceText);
    w.SetItems(AddItem(w.items, inv, e, newId));
  }

  method ConfirmEditItem(w: Wizard, lineId: string, boxesText: string, perBoxText: string, priceText: string)
    requires w.Valid()
    modifies w
    ensures w.Valid()
    ensures w.State() == SetItemsAction(old(w.State()), EditItem(old(w.items), lineId, ReadEntry(boxesText, perBoxText, priceText)))
  {
    var e := ReadEntry(boxesText, perBoxText, priceText);
    w.SetItems(EditItem(w.items, lineId, e));
  }

  method HandleRemoveItem(w: Wizard, lineId: string)
    requires w.Valid()
    modifies w
    ensures w.Valid()
    ensures w.State() == SetItemsAction(old(w.State()), RemoveItem(old(w.items), lineId))
  {
    w.SetItems(RemoveItem(w.items, lineId));
  }
}
