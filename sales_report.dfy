/**
 * The sales report: per-invoice balance due, revenue and average order
 * value, the month-by-month tally with month-over-month growth, the top
 * customers by revenue, the ordering of the insight cards, and the two
 * handlers that write the ledger from this page (deleting one of the
 * selected customer's invoices and recording a payment from it).
 */
module SalesReport {
  import opened Wrappers
  import opened Text
  import opened JsNumber
  import opened Seqs
  import opened MockData
  import opened CustomerLedger

  /**
   * An invoice as the report loads it: the stored row, the customer's name
   * (`""` when the join is missing) and the local `YYYY-MM` month of its
   * creation stamp (read through the browser's time zone).
   */
  datatype ReportInvoice = ReportInvoice(row: InvoiceRow, companyName: string, month: string)

  function Total(inv: ReportInvoice): real {
    inv.row.total
  }

  // ---------------------------------------------------------------- per invoice and per customer

  /** The "Balance Due" column: `max(0, total - received)`. */
  function BalanceDue(total: real, received: real): (r: real)
    ensures r >= 0.0
    ensures received <= total ==> r == total - received
    ensures received > total ==> r == 0.0
    ensures received >= 0.0 && total >= 0.0 ==> r <= total
  {
    Max(0.0, total - received)
  }

  /** `totalRevenue`: the sum of the invoice totals. */
  function Revenue(invs: seq<ReportInvoice>): real {
    Sum(invs, Total)
  }

  /** `avgOrderValue`: 0 with no invoices, otherwise revenue over count. */
  function AverageOrder(invs: seq<ReportInvoice>): real {
    if |invs| > 0 then Revenue(invs) / |invs| as real else 0.0
  }

  /** The average is 0 for no invoices; otherwise it times the count is the revenue, and it lies between the smallest and largest bounds of the totals. */
  lemma AverageSpec(invs: seq<ReportInvoice>, lo: real, hi: real)
    requires forall i :: 0 <= i < |invs| ==> lo <= invs[i].row.total <= hi
    ensures |invs| == 0 ==> AverageOrder(invs) == 0.0
    ensures |invs| > 0 ==> AverageOrder(invs) * |invs| as real == Revenue(invs)
    ensures |invs| > 0 ==> lo <= AverageOrder(invs) <= hi
  {
    if |invs| > 0 {
      SumBetween(invs, Total, lo, hi);
      var n := |invs| as real;
      var a := AverageOrder(invs);
      assert a * n == Revenue(invs);
      assert a < lo ==> a * n < lo * n;
      assert a > hi ==> a * n > hi * n;
    }
  }

  // ---------------------------------------------------------------- tallies

  /** A bucket of the report's dictionaries: the revenue and the number of invoices. */
  datatype Bucket = Bucket(revenue: real, count: nat)

  /** The bucket of key `k` after the invoices `invs` were added in order. */
  function BucketOf(invs: seq<ReportInvoice>, key: ReportInvoice -> string, k: string): Bucket
    decreases |invs|
  {
    if invs == [] then Bucket(0.0, 0)
    else
      var b := BucketOf(invs[..|invs| - 1], key, k);
      var x := invs[|invs| - 1];
      if key(x) == k then Bucket(b.revenue + x.row.total, b.count + 1) else b
  }

  /** The revenue of the invoices of key `k`. */
  function KeyRevenue(invs: seq<ReportInvoice>, key: ReportInvoice -> string, k: string): real {
    BucketOf(invs, key, k).revenue
  }

  /** The invoices other than the one with this id. */
  function OtherThan(id: string): ReportInvoice -> bool {
    (i: ReportInvoice) => i.row.id != id
  }

  function HasKey(key: ReportInvoice -> string, k: string): ReportInvoice -> bool {
    i => key(i) == k
  }

  /** A bucket is the sum of the totals of its key's invoices and their number. */
  lemma {:induction false} BucketIsFilterSum(invs: seq<ReportInvoice>, key: ReportInvoice -> string, k: string)
    ensures BucketOf(invs, key, k) == Bucket(Sum(Filter(invs, HasKey(key, k)), Total), |Filter(invs, HasKey(key, k))|)
    decreases |invs|
  {
    if invs != [] {
      var init, x := invs[..|invs| - 1], invs[|invs| - 1];
      BucketIsFilterSum(init, key, k);
      assert invs == init + [x];
      BucketStep(init, x, key, k);
    }
  }

  /** One more invoice: the bucket and the filtered list grow together. */
  lemma BucketStep(init: seq<ReportInvoice>, x: ReportInvoice, key: ReportInvoice -> string, k: string)
    requires BucketOf(init, key, k) == Bucket(Sum(Filter(init, HasKey(key, k)), Total), |Filter(init, HasKey(key, k))|)
    ensures BucketOf(init + [x], key, k) == Bucket(Sum(Filter(init + [x], HasKey(key, k)), Total), |Filter(init + [x], HasKey(key, k))|)
  {
    var q := HasKey(key, k);
    assert (init + [x])[..|init + [x]| - 1] == init;
    FilterConcat(init, [x], q);
    FilterSingle(x, q);
    var f := Filter(init, q);
    if key(x) == k {
      SumConcat(f, [x], Total);
      assert Sum([x], Total) == x.row.total;
    } else {
      assert f + [] == f;
    }
  }

  /** A bucket with no invoices has no revenue. */
  lemma {:induction false} EmptyBucket(invs: seq<ReportInvoice>, key: ReportInvoice -> string, k: string)
    requires BucketOf(invs, key, k).count == 0
    ensures BucketOf(invs, key, k) == Bucket(0.0, 0)
    decreases |invs|
  {
    if invs != [] {
      EmptyBucket(invs[..|invs| - 1], key, k);
    }
  }

  /** `acc` holds a bucket for every key that occurs and for no other, and it is the bucket of that key's invoices. */
  ghost predicate IsTally(invs: seq<ReportInvoice>, key: ReportInvoice -> string, acc: map<string, Bucket>) {
    && (forall k :: k in acc <==> BucketOf(invs, key, k).count > 0)
    && (forall k :: k in acc ==> acc[k] == BucketOf(invs, key, k))
  }

  /** A key has a non-empty bucket exactly when some invoice has it, that is, when it is among the first-met keys. */
  lemma {:induction false} KeysAgree(s: seq<ReportInvoice>, key: ReportInvoice -> string, k: string)
    ensures k in FirstKeys(s, key) <==> BucketOf(s, key, k).count > 0
    decreases |s|
  {
    if s != [] {
      KeysAgree(s[..|s| - 1], key, k);
    }
  }

  /** One step of the tally: `x` added to its key's bucket `b` (an empty one on the key's first appearance). */
  lemma TallyPush(prefix: seq<ReportInvoice>, x: ReportInvoice, key: ReportInvoice -> string, acc: map<string, Bucket>, b: Bucket)
    requires IsTally(prefix, key, acc)
    requires b == if key(x) in acc then acc[key(x)] else Bucket(0.0, 0)
    ensures IsTally(prefix + [x], key, acc[key(x) := Bucket(b.revenue + x.row.total, b.count + 1)])
  {
    var s := prefix + [x];
    assert s[..|s| - 1] == prefix;
    if key(x) !in acc {
      EmptyBucket(prefix, key, key(x));
    }
    forall k ensures BucketOf(s, key, k) == if key(x) == k then Bucket(BucketOf(prefix, key, k).revenue + x.row.total, BucketOf(prefix, key, k).count + 1) else BucketOf(prefix, key, k) {
    }
  }

  /**
   * The `reduce` that fills a dictionary of buckets (`if (!acc[key])
   * acc[key] = {0, 0}; acc[key].revenue += total; acc[key].count += 1`),
   * with the order in which the dictionary's keys were inserted.
   */
  method Tally(invs: seq<ReportInvoice>, key: ReportInvoice -> string) returns (acc: map<string, Bucket>, order: seq<string>)
    ensures IsTally(invs, key, acc)
    ensures order == FirstKeys(invs, key)
    ensures forall k :: k in acc <==> k in order
  {
    acc, order := map[], [];
    var i := 0;
    while i < |invs|
      invariant 0 <= i <= |invs|
      invariant IsTally(invs[..i], key, acc)
      invariant order == FirstKeys(invs[..i], key)
    {
      var x := invs[i];
      var k := key(x);
      var b := if k in acc then acc[k] else Bucket(0.0, 0);
      KeysAgree(invs[..i], key, k);
      FirstKeysSnoc(invs[..i], x, key);
      TallyPush(invs[..i], x, key, acc, b);
      if k !in acc {
        order := order + [k];
      }
      acc := acc[k := Bucket(b.revenue + x.row.total, b.count + 1)];
      assert invs[..i + 1] == invs[..i] + [x];
      i := i + 1;
    }
    assert invs[..i] == invs;
    forall k ensures k in acc <==> k in order {
      KeysAgree(invs, key, k);
    }
  }

  function MonthOf(inv: ReportInvoice): string {
    inv.month
  }

  /** `monthlyMap[key]?.revenue ?? 0`. */
  function RevenueIn(monthly: map<string, Bucket>, k: string): real {
    if k in monthly then monthly[k].revenue else 0.0
  }

  /** `monthlyMap`, and the revenue it gives for any month: that month's invoices' total, 0 for a month without invoices. */
  method MonthlyMap(invs: seq<ReportInvoice>) returns (monthly: map<string, Bucket>)
    ensures forall k :: k in monthly <==> exists i :: 0 <= i < |invs| && invs[i].month == k
    ensures forall k :: RevenueIn(monthly, k) == KeyRevenue(invs, MonthOf, k)
    ensures forall k :: k in monthly ==> monthly[k] == BucketOf(invs, MonthOf, k) && monthly[k].count > 0
  {
    var order;
    monthly, order := Tally(invs, MonthOf);
    FirstKeysSpec(invs, MonthOf);
    forall k ensures RevenueIn(monthly, k) == KeyRevenue(invs, MonthOf, k) {
      if k !in monthly {
        BucketIsFilterSum(invs, MonthOf, k);
        assert |Filter(invs, HasKey(MonthOf, k))| == 0;
      }
    }
    forall k ensures k in monthly <==> exists i :: 0 <= i < |invs| && invs[i].month == k {
      if k in monthly {
        var x :| x in invs && MonthOf(x) == k;
        var i :| 0 <= i < |invs| && invs[i] == x;
      }
      if i :| 0 <= i < |invs| && invs[i].month == k {
        assert invs[i] in invs && MonthOf(invs[i]) == k;
      }
    }
  }

  /** The month before (`new Date(year, month - 1, 1)`), with the zero-based month. */
  function LastMonth(year: int, month0: nat): (r: (int, nat))
    requires month0 < 12
    ensures r.1 < 12
    ensures 12 * r.0 + r.1 == 12 * year + month0 - 1
  {
    if month0 == 0 then (year - 1, 11) else (year, month0 - 1)
  }

  /** `monthOverMonthGrowth` in percent. */
  function Growth(thisMonth: real, lastMonth: real): real {
    if lastMonth > 0.0 then (thisMonth - lastMonth) / lastMonth * 100.0
    else if thisMonth > 0.0 then 100.0 else 0.0
  }

  /** Growth is the relative change when last month had revenue; 100 when only this month has; 0 when neither has. */
  lemma GrowthSpec(thisMonth: real, lastMonth: real)
    requires thisMonth >= 0.0 && lastMonth >= 0.0
    ensures lastMonth > 0.0 ==> Growth(thisMonth, lastMonth) * lastMonth == (thisMonth - lastMonth) * 100.0
    ensures lastMonth == 0.0 && thisMonth > 0.0 ==> Growth(thisMonth, lastMonth) == 100.0
    ensures lastMonth == 0.0 && thisMonth == 0.0 ==> Growth(thisMonth, lastMonth) == 0.0
    ensures Growth(thisMonth, lastMonth) > 0.0 <==> thisMonth > lastMonth
    ensures Growth(thisMonth, lastMonth) < 0.0 <==> thisMonth < lastMonth
    ensures Growth(thisMonth, lastMonth) >= -100.0
  {
    if lastMonth > 0.0 {
      var q := (thisMonth - lastMonth) / lastMonth;
      assert q * lastMonth == thisMonth - lastMonth;
      assert q > 0.0 ==> q * lastMonth > 0.0;
      assert q <= 0.0 ==> q * lastMonth <= 0.0;
      assert q < 0.0 ==> q * lastMonth < 0.0;
      assert q >= 0.0 ==> q * lastMonth >= 0.0;
      assert q < -1.0 ==> q * lastMonth < -lastMonth;
    }
  }

  // ---------------------------------------------------------------- top customers

  /** `inv.companies?.name || 'Unknown'`. */
  function NameOf(inv: ReportInvoice): string {
    if inv.companyName != "" then inv.companyName else "Unknown"
  }

  function Descending(e: (string, real)): real {
    -e.1
  }

  /** `entries` lists each customer name of `invs` once, with its revenue, and nothing else. */
  ghost predicate IsRevenueTable(invs: seq<ReportInvoice>, entries: seq<(string, real)>) {
    && (forall a, b :: 0 <= a < b < |entries| ==> entries[a].0 != entries[b].0)
    && (forall e :: e in entries ==> e.1 == KeyRevenue(invs, NameOf, e.0) && exists inv :: inv in invs && NameOf(inv) == e.0)
    && (forall inv :: inv in invs ==> (NameOf(inv), KeyRevenue(invs, NameOf, NameOf(inv))) in entries)
  }

  /** `Object.entries(revenueByCompany)`: each customer name in the order it is first met, with its revenue. */
  function RevenueEntries(invs: seq<ReportInvoice>): seq<(string, real)> {
    var keys := FirstKeys(invs, NameOf);
    seq(|keys|, j requires 0 <= j < |keys| => (keys[j], KeyRevenue(invs, NameOf, keys[j])))
  }

  /** The top five of a revenue table: what `TopCompanies` promises. */
  lemma TopOfTable(invs: seq<ReportInvoice>, entries: seq<(string, real)>)
    requires IsRevenueTable(invs, entries)
    ensures var top := Take(SortBy(entries, Descending), 5);
      && |top| <= 5
      && (forall i, j :: 0 <= i < j < |top| ==> top[i].1 >= top[j].1)
      && (forall e :: e in top ==> e.1 == KeyRevenue(invs, NameOf, e.0) && exists inv :: inv in invs && NameOf(inv) == e.0)
      && (forall i, j :: 0 <= i < j < |top| ==> top[i].0 != top[j].0)
      && (forall inv, e :: inv in invs && e in top && (forall t :: t in top ==> t.0 != NameOf(inv)) ==> e.1 >= KeyRevenue(invs, NameOf, NameOf(inv)))
  {
    var top := Take(SortBy(entries, Descending), 5);
    TopOfEntries(entries, 5);
    forall inv, e | inv in invs && e in top && (forall t :: t in top ==> t.0 != NameOf(inv))
      ensures e.1 >= KeyRevenue(invs, NameOf, NameOf(inv))
    {
      var entry := (NameOf(inv), KeyRevenue(invs, NameOf, NameOf(inv)));
      assert entry in entries && entry !in top;
    }
  }

  /**
   * `topCompaniesByRevenue`: revenue per customer name, the dictionary's
   * entries in insertion order, stably sorted by descending revenue, the
   * first five. At most five entries, in descending order, each a name with
   * its true revenue, none twice, and every customer left out earned no more
   * than any customer shown. There are five, or every customer when
   * there are fewer.
   */
  method TopCompanies(invs: seq<ReportInvoice>) returns (top: seq<(string, real)>)
    ensures top == Take(SortBy(RevenueEntries(invs), Descending), 5)
    ensures |top| == if |FirstKeys(invs, NameOf)| < 5 then |FirstKeys(invs, NameOf)| else 5
    ensures forall i, j :: 0 <= i < j < |top| ==> top[i].1 >= top[j].1
    ensures forall e :: e in top ==> e.1 == KeyRevenue(invs, NameOf, e.0) && exists inv :: inv in invs && NameOf(inv) == e.0
    ensures forall i, j :: 0 <= i < j < |top| ==> top[i].0 != top[j].0
    ensures forall inv, e :: inv in invs && e in top && (forall t :: t in top ==> t.0 != NameOf(inv)) ==> e.1 >= KeyRevenue(invs, NameOf, NameOf(inv))
  {
    var acc, order := Tally(invs, NameOf);
    var entries := seq(|order|, j requires 0 <= j < |order| => (order[j], acc[order[j]].revenue));
    RevenueTable(invs, acc, order, entries);
    assert entries == RevenueEntries(invs) by {
      forall j | 0 <= j < |order| ensures acc[order[j]].revenue == KeyRevenue(invs, NameOf, order[j]) {
        assert order[j] in acc;
      }
    }
    top := Take(SortBy(entries, Descending), 5);
    TopOfTable(invs, entries);
  }

  /** The dictionary's entries, in the order of its keys, form the revenue table. */
  lemma RevenueTable(invs: seq<ReportInvoice>, acc: map<string, Bucket>, order: seq<string>, entries: seq<(string, real)>)
    requires IsTally(invs, NameOf, acc) && order == FirstKeys(invs, NameOf) && (forall k :: k in acc <==> k in order)
    requires |entries| == |order| && forall j :: 0 <= j < |order| ==> entries[j] == (order[j], acc[order[j]].revenue)
    ensures IsRevenueTable(invs, entries)
  {
    FirstKeysSpec(invs, NameOf);
    forall inv | inv in invs ensures (NameOf(inv), KeyRevenue(invs, NameOf, NameOf(inv))) in entries {
      var n := NameOf(inv);
      assert n in order;
      var j :| 0 <= j < |order| && order[j] == n;
      assert entries[j] == (n, KeyRevenue(invs, NameOf, n));
    }
    forall e | e in entries ensures e.1 == KeyRevenue(invs, NameOf, e.0) && exists inv :: inv in invs && NameOf(inv) == e.0 {
      var j :| 0 <= j < |entries| && entries[j] == e;
      assert order[j] in FirstKeys(invs, NameOf);
    }
  }

  /**
   * The first `n` of a list of named amounts sorted by descending amount:
   * at most `n`, in descending order, taken from the list, with distinct
   * names when the list has them, and no smaller than anything left out.
   */
  lemma TopOfEntries(entries: seq<(string, real)>, n: nat)
    requires forall a, b :: 0 <= a < b < |entries| ==> entries[a].0 != entries[b].0
    ensures var top := Take(SortBy(entries, Descending), n);
      && |top| <= n
      && (forall i, j :: 0 <= i < j < |top| ==> top[i].1 >= top[j].1)
      && (forall e :: e in top ==> e in entries)
      && (forall i, j :: 0 <= i < j < |top| ==> top[i].0 != top[j].0)
      && (forall e :: e in entries && e !in top ==> forall t :: t in top ==> t.1 >= e.1)
  {
    var sorted := SortBy(entries, Descending);
    var top := Take(sorted, n);
    forall i, j | 0 <= i < j < |top| ensures top[i].1 >= top[j].1 && top[i].0 != top[j].0 {
      assert top[i] == sorted[i] && top[j] == sorted[j];
      assert Descending(sorted[i]) <= Descending(sorted[j]);
      DistinctNamesSorted(entries, sorted, i, j);
    }
    forall e | e in top ensures e in entries {
      assert e in sorted;
      assert e in multiset(sorted);
    }
    forall e | e in entries && e !in top ensures forall t :: t in top ==> t.1 >= e.1 {
      TakeSortedMaximal(entries, Descending, n, e);
    }
  }

  /** Entries with distinct names stay so after any permutation. */
  lemma DistinctNamesSorted(entries: seq<(string, real)>, sorted: seq<(string, real)>, i: nat, j: nat)
    requires forall a, b :: 0 <= a < b < |entries| ==> entries[a].0 != entries[b].0
    requires multiset(sorted) == multiset(entries)
    requires i < j < |sorted|
    ensures sorted[i].0 != sorted[j].0
  {
    if sorted[i].0 == sorted[j].0 {
      assert sorted[i] in multiset(entries) && sorted[j] in multiset(entries);
      var a :| 0 <= a < |entries| && entries[a] == sorted[i];
      var b :| 0 <= b < |entries| && entries[b] == sorted[j];
      assert a == b;
      assert sorted[i] == sorted[j];
      var m := multiset(sorted);
      assert sorted == sorted[..i] + [sorted[i]] + sorted[i + 1..j] + [sorted[j]] + sorted[j + 1..];
      assert m[sorted[i]] >= 2;
      MultiplicityOne(entries, a);
    }
  }

  /** A name that occurs once in `entries` has its entry there exactly once. */
  lemma MultiplicityOne(entries: seq<(string, real)>, a: nat)
    requires forall x, y :: 0 <= x < y < |entries| ==> entries[x].0 != entries[y].0
    requires a < |entries|
    ensures multiset(entries)[entries[a]] == 1
  {
    var e := entries[a];
    assert entries == entries[..a] + [e] + entries[a + 1..];
    assert forall x :: 0 <= x < |entries[..a]| ==> entries[..a][x] != e;
    var after := entries[a + 1..];
    forall y | 0 <= y < |after| ensures after[y] != e {
      var z := a + 1 + y;
      assert after[y] == entries[z];
    }
  }

  // ---------------------------------------------------------------- insights

  datatype Variant = Warning | Success | Neutral | Unset

  /** An insight card: its title and its colouring. */
  datatype Insight = Insight(title: string, variant: Variant)

  /** `{ warning: 0, success: 1, neutral: 2, undefined: 2 }`. */
  function Priority(i: Insight): real {
    match i.variant
    case Warning => 0.0
    case Success => 1.0
    case Neutral => 2.0
    case Unset => 2.0
  }

  /** The cards in the order shown: sorted by priority (the sort is stable). */
  function SortInsights(xs: seq<Insight>): seq<Insight> {
    SortBy(xs, Priority)
  }

  /** The first four cards, shown before "more insights". */
  function MainInsights(xs: seq<Insight>): (r: seq<Insight>)
    ensures |r| <= 4
  {
    Take(SortInsights(xs), 4)
  }

  /**
   * Warnings first, then successes, then neutral and uncoloured cards; the
   * same cards; within one priority the order in which they were pushed; and
   * whenever there is a warning the first card shown is one.
   */
  lemma InsightOrder(xs: seq<Insight>, p: real)
    ensures var r := SortInsights(xs);
      && multiset(r) == multiset(xs)
      && (forall i, j :: 0 <= i < j < |r| ==> Priority(r[i]) <= Priority(r[j]))
      && Filter(r, KeyIs(Priority, p)) == Filter(xs, KeyIs(Priority, p))
    ensures (exists i :: 0 <= i < |xs| && xs[i].variant == Warning) ==> MainInsights(xs)[0].variant == Warning
  {
    SortStable(xs, Priority, p);
    var r := SortInsights(xs);
    if i :| 0 <= i < |xs| && xs[i].variant == Warning {
      assert xs[i] in multiset(r);
      var j :| 0 <= j < |r| && r[j] == xs[i];
      assert Priority(r[0]) <= Priority(r[j]);
    }
  }

  /** The growth card: a success when revenue is up and this month had revenue, a warning when it is down and last month had revenue. */
  function GrowthInsight(thisMonth: real, lastMonth: real): Option<Variant> {
    var g := Growth(thisMonth, lastMonth);
    if g > 0.0 && thisMonth > 0.0 then Some(Success)
    else if g < 0.0 && lastMonth > 0.0 then Some(Warning)
    else None
  }

  /** For revenues (never negative) the growth card is a success exactly when this month beat last month and a warning exactly when it fell short. */
  lemma GrowthInsightSpec(thisMonth: real, lastMonth: real)
    requires thisMonth >= 0.0 && lastMonth >= 0.0
    ensures GrowthInsight(thisMonth, lastMonth) == Some(Success) <==> thisMonth > lastMonth
    ensures GrowthInsight(thisMonth, lastMonth) == Some(Warning) <==> thisMonth < lastMonth
    ensures GrowthInsight(thisMonth, lastMonth).None? <==> thisMonth == lastMonth
  {
    GrowthSpec(thisMonth, lastMonth);
  }

  // ---------------------------------------------------------------- the page's ledger writes

  /** `paymentNote || null`: the note as typed, or none when empty. */
  function NoteAsTyped(note: string): Option<string> {
    if note != "" then Some(note) else None
  }

  /** The state of the report page that the two handlers change. */
  class ReportPage {
    var companies: seq<Company>
    var selected: Option<Company>
    var invoices: seq<ReportInvoice>
    var allInvoices: seq<ReportInvoice>
    var payments: seq<PaymentRow>

    constructor(companies: seq<Company>)
      ensures this.companies == companies && selected.None?
      ensures invoices == [] && allInvoices == [] && payments == []
    {
      this.companies := companies;
      selected := None;
      invoices := [];
      allInvoices := [];
      payments := [];
    }

    /**
     * Deleting one of the selected customer's invoices: nothing without a
     * user, a selected customer and the confirmation. Otherwise the
     * customer's balance is read and written back lower by the invoice's
     * total (clamped at 0), then the invoice is deleted, as
     * `Ledger.DeleteInvoice` does with the store's `reply`. Only when every
     * call succeeds is the invoice dropped from both invoice lists and the
     * new balance shown for that customer.
     */
    method DeleteInvoice(l: Ledger, inv: ReportInvoice, loggedIn: bool, confirmed: bool, now: string, reply: StoreReply) returns (ok: bool)
      requires l.Valid()
      modifies this, l
      ensures l.Valid()
      ensures ok <==> loggedIn && old(selected).Some? && confirmed && old(selected).value.id in old(l.pending) && Succeeds(reply, 3)
      ensures !(loggedIn && old(selected).Some? && confirmed) ==> unchanged(l)
      ensures loggedIn && old(selected).Some? && confirmed ==>
        var c := old(selected).value.id;
        var written := Succeeds(reply, 2) && c in old(l.pending);
        && l.pending == (if written then old(l.pending)[c := DeletePending(old(l.pending)[c], inv.row.total)] else old(l.pending))
        && l.lastTransaction == (if written then old(l.lastTransaction)[c := now] else old(l.lastTransaction))
      ensures l.invoices == if ok then Filter(old(l.invoices), (i: InvoiceRow) => i.id != inv.row.id) else old(l.invoices)
      ensures l.lines == if ok then Filter(old(l.lines), (r: LineRow) => r.invoiceId != inv.row.id) else old(l.lines)
      ensures l.payments == old(l.payments) && l.deletedAt == old(l.deletedAt)
      ensures !ok ==> companies == old(companies) && selected == old(selected) && invoices == old(invoices) && allInvoices == old(allInvoices)
      ensures ok ==> var c := old(selected).value;
        var next := DeletePending(old(l.pending)[c.id], inv.row.total);
        && selected == Some(c.(pendingAmount := next, lastTransaction := Some(now)))
        && companies == SetPendingIn(old(companies), c.id, next, now)
        && invoices == Filter(old(invoices), OtherThan(inv.row.id))
        && allInvoices == Filter(old(allInvoices), OtherThan(inv.row.id))
      ensures payments == old(payments)
    {
      if !loggedIn || selected.None? || !confirmed {
        return false;
      }
      var c := selected.value;
      var next;
      ok, next := l.DeleteInvoice(inv.row.(companyId := c.id), now, reply);
      if ok {
        ShowDeleted(c, inv.row.id, next, now);
      }
    }

    /** After a delete: the invoice leaves both lists and the customer shows the new balance. */
    method ShowDeleted(c: Company, invoiceId: string, next: real, now: string)
      modifies this
      ensures selected == Some(c.(pendingAmount := next, lastTransaction := Some(now)))
      ensures companies == SetPendingIn(old(companies), c.id, next, now)
      ensures invoices == Filter(old(invoices), OtherThan(invoiceId))
      ensures allInvoices == Filter(old(allInvoices), OtherThan(invoiceId))
      ensures payments == old(payments)
    {
      invoices := Filter(invoices, OtherThan(invoiceId));
      allInvoices := Filter(allInvoices, OtherThan(invoiceId));
      selected := Some(c.(pendingAmount := next, lastTransaction := Some(now)));
      companies := SetPendingIn(companies, c.id, next, now);
    }

    /**
     * Recording a payment from the payment dialog: nothing without a user
     * and a selected customer; the typed amount (no comma handling) is
     * checked against the selected customer's balance as shown; an accepted
     * payment is journalled and written to the balance, as
     * `Ledger.RecordPayment` does with the store's `reply`. Only when both
     * calls succeed (`done`) is the new balance shown for the customer and
     * the payment put at the head of the page's payment list with the same
     * pair of balances (under a local id made from the clock in
     * milliseconds).
     */
    method RecordPayment(l: Ledger, loggedIn: bool, amountText: string, note: string, paymentId: string, nowMs: nat, now: string, reply: StoreReply)
      returns (o: RecordOutcome, done: bool)
      requires l.Valid()
      modifies this, l
      ensures l.Valid()
      ensures o.Ignored? <==> !loggedIn || old(selected).None?
      ensures o.Ignored? ==> unchanged(l)
      ensures o.Checked? ==> o.result == CheckPayment(ParseNumber(amountText), old(selected).value.pendingAmount)
      ensures done <==> o.Checked? && o.result.Recorded? && Succeeds(reply, 2)
      ensures o.Checked? ==>
        var c := old(selected).value;
        && l.payments == (if o.result.Recorded? && Succeeds(reply, 1)
                          then old(l.payments) + [PaymentRow(paymentId, c.id, ParseNumber(amountText).value, c.pendingAmount, o.result.next, NoteAsTyped(note))]
                          else old(l.payments))
        && l.pending == (if done && c.id in old(l.pending) then old(l.pending)[c.id := o.result.next] else old(l.pending))
        && l.lastTransaction == (if done && c.id in old(l.pending) then old(l.lastTransaction)[c.id := now] else old(l.lastTransaction))
      ensures l.invoices == old(l.invoices) && l.lines == old(l.lines) && l.deletedAt == old(l.deletedAt)
      ensures !done ==> companies == old(companies) && selected == old(selected) && payments == old(payments)
      ensures done ==>
        var c := old(selected).value;
        var amount := ParseNumber(amountText).value;
        var next := o.result.next;
        && payments == [PaymentRow("local-" + NatDigits(nowMs), c.id, amount, c.pendingAmount, next, NoteAsTyped(note))] + old(payments)
        && selected == Some(c.(pendingAmount := next, lastTransaction := Some(now)))
        && companies == SetPendingIn(old(companies), c.id, next, now)
      ensures invoices == old(invoices) && allInvoices == old(allInvoices)
    {
      if !loggedIn || selected.None? {
        return Ignored, false;
      }
      var c := selected.value;
      var amount := ParseNumber(amountText);
      var result;
      result, done := l.RecordPayment(paymentId, c.id, amount, c.pendingAmount, NoteAsTyped(note), now, reply);
      o := Checked(result);
      if done {
        selected := Some(c.(pendingAmount := result.next, lastTransaction := Some(now)));
        companies := SetPendingIn(companies, c.id, result.next, now);
        payments := [PaymentRow("local-" + NatDigits(nowMs), c.id, amount.value, c.pendingAmount, result.next, NoteAsTyped(note))] + payments;
      }
    }
  }
}
