/** The sales report (`reportData` in App.tsx): the ledger filtered by an
    inclusive time window, an optional customer query and an optional
    product id, its totals, and the filtered sales newest first. The report
    is a pure function of the ledger and the filters. */
module Reports {

  import opened Types
  import opened Seqs
  import opened Text

  /** The report's inputs. `startMillis` is the instant of 00:00:00.000 of
      the from-day and `endMillis` that of 23:59:59.999 of the to-day, which
      `EndOfDay` gives from the to-day's midnight (`DayWindow` says what such
      a window holds); the date-to-instant step itself is an input. An empty
      `productId` means "all products". */
  datatype Filters = Filters(startMillis: int, endMillis: int, customerQuery: string, productId: string)

  datatype Report = Report(sales: seq<Sale>, revenue: int, cost: int, profit: int, count: int)

  const MillisPerDay: int := 24 * 60 * 60 * 1000

  /** `setHours(23, 59, 59, 999)` on the day that starts at `midnight`. */
  function EndOfDay(midnight: int): (e: int)
    ensures midnight < e < midnight + MillisPerDay
    ensures e + 1 == midnight + MillisPerDay
  {
    midnight + 23 * 3600000 + 59 * 60000 + 59 * 1000 + 999
  }

  predicate InWindow(s: Sale, startMillis: int, endMillis: int) {
    startMillis <= s.timestamp <= endMillis
  }

  /** The window from one midnight to the end of another day holds exactly
      the sales from the first midnight up to, and not including, the
      midnight after the last day. */
  lemma DayWindow(fromMidnight: int, toMidnight: int, s: Sale)
    ensures InWindow(s, fromMidnight, EndOfDay(toMidnight))
        <==> fromMidnight <= s.timestamp < toMidnight + MillisPerDay
  {
  }

  /** The customer test: a non-empty full name or id card whose normalised
      text contains the normalised query `cq`. A sale without a customer
      never matches. */
  predicate MatchesCustomer(s: Sale, cq: string, normalize: string -> string) {
    s.customer.Some? &&
    ((s.customer.value.fullName != "" && Contains(normalize(s.customer.value.fullName), cq)) ||
     (s.customer.value.idCard != "" && Contains(normalize(s.customer.value.idCard), cq)))
  }

  function WindowTest(startMillis: int, endMillis: int): Sale -> bool {
    s => InWindow(s, startMillis, endMillis)
  }

  function CustomerTest(cq: string, normalize: string -> string): Sale -> bool {
    s => MatchesCustomer(s, cq, normalize)
  }

  function ProductTest(productId: string): Sale -> bool {
    (s: Sale) => s.productId == productId
  }

  /** The three successive filters of the source. */
  function Filtered(ledger: seq<Sale>, f: Filters, normalize: string -> string): (r: seq<Sale>)
    ensures |r| <= |ledger|
    ensures forall x :: x in r ==> x in ledger && InWindow(x, f.startMillis, f.endMillis)
    ensures f.productId != "" ==> forall x :: x in r ==> x.productId == f.productId
  {
    var inWindow := Filter(ledger, WindowTest(f.startMillis, f.endMillis));
    var byCustomer :=
      if IsBlank(f.customerQuery) then inWindow
      else Filter(inWindow, CustomerTest(normalize(f.customerQuery), normalize));
    if f.productId == "" then byCustomer else Filter(byCustomer, ProductTest(f.productId))
  }

  /** The reference definition: the one condition a sale must meet to be
      reported. */
  predicate Selected(s: Sale, f: Filters, normalize: string -> string) {
    && InWindow(s, f.startMillis, f.endMillis)
    && (IsBlank(f.customerQuery) || MatchesCustomer(s, normalize(f.customerQuery), normalize))
    && (f.productId == "" || s.productId == f.productId)
  }

  function SelectedTest(f: Filters, normalize: string -> string): Sale -> bool {
    s => Selected(s, f, normalize)
  }

  /** The three passes select exactly what the one condition selects, in
      ledger order. */
  lemma {:induction false} FilteredIsOnePass(ledger: seq<Sale>, f: Filters, normalize: string -> string)
    ensures Filtered(ledger, f, normalize) == Filter(ledger, SelectedTest(f, normalize))
  {
    if ledger != [] {
      FilteredIsOnePass(ledger[1..], f, normalize);
    }
  }

  function SaleTotal(s: Sale): int { s.totalAmount }

  function SaleCost(s: Sale): int { s.purchasePrice * s.quantity }

  /** Newest first: timestamps never increase along the list. */
  predicate NewestFirst(s: seq<Sale>) {
    forall i, j :: 0 <= i < j < |s| ==> s[i].timestamp >= s[j].timestamp
  }

  /** A sale at least as new as every sale of a newest-first list can go in
      front of it. */
  lemma NewestFirstCons(h: Sale, t: seq<Sale>)
    requires NewestFirst(t)
    requires forall k :: 0 <= k < |t| ==> h.timestamp >= t[k].timestamp
    ensures NewestFirst([h] + t)
  {
    forall i, j | 0 <= i < j < |[h] + t| ensures ([h] + t)[i].timestamp >= ([h] + t)[j].timestamp {
      assert ([h] + t)[j] == t[j - 1];
      if i > 0 {
        assert ([h] + t)[i] == t[i - 1];
      }
    }
  }

  /** The head of a newest-first list is at least as new as any later sale. */
  lemma HeadIsNewest(sorted: seq<Sale>, y: Sale)
    requires NewestFirst(sorted) && sorted != [] && y in sorted[1..]
    ensures sorted[0].timestamp >= y.timestamp
  {
    var m :| 0 <= m < |sorted[1..]| && sorted[1..][m] == y;
    assert sorted[m + 1] == y;
  }

  /** Inserts `x` before the first sale that is not strictly newer, so that
      `x` stays ahead of the sales with its own timestamp. */
  function InsertNewest(x: Sale, sorted: seq<Sale>): (r: seq<Sale>)
    requires NewestFirst(sorted)
    ensures NewestFirst(r)
    ensures multiset(r) == multiset{x} + multiset(sorted)
    ensures forall y :: y in r ==> y == x || y in sorted
  {
    if sorted == [] then [x]
    else if sorted[0].timestamp > x.timestamp then
      assert sorted == [sorted[0]] + sorted[1..];
      var rest := InsertNewest(x, sorted[1..]);
      assert forall k :: 0 <= k < |rest| ==> sorted[0].timestamp >= rest[k].timestamp by {
        forall k | 0 <= k < |rest| ensures sorted[0].timestamp >= rest[k].timestamp {
          assert rest[k] in rest;
          if rest[k] != x {
            HeadIsNewest(sorted, rest[k]);
          }
        }
      }
      NewestFirstCons(sorted[0], rest);
      [sorted[0]] + rest
    else
      NewestFirstCons(x, sorted);
      [x] + sorted
  }

  /** `filtered.sort((a, b) => b.timestamp - a.timestamp)`: a stable sort,
      newest first. */
  function SortNewestFirst(s: seq<Sale>): (r: seq<Sale>)
    ensures NewestFirst(r)
    ensures multiset(r) == multiset(s)
  {
    if s == [] then []
    else
      assert s == [s[0]] + s[1..];
      InsertNewest(s[0], SortNewestFirst(s[1..]))
  }

  function AtTime(t: int): Sale -> bool {
    (s: Sale) => s.timestamp == t
  }

  lemma {:induction false} InsertKeepsTies(x: Sale, sorted: seq<Sale>, t: int)
    requires NewestFirst(sorted)
    ensures Filter(InsertNewest(x, sorted), AtTime(t)) == Filter([x] + sorted, AtTime(t))
  {
    if sorted != [] && sorted[0].timestamp > x.timestamp {
      var y, rest := sorted[0], sorted[1..];
      var keep := AtTime(t);
      var inserted := InsertNewest(x, rest);
      InsertKeepsTies(x, rest, t);
      assert InsertNewest(x, sorted) == [y] + inserted;
      assert ([y] + inserted)[1..] == inserted;
      assert ([x] + rest)[1..] == rest;
      assert ([x] + sorted)[1..] == sorted;
      if keep(y) {
        assert !keep(x);
        assert Filter([y] + inserted, keep) == [y] + Filter(inserted, keep);
        assert Filter(inserted, keep) == Filter(rest, keep);
        assert Filter([x] + sorted, keep) == Filter(sorted, keep);
        assert Filter(sorted, keep) == [y] + Filter(rest, keep);
      } else {
        assert Filter([y] + inserted, keep) == Filter(inserted, keep);
        assert Filter(sorted, keep) == Filter(rest, keep);
      }
    }
  }

  /** Stability: among the sales of any one timestamp the sorted list keeps
      the order they had before sorting. */
  lemma {:induction false} SortKeepsTies(s: seq<Sale>, t: int)
    ensures Filter(SortNewestFirst(s), AtTime(t)) == Filter(s, AtTime(t))
  {
    if s != [] {
      SortKeepsTies(s[1..], t);
      InsertKeepsTies(s[0], SortNewestFirst(s[1..]), t);
      assert ([s[0]] + SortNewestFirst(s[1..]))[1..] == SortNewestFirst(s[1..]);
    }
  }

  lemma {:induction false} InsertSum(x: Sale, sorted: seq<Sale>, g: Sale -> int)
    requires NewestFirst(sorted)
    ensures SumOf(InsertNewest(x, sorted), g) == g(x) + SumOf(sorted, g)
  {
    if sorted != [] && sorted[0].timestamp > x.timestamp {
      InsertSum(x, sorted[1..], g);
      assert ([sorted[0]] + InsertNewest(x, sorted[1..]))[1..] == InsertNewest(x, sorted[1..]);
    } else if sorted != [] {
      assert ([x] + sorted)[1..] == sorted;
    }
  }

  /** Sorting does not change a sum over the sales. */
  lemma {:induction false} SortSum(s: seq<Sale>, g: Sale -> int)
    ensures SumOf(SortNewestFirst(s), g) == SumOf(s, g)
  {
    if s != [] {
      SortSum(s[1..], g);
      InsertSum(s[0], SortNewestFirst(s[1..]), g);
    }
  }

  /** `reportData`. The listed sales are the selected ledger sales,
      rearranged newest first, and the totals are sums over that very list. */
  function BuildReport(ledger: seq<Sale>, f: Filters, normalize: string -> string): (r: Report)
    ensures multiset(r.sales) == multiset(Filter(ledger, SelectedTest(f, normalize)))
    ensures NewestFirst(r.sales)
    ensures r.revenue == SumOf(r.sales, SaleTotal)
    ensures r.cost == SumOf(r.sales, SaleCost)
    ensures r.profit == r.revenue - r.cost
    ensures r.count == |r.sales|
  {
    var filtered := Filtered(ledger, f, normalize);
    var revenue := SumOf(filtered, SaleTotal);
    var cost := SumOf(filtered, SaleCost);
    FilteredIsOnePass(ledger, f, normalize);
    SortSum(filtered, SaleTotal);
    SortSum(filtered, SaleCost);
    assert |SortNewestFirst(filtered)| == |multiset(SortNewestFirst(filtered))|;
    Report(SortNewestFirst(filtered), revenue, cost, revenue - cost, |filtered|)
  }

  /** A sale is reported exactly when it is in the ledger and meets every
      filter. */
  lemma ReportContents(ledger: seq<Sale>, f: Filters, normalize: string -> string, x: Sale)
    ensures x in BuildReport(ledger, f, normalize).sales <==> x in ledger && Selected(x, f, normalize)
  {
    var r := BuildReport(ledger, f, normalize);
    FilterMembership(ledger, SelectedTest(f, normalize), x);
    assert x in r.sales <==> x in multiset(r.sales);
  }

  /** What each filter guarantees about every reported sale. */
  lemma ReportRespectsFilters(ledger: seq<Sale>, f: Filters, normalize: string -> string, x: Sale)
    requires x in BuildReport(ledger, f, normalize).sales
    ensures x in ledger
    ensures f.startMillis <= x.timestamp <= f.endMillis
    ensures f.productId != "" ==> x.productId == f.productId
    ensures !IsBlank(f.customerQuery) ==>
      x.customer.Some? && (x.customer.value.fullName != "" || x.customer.value.idCard != "")
  {
    ReportContents(ledger, f, normalize, x);
  }

  /** With a blank query and no product the report lists the whole window. */
  lemma NoFiltersKeepWindow(ledger: seq<Sale>, f: Filters, normalize: string -> string)
    requires IsBlank(f.customerQuery) && f.productId == ""
    ensures multiset(BuildReport(ledger, f, normalize).sales)
         == multiset(Filter(ledger, WindowTest(f.startMillis, f.endMillis)))
  {
    FilteredIsOnePass(ledger, f, normalize);
  }

  /** Nothing selected: all totals are zero. */
  lemma ReportEmpty(ledger: seq<Sale>, f: Filters, normalize: string -> string)
    requires forall i :: 0 <= i < |ledger| ==> !Selected(ledger[i], f, normalize)
    ensures BuildReport(ledger, f, normalize) == Report([], 0, 0, 0, 0)
  {
    FilterNone(ledger, SelectedTest(f, normalize));
    var r := BuildReport(ledger, f, normalize);
    assert |r.sales| == |multiset(r.sales)|;
  }

  /** Among sales with the same timestamp the report keeps ledger order. */
  lemma ReportKeepsTies(ledger: seq<Sale>, f: Filters, normalize: string -> string, t: int)
    ensures Filter(BuildReport(ledger, f, normalize).sales, AtTime(t))
         == Filter(Filter(ledger, SelectedTest(f, normalize)), AtTime(t))
  {
    FilteredIsOnePass(ledger, f, normalize);
    SortKeepsTies(Filtered(ledger, f, normalize), t);
  }

  /** Prepending a sale to the ledger, as a confirmed sale does, adds it to
      the totals exactly when it meets the filters. */
  lemma ReportAfterNewSale(ledger: seq<Sale>, x: Sale, f: Filters, normalize: string -> string)
    ensures var before := BuildReport(ledger, f, normalize);
            var after := BuildReport([x] + ledger, f, normalize);
            && after.revenue == before.revenue + (if Selected(x, f, normalize) then x.totalAmount else 0)
            && after.cost == before.cost + (if Selected(x, f, normalize) then x.purchasePrice * x.quantity else 0)
            && after.count == before.count + (if Selected(x, f, normalize) then 1 else 0)
  {
    var keep := SelectedTest(f, normalize);
    FilteredIsOnePass(ledger, f, normalize);
    FilteredIsOnePass([x] + ledger, f, normalize);
    FilterConcat([x], ledger, keep);
    SortSum(Filter(ledger, keep), SaleTotal);
    SortSum(Filter([x] + ledger, keep), SaleTotal);
    SortSum(Filter(ledger, keep), SaleCost);
    SortSum(Filter([x] + ledger, keep), SaleCost);
    SumConcat(Filter([x], keep), Filter(ledger, keep), SaleTotal);
    SumConcat(Filter([x], keep), Filter(ledger, keep), SaleCost);
  }
}
