/**
  The reports page (src/pages/Reports.jsx): the statistics over the stored shipments (totals, totals
  for the current month, the best and worst customer by profit) and the search filter of the table.
 */
module Reports {
  import opened Base
  import opened Text
  import opened Records
  import opened Tally
  import StableSort

  /* ---------- reference definitions of the figures ---------- */

  /** `createdAt` falls in the given month (0-11) of the given year; a record without a date never does. */
  predicate InMonth(s: Shipment, month: int, year: int): (ok: bool)
    ensures ok ==> s.createdAt.Some?
  {
    s.createdAt.Some? && s.createdAt.value.month == month && s.createdAt.value.year == year
  }

  /**
    `s.customerName || 'Unknown'`: never empty; a shipment without a customer name, or with an empty
    one, is counted under 'Unknown', together with any customer actually named so.
   */
  function CustomerKey(s: Shipment): (k: string)
    ensures k != ""
    ensures s.customerName.Some? && s.customerName.value != "" ==> k == s.customerName.value
    ensures k != "Unknown" ==> s.customerName == Some(k)
  {
    if s.customerName.Some? && s.customerName.value != "" then s.customerName.value else "Unknown"
  }

  /** The shipments created in the given month, in their order. */
  function ThisMonth(data: seq<Shipment>, month: int, year: int): (r: seq<Shipment>)
    ensures forall s :: s in r <==> s in data && InMonth(s, month, year)
  {
    if |data| == 0 then []
    else
      var init := ThisMonth(data[..|data| - 1], month, year);
      assert forall s :: s in data <==> s in data[..|data| - 1] || s == data[|data| - 1];
      if InMonth(data[|data| - 1], month, year) then init + [data[|data| - 1]] else init
  }

  function MonthSavings(data: seq<Shipment>, month: int, year: int): real {
    if |data| == 0 then 0.0
    else
      var s := data[|data| - 1];
      MonthSavings(data[..|data| - 1], month, year) + (if InMonth(s, month, year) then SavingsOf(s) else 0.0)
  }

  function MonthProfit(data: seq<Shipment>, month: int, year: int): real {
    if |data| == 0 then 0.0
    else
      var s := data[|data| - 1];
      MonthProfit(data[..|data| - 1], month, year) + (if InMonth(s, month, year) then ProfitOf(s) else 0.0)
  }

  /** One item per shipment: its customer key weighted by its profit. */
  function ProfitItems(data: seq<Shipment>): (items: seq<Entry>)
    ensures |items| == |data|
    ensures forall i :: 0 <= i < |data| ==> items[i] == Entry(CustomerKey(data[i]), ProfitOf(data[i]))
  {
    seq(|data|, i requires 0 <= i < |data| => Entry(CustomerKey(data[i]), ProfitOf(data[i])))
  }

  /** `customerProfits`: profit per customer, customers in the order they were first met. */
  function CustomerProfits(data: seq<Shipment>): seq<Entry> {
    TallyOf(ProfitItems(data))
  }

  /** A customer as the report shows one, or the '-' placeholder. */
  datatype Standing = NoCustomer | Customer(name: string, profit: real)

  /** The entry chosen, shown as the page shows it: a customer literally named '-' is shown as '-'. */
  function Shown(t: seq<Entry>, k: int): Standing
    requires 0 <= k < |t|
  {
    if t[k].key == "-" then NoCustomer else Customer(t[k].key, t[k].value)
  }

  /** The customer of highest total profit; the first such on a tie. */
  function BestCustomer(t: seq<Entry>): Standing {
    if |t| == 0 then NoCustomer else Shown(t, StableSort.FirstMin(t, Negated))
  }

  /** The customer of lowest total profit; the first such on a tie. */
  function WorstCustomer(t: seq<Entry>): Standing {
    if |t| == 0 then NoCustomer else Shown(t, StableSort.FirstMin(t, Value))
  }

  datatype ReportStats = ReportStats(totalSavings: real, totalProfit: real, monthSavings: real, monthProfit: real,
                                     bestCustomer: Standing, worstCustomer: Standing)

  /* ---------- the computation as the page runs it ---------- */

  /**
    `calculateStats`: one pass accumulating the four sums and the per-customer profits, then one pass
    over the customers picking the best and the worst. `month`/`year` stand for the current date.
   */
  method CalculateStats(data: seq<Shipment>, month: int, year: int) returns (stats: ReportStats)
    ensures stats.totalSavings == TotalSavings(data) && stats.totalProfit == TotalProfit(data)
    ensures stats.monthSavings == MonthSavings(data, month, year) && stats.monthProfit == MonthProfit(data, month, year)
    ensures stats.bestCustomer == BestCustomer(CustomerProfits(data))
    ensures stats.worstCustomer == WorstCustomer(CustomerProfits(data))
  {
    var totalSavings, totalProfit, monthSavings, monthProfit, names, profits := Accumulate(data, month, year);
    var bestCustomer, worstCustomer := PickStandings(CustomerProfits(data), names, profits);
    stats := ReportStats(totalSavings, totalProfit, monthSavings, monthProfit, bestCustomer, worstCustomer);
  }

  /**
    The `data.forEach` pass of `calculateStats`: the four sums, and the per-customer profits in an
    insertion-ordered dictionary, held as its key order `names` and its contents `profits`.
   */
  method Accumulate(data: seq<Shipment>, month: int, year: int)
    returns (totalSavings: real, totalProfit: real, monthSavings: real, monthProfit: real,
             names: seq<string>, profits: map<string, real>)
    ensures totalSavings == TotalSavings(data) && totalProfit == TotalProfit(data)
    ensures monthSavings == MonthSavings(data, month, year) && monthProfit == MonthProfit(data, month, year)
    ensures Holds(CustomerProfits(data), names, profits)
  {
    totalSavings, totalProfit, monthSavings, monthProfit := 0.0, 0.0, 0.0, 0.0;
    names, profits := [], map[];
    for i := 0 to |data|
      invariant totalSavings == TotalSavings(data[..i]) && totalProfit == TotalProfit(data[..i])
      invariant monthSavings == MonthSavings(data[..i], month, year) && monthProfit == MonthProfit(data[..i], month, year)
      invariant Holds(CustomerProfits(data[..i]), names, profits)
    {
      var s := data[i];
      assert data[..i + 1][..i] == data[..i];
      var profit := ProfitOf(s);
      var savings := SavingsOf(s);
      totalSavings := totalSavings + savings;
      totalProfit := totalProfit + profit;
      if InMonth(s, month, year) {
        monthSavings := monthSavings + savings;
        monthProfit := monthProfit + profit;
      }
      CustomerProfitsStep(data, i);
      TallyDistinct(ProfitItems(data[..i]));
      names, profits := AddProfit(CustomerProfits(data[..i]), names, profits, CustomerKey(s), profit);
    }
    assert data[..|data|] == data;
  }

  /**
    `if (!customerProfits[customer]) customerProfits[customer] = 0; customerProfits[customer] += profit;`
    on the dictionary held as `names` and `profits`: the dictionary then holds the tally with the profit added.
   */
  method AddProfit(ghost t: seq<Entry>, names: seq<string>, profits: map<string, real>, customer: string, profit: real)
    returns (names': seq<string>, profits': map<string, real>)
    requires Holds(t, names, profits) && DistinctKeys(t)
    ensures Holds(Bump(t, customer, profit), names', profits')
  {
    if customer in profits {
      HoldsExisting(t, names, profits, customer, profit);
    } else {
      HoldsFresh(t, names, profits, customer, profit);
    }
    names', profits' := names, profits;
    if customer !in profits' || profits'[customer] == 0.0 {
      if customer !in profits' {
        names' := names' + [customer];
      }
      profits' := profits'[customer := 0.0];
    }
    profits' := profits'[customer := profits'[customer] + profit];
  }

  /** The dictionary given by its key order `names` and contents `profits` holds the tally `t`. */
  ghost predicate Holds(t: seq<Entry>, names: seq<string>, profits: map<string, real>) {
    && |names| == |t|
    && (forall j :: 0 <= j < |t| ==> names[j] == t[j].key && names[j] in profits && profits[names[j]] == t[j].value)
    && (forall c :: c in profits ==> c in names)
  }

  /** `acc[k] = (acc[k] || 0) + w` for a key the dictionary lacks: a new key, appended at the end. */
  lemma HoldsFresh(t: seq<Entry>, names: seq<string>, profits: map<string, real>, k: string, w: real)
    requires Holds(t, names, profits) && k !in profits
    ensures Holds(Bump(t, k, w), names + [k], profits[k := 0.0][k := w])
  {
    assert forall j :: 0 <= j < |t| ==> t[j].key != k;
    BumpFresh(t, k, w);
  }

  /** `acc[k] = (acc[k] || 0) + w` for a key the dictionary has: its value grows in place. */
  lemma HoldsExisting(t: seq<Entry>, names: seq<string>, profits: map<string, real>, k: string, w: real)
    requires Holds(t, names, profits) && DistinctKeys(t) && k in profits
    ensures Holds(Bump(t, k, w), names, profits[k := profits[k] + w])
  {
    var j :| 0 <= j < |names| && names[j] == k;
    BumpExisting(t, k, w, j);
    var r := t[j := Entry(k, t[j].value + w)];
    var p := profits[k := profits[k] + w];
    assert profits[k] == t[j].value;
    forall i | 0 <= i < |r|
      ensures names[i] == r[i].key && names[i] in p && p[names[i]] == r[i].value
    {
      if i < j {
        assert t[i].key != t[j].key;
      } else if j < i {
        assert t[j].key != t[i].key;
      }
    }
  }

  lemma CustomerProfitsStep(data: seq<Shipment>, i: nat)
    requires i < |data|
    ensures CustomerProfits(data[..i + 1]) == Bump(CustomerProfits(data[..i]), CustomerKey(data[i]), ProfitOf(data[i]))
  {
    assert data[..i + 1][..i] == data[..i];
    assert ProfitItems(data[..i + 1])[..i] == ProfitItems(data[..i]);
  }

  /**
    The `Object.entries(customerProfits).forEach` pass of `calculateStats`: keeps the first strictly
    higher and the first strictly lower total; `None` stands for the starting -Infinity / Infinity.
   */
  method PickStandings(ghost t: seq<Entry>, names: seq<string>, profits: map<string, real>)
    returns (bestCustomer: Standing, worstCustomer: Standing)
    requires Holds(t, names, profits)
    ensures bestCustomer == BestCustomer(t) && worstCustomer == WorstCustomer(t)
  {
    bestCustomer, worstCustomer := NoCustomer, NoCustomer;
    var maxProfit: Option<real> := None;
    var minProfit: Option<real> := None;
    ghost var bestAt, worstAt := 0, 0;
    for k := 0 to |names|
      invariant k == 0 ==> maxProfit.None? && minProfit.None? && bestCustomer.NoCustomer? && worstCustomer.NoCustomer?
      invariant k > 0 ==> StableSort.IsFirstMin(t[..k], Negated, bestAt) && maxProfit == Some(t[bestAt].value)
      invariant k > 0 ==> StableSort.IsFirstMin(t[..k], Value, worstAt) && minProfit == Some(t[worstAt].value)
      invariant k > 0 ==> bestCustomer == Shown(t, bestAt) && worstCustomer == Shown(t, worstAt)
    {
      var profit := profits[names[k]];
      StableSort.FirstMinExtend(t, Negated, k, bestAt);
      StableSort.FirstMinExtend(t, Value, k, worstAt);
      if maxProfit.None? || profit > maxProfit.value {
        maxProfit := Some(profit);
        bestCustomer := if names[k] == "-" then NoCustomer else Customer(names[k], profit);
        bestAt := k;
      }
      if minProfit.None? || profit < minProfit.value {
        minProfit := Some(profit);
        worstCustomer := if names[k] == "-" then NoCustomer else Customer(names[k], profit);
        worstAt := k;
      }
    }
    if |names| > 0 {
      assert t[..|names|] == t;
      FirstMinUnique(t, Negated, StableSort.FirstMin(t, Negated), bestAt);
      FirstMinUnique(t, Value, StableSort.FirstMin(t, Value), worstAt);
    }
  }

  /** Two positions that are both "first of minimal key" are the same position. */
  lemma FirstMinUnique(t: seq<Entry>, key: Entry -> real, a: int, b: int)
    requires StableSort.IsFirstMin(t, key, a) && StableSort.IsFirstMin(t, key, b)
    ensures a == b
  {
    assert key(t[a]) <= key(t[b]) && key(t[b]) <= key(t[a]);
    assert !(a < b);
    assert !(b < a);
  }

  /* ---------- what the figures mean ---------- */

  /** Totals are additive: the figures of a collection split in two are the sums of the parts' figures. */
  lemma {:induction false} TotalsAdd(a: seq<Shipment>, b: seq<Shipment>)
    ensures TotalProfit(a + b) == TotalProfit(a) + TotalProfit(b)
    ensures TotalSavings(a + b) == TotalSavings(a) + TotalSavings(b)
    decreases |b|
  {
    if |b| == 0 {
      assert a + b == a;
    } else {
      assert (a + b)[..|a + b| - 1] == a + b[..|b| - 1];
      TotalsAdd(a, b[..|b| - 1]);
    }
  }

  /** The month figures are the total figures of the shipments created in that month. */
  lemma {:induction false} MonthIsTotalOfMonth(data: seq<Shipment>, month: int, year: int)
    ensures MonthProfit(data, month, year) == TotalProfit(ThisMonth(data, month, year))
    ensures MonthSavings(data, month, year) == TotalSavings(ThisMonth(data, month, year))
  {
    if |data| > 0 {
      var init := data[..|data| - 1];
      var s := data[|data| - 1];
      MonthIsTotalOfMonth(init, month, year);
      if InMonth(s, month, year) {
        TotalsAdd(ThisMonth(init, month, year), [s]);
        assert [s][..0] == [];
      }
    }
  }

  lemma {:induction false} ProfitItemsPrefix(data: seq<Shipment>, n: nat)
    requires n <= |data|
    ensures ProfitItems(data[..n]) == ProfitItems(data)[..n]
  {
  }

  lemma {:induction false} ProfitWeights(data: seq<Shipment>)
    ensures SumWeights(ProfitItems(data)) == TotalProfit(data)
  {
    if |data| > 0 {
      var init := data[..|data| - 1];
      ProfitWeights(init);
      ProfitItemsPrefix(data, |data| - 1);
    }
  }

  /** The customers' profits add up to the total profit. */
  lemma CustomerProfitsSumToTotal(data: seq<Shipment>)
    ensures SumValues(CustomerProfits(data)) == TotalProfit(data)
  {
    TallyTotal(ProfitItems(data));
    ProfitWeights(data);
  }

  /** The profit of one customer: the total profit of the shipments filed under that customer. */
  function ProfitOfCustomer(data: seq<Shipment>, name: string): real {
    if |data| == 0 then 0.0
    else
      var s := data[|data| - 1];
      ProfitOfCustomer(data[..|data| - 1], name) + (if CustomerKey(s) == name then ProfitOf(s) else 0.0)
  }

  lemma {:induction false} ProfitItemsWeight(data: seq<Shipment>, name: string)
    ensures WeightOf(ProfitItems(data), name) == ProfitOfCustomer(data, name)
  {
    if |data| > 0 {
      ProfitItemsWeight(data[..|data| - 1], name);
      ProfitItemsPrefix(data, |data| - 1);
    }
  }

  /**
    Every customer entry holds the profit of that customer's shipments, each customer appears once,
    and the customers are exactly the keys of the shipments (a missing or empty name is 'Unknown').
   */
  lemma CustomerProfitsMeaning(data: seq<Shipment>, j: nat)
    requires j < |CustomerProfits(data)|
    ensures var t := CustomerProfits(data);
      && DistinctKeys(t)
      && t[j].value == ProfitOfCustomer(data, t[j].key)
      && exists i :: 0 <= i < |data| && CustomerKey(data[i]) == t[j].key
  {
    var items := ProfitItems(data);
    var t := CustomerProfits(data);
    TallyDistinct(items);
    ValueAtEntry(t, j);
    TallyValue(items, t[j].key);
    ProfitItemsWeight(data, t[j].key);
    TallyKeySet(items, t[j].key);
    assert Keys(t)[j] == t[j].key;
    var i :| 0 <= i < |items| && items[i].key == t[j].key;
  }

  /** The best customer has the highest total profit; every customer before it in order has less. */
  lemma BestCustomerIsFirstHighest(t: seq<Entry>)
    requires |t| > 0
    ensures exists k :: IsFirstMax(t, k) && BestCustomer(t) == Shown(t, k)
  {
    var k := StableSort.FirstMin(t, Negated);
    NegatedFirstMin(t, k);
  }

  /** The worst customer has the lowest total profit; every customer before it in order has more. */
  lemma WorstCustomerIsFirstLowest(t: seq<Entry>)
    requires |t| > 0
    ensures exists k :: StableSort.IsFirstMin(t, Value, k) && WorstCustomer(t) == Shown(t, k)
  {
    var k := StableSort.FirstMin(t, Value);
    assert StableSort.IsFirstMin(t, Value, k);
  }

  /** With no shipments every figure is zero and both customers show '-'. */
  lemma EmptyReport(month: int, year: int)
    ensures TotalSavings([]) == 0.0 && TotalProfit([]) == 0.0
    ensures MonthSavings([], month, year) == 0.0 && MonthProfit([], month, year) == 0.0
    ensures BestCustomer(CustomerProfits([])) == NoCustomer && WorstCustomer(CustomerProfits([])) == NoCustomer
  {
  }

  /* ---------- the search filter ---------- */

  /** The optional field is present and its lower-cased text includes the term. */
  predicate FieldMatches(field: Option<string>, term: string) {
    field.Some? && Contains(Lower(field.value), term)
  }

  /** The search test of one shipment: order number, customer or tracking code includes the term. */
  predicate Matches(s: Shipment, search: string) {
    var term := Lower(search);
    FieldMatches(s.orderId, term) || FieldMatches(s.customerName, term) || FieldMatches(s.trackingCode, term)
  }

  /** `filteredShipments` */
  function FilteredShipments(data: seq<Shipment>, search: string): (r: seq<Shipment>)
    ensures |r| <= |data|
    ensures forall s :: s in r <==> s in data && Matches(s, search)
  {
    if |data| == 0 then []
    else if Matches(data[0], search) then [data[0]] + FilteredShipments(data[1..], search)
    else FilteredShipments(data[1..], search)
  }

  /** The filter keeps the table's order: it distributes over concatenation. */
  lemma {:induction false} FilterKeepsOrder(a: seq<Shipment>, b: seq<Shipment>, search: string)
    ensures FilteredShipments(a + b, search) == FilteredShipments(a, search) + FilteredShipments(b, search)
  {
    if |a| > 0 {
      assert (a + b)[1..] == a[1..] + b;
      FilterKeepsOrder(a[1..], b, search);
    } else {
      assert a + b == b;
    }
  }

  /** The search ignores case: a term and its lower-cased form select the same shipments. */
  lemma SearchIgnoresCase(s: Shipment, search: string)
    ensures Matches(s, search) <==> Matches(s, Lower(search))
  {
    LowerIdempotent(search);
  }

  /** An empty search keeps exactly the shipments that have an order number, a customer or a tracking code. */
  lemma EmptySearch(s: Shipment)
    ensures Matches(s, "") <==> s.orderId.Some? || s.customerName.Some? || s.trackingCode.Some?
  {
    assert Lower("") == "";
    if s.orderId.Some? { ContainsEmpty(Lower(s.orderId.value)); }
    if s.customerName.Some? { ContainsEmpty(Lower(s.customerName.value)); }
    if s.trackingCode.Some? { ContainsEmpty(Lower(s.trackingCode.value)); }
  }
}
