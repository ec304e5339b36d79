// Two independently written stockout computations: the dashboard's (`_compute_dashboard`) and the
// decision agent's (`get_next_for_sku`, `get_decision_forecast_data_by_sku`, `evaluate_sku`).
module Forecast {
  import opened Sequences
  import opened Wrappers
  import opened StableSort

  const DEFAULT_LEAD_TIME := 7
  const HORIZON_DAYS := 30
  const MAX_DASHBOARD_SKUS := 500

  datatype Row = Row(sku: int, date: int, predicted: real)

  // A SKU's stock, and what its product and supplier say.
  datatype StockInfo = StockInfo(available: int, safetyStock: Option<int>, leadTime: Option<nat>)

  // ----- Specification -----

  // `x or 7`
  function OrDefault(leadTime: Option<nat>): (r: nat)
    ensures r > 0
  {
    if leadTime.Some? && leadTime.value != 0 then leadTime.value else DEFAULT_LEAD_TIME
  }

  function Safety(s: StockInfo): int {
    if s.safetyStock.Some? then s.safetyStock.value else 0
  }

  function DateKey(r: Row): real { r.date as real }

  function Demand(rows: seq<Row>): real {
    if rows == [] then 0.0 else Demand(rows[..|rows| - 1]) + rows[|rows| - 1].predicted
  }

  predicate InHorizon(r: Row, today: int) {
    today <= r.date <= today + HORIZON_DAYS
  }

  // The dashboard query: rows of the next 30 days by SKU and date.  SKUs are ordered by `rank`,
  // whatever it is.
  function DashboardRows(rows: seq<Row>, today: int, rank: int -> real): seq<Row> {
    SortBy((r: Row) => rank(r.sku), SortBy(DateKey, Filter((r: Row) => InHorizon(r, today), rows)))
  }

  function OfSku(rows: seq<Row>, sku: int): seq<Row> {
    Filter((r: Row) => r.sku == sku, rows)
  }

  // The dashboard's window for a SKU.
  function DashboardWindow(ordered: seq<Row>, sku: int, lead: nat): seq<Row> {
    Take(OfSku(ordered, sku), lead)
  }

  // A SKU without a stock level is never at risk.
  predicate AtRisk(forecasts: seq<Row>, stocks: map<int, StockInfo>, sku: int) {
    sku in stocks &&
    stocks[sku].available as real < Demand(Take(forecasts, OrDefault(stocks[sku].leadTime))) + Safety(stocks[sku]) as real
  }

  predicate DashboardRisk(ordered: seq<Row>, stocks: map<int, StockInfo>, sku: int) {
    AtRisk(OfSku(ordered, sku), stocks, sku)
  }

  // `get_next_for_sku` with `forecast_days` clamped as its caller does.
  function DecisionWindow(rows: seq<Row>, sku: int, today: int, days: nat): seq<Row> {
    Take(SortBy(DateKey, Filter((r: Row) => r.sku == sku && r.date >= today, rows)), if days == 0 then DEFAULT_LEAD_TIME else days)
  }

  // The agent's formula, asked for as many days as the lead time.
  predicate FormulaRequiresReorder(rows: seq<Row>, sku: int, today: int, s: StockInfo) {
    s.available as real < Demand(DecisionWindow(rows, sku, today, OrDefault(s.leadTime))) + Safety(s) as real
  }

  // ----- The dashboard loop -----

  predicate HasRow(ordered: seq<Row>, n: nat, sku: int)
    requires n <= |ordered|
  {
    exists i :: 0 <= i < n && ordered[i].sku == sku
  }

  lemma OfSkuNext(ordered: seq<Row>, n: nat)
    requires n < |ordered|
    ensures forall sku ::
              OfSku(ordered[..n + 1], sku)
              == if sku == ordered[n].sku then OfSku(ordered[..n], sku) + [ordered[n]] else OfSku(ordered[..n], sku)
  {
    assert ordered[..n + 1] == ordered[..n] + [ordered[n]];
    forall sku
      ensures OfSku(ordered[..n + 1], sku)
           == if sku == ordered[n].sku then OfSku(ordered[..n], sku) + [ordered[n]] else OfSku(ordered[..n], sku)
    {
      FilterAppend((r: Row) => r.sku == sku, ordered[..n], ordered[n]);
    }
  }

  method GroupBySku(ordered: seq<Row>) returns (groups: map<int, seq<Row>>)
    ensures forall sku :: sku in groups ==> groups[sku] == OfSku(ordered, sku)
    ensures forall i :: 0 <= i < |ordered| ==> ordered[i].sku in groups
  {
    groups := map[];
    for i := 0 to |ordered|
      invariant forall sku :: sku in groups ==> groups[sku] == OfSku(ordered[..i], sku)
      invariant forall sku :: sku !in groups ==> OfSku(ordered[..i], sku) == []
      invariant forall k :: 0 <= k < i ==> ordered[k].sku in groups
    {
      var row := ordered[i];
      OfSkuNext(ordered, i);
      groups := groups[row.sku := (if row.sku in groups then groups[row.sku] else []) + [row]];
    }
    assert ordered[..|ordered|] == ordered;
  }

  // The SKUs of the first n rows in the order of their first row, each once.
  function SkusInOrder(ordered: seq<Row>, n: nat): (r: seq<int>)
    requires n <= |ordered|
    ensures forall sku :: sku in r <==> HasRow(ordered, n, sku)
    ensures Distinct(r)
  {
    if n == 0 then []
    else
      var before := SkusInOrder(ordered, n - 1);
      if ordered[n - 1].sku in before then before else before + [ordered[n - 1].sku]
  }

  // The SKUs on the dashboard after n rows: the first 500.
  function Listed(ordered: seq<Row>, n: nat): seq<int>
    requires n <= |ordered|
  {
    Take(SkusInOrder(ordered, n), MAX_DASHBOARD_SKUS)
  }

  // The loop's test: a row adds its SKU exactly when it is not listed and there is room.
  lemma ListedNext(ordered: seq<Row>, n: nat)
    requires n < |ordered|
    ensures var before, sku := Listed(ordered, n), ordered[n].sku;
            Listed(ordered, n + 1)
            == if sku !in before && |before| < MAX_DASHBOARD_SKUS then before + [sku] else before
  {
    var seen := SkusInOrder(ordered, n);
    if |seen| >= MAX_DASHBOARD_SKUS {
      assert SkusInOrder(ordered, n + 1)[..MAX_DASHBOARD_SKUS] == seen[..MAX_DASHBOARD_SKUS];
    }
  }

  // The dashboard's dictionary, its keys in insertion order: the first 500 SKUs by their first row,
  // each with its risk.
  method ComputeDashboard(ordered: seq<Row>, stocks: map<int, StockInfo>) returns (order: seq<int>, risks: map<int, bool>)
    ensures order == Listed(ordered, |ordered|)
    ensures forall sku :: sku in risks <==> sku in order
    ensures forall sku :: sku in risks ==> risks[sku] == DashboardRisk(ordered, stocks, sku)
  {
    var groups := GroupBySku(ordered);
    order, risks := [], map[];
    for i := 0 to |ordered|
      invariant order == Listed(ordered, i)
      invariant forall sku :: sku in risks <==> sku in order
      invariant forall sku :: sku in risks ==> risks[sku] == DashboardRisk(ordered, stocks, sku)
    {
      ListedNext(ordered, i);
      var sku := ordered[i].sku;
      if sku !in risks && |order| < MAX_DASHBOARD_SKUS {
        var risk := false;
        if sku in stocks {
          var stock := stocks[sku];
          var forecasts := Take(groups[sku], OrDefault(stock.leadTime));
          risk := stock.available as real < Demand(forecasts) + Safety(stock) as real;
        }
        order := order + [sku];
        risks := risks[sku := risk];
      }
    }
  }

  // At most 500 SKUs are listed, and before that none is left out.
  lemma ListedExactly(ordered: seq<Row>, n: nat)
    requires n <= |ordered|
    ensures var listed, all := Listed(ordered, n), SkusInOrder(ordered, n);
            listed <= all && |listed| == if |all| < 500 then |all| else 500
  {
  }

  // Row k is the first of its SKU.
  predicate FirstRow(ordered: seq<Row>, k: int, sku: int) {
    0 <= k < |ordered| && ordered[k].sku == sku && forall m :: 0 <= m < k ==> ordered[m].sku != sku
  }

  // A SKU listed before another has its first row before the other's.
  lemma {:induction false} FirstRowsInOrder(ordered: seq<Row>, n: nat, i: nat, j: nat, k: int, l: int)
    requires n <= |ordered| && i < j < |SkusInOrder(ordered, n)|
    requires FirstRow(ordered, k, SkusInOrder(ordered, n)[i]) && FirstRow(ordered, l, SkusInOrder(ordered, n)[j])
    ensures k < l
  {
    var before, skus := SkusInOrder(ordered, n - 1), SkusInOrder(ordered, n);
    if j < |before| {
      FirstRowsInOrder(ordered, n - 1, i, j, k, l);
    } else {
      assert skus[i] in before && HasRow(ordered, n - 1, skus[i]);
      var m :| 0 <= m < n - 1 && ordered[m].sku == skus[i];
      assert k <= m;
    }
  }

  // ----- The windows -----

  // Demand is determined by this: nothing, one row, and a concatenation.
  lemma {:induction false} DemandConcat(a: seq<Row>, b: seq<Row>)
    ensures Demand([]) == 0.0
    ensures |a| == 1 ==> Demand(a) == a[0].predicted
    ensures Demand(a + b) == Demand(a) + Demand(b)
  {
    if |a| == 1 {
      assert Demand(a[..0]) == 0.0;
    }
    if b == [] {
      assert a + b == a;
    } else {
      DemandConcat(a, b[..|b| - 1]);
      assert (a + b)[..|a + b| - 1] == a + b[..|b| - 1];
    }
  }

  // A row of the SKU from the given day on, up to the last one if there is one.
  predicate Selected(r: Row, sku: int, today: int, last: Option<int>) {
    r.sku == sku && today <= r.date && (last.Some? ==> r.date <= last.value)
  }

  // w holds the n earliest of the selected rows, by date, or all of them if there are fewer.
  ghost predicate EarliestRows(w: seq<Row>, rows: seq<Row>, n: nat, sku: int, today: int, last: Option<int>) {
    && |w| <= n
    && (forall i, j :: 0 <= i < j < |w| ==> w[i].date <= w[j].date)
    && (forall r :: r in w ==> Selected(r, sku, today, last) && multiset(w)[r] <= multiset(rows)[r])
    && (forall r :: Selected(r, sku, today, last) && multiset(w)[r] < multiset(rows)[r] ==> |w| == n && NoneLater(w, r))
  }

  ghost predicate NoneLater(w: seq<Row>, r: Row) {
    forall x :: x in w ==> x.date <= r.date
  }

  lemma TakenIsEarliest(rows: seq<Row>, p: Row -> bool, n: nat, sku: int, today: int, last: Option<int>)
    requires forall r :: p(r) <==> Selected(r, sku, today, last)
    ensures EarliestRows(Take(SortBy(DateKey, Filter(p, rows)), n), rows, n, sku, today, last)
  {
    var found := Filter(p, rows);
    var s := SortBy(DateKey, found);
    var w := Take(s, n);
    SortSorts(DateKey, found);
    assert s == w + s[|w|..];
    forall i, j | 0 <= i < j < |w|
      ensures w[i].date <= w[j].date
    {
      assert DateKey(s[i]) <= DateKey(s[j]);
    }
    forall r | r in w
      ensures Selected(r, sku, today, last) && multiset(w)[r] <= multiset(rows)[r]
    {
      FilterCount(p, rows, r);
      assert multiset(s)[r] == multiset(found)[r];
    }
    forall r | Selected(r, sku, today, last) && multiset(w)[r] < multiset(rows)[r]
      ensures |w| == n && NoneLater(w, r)
    {
      FilterCount(p, rows, r);
      OmittedIsLater(s, n, r);
    }
  }

  lemma OmittedIsLater(s: seq<Row>, n: nat, r: Row)
    requires Sorted(DateKey, s) && multiset(Take(s, n))[r] < multiset(s)[r]
    ensures |Take(s, n)| == n && NoneLater(Take(s, n), r)
  {
    var w := Take(s, n);
    var rest := s[|w|..];
    assert s == w + rest;
    assert r in rest;
    var k :| 0 <= k < |rest| && rest[k] == r;
    forall x | x in w
      ensures x.date <= r.date
    {
      var i :| 0 <= i < |w| && w[i] == x;
      assert DateKey(s[i]) <= DateKey(s[|w| + k]);
    }
  }

  // The agent's window: the earliest rows of the SKU from today on.
  lemma DecisionWindowExactly(rows: seq<Row>, sku: int, today: int, days: nat)
    ensures EarliestRows(DecisionWindow(rows, sku, today, days), rows, if days == 0 then 7 else days, sku, today, None)
  {
    TakenIsEarliest(rows, (r: Row) => r.sku == sku && r.date >= today, if days == 0 then 7 else days, sku, today, None);
  }

  // The dashboard's window: the same within the next 30 days.
  lemma DashboardWindowExactly(rows: seq<Row>, today: int, rank: int -> real, sku: int, lead: nat)
    ensures EarliestRows(DashboardWindow(DashboardRows(rows, today, rank), sku, lead), rows, lead, sku, today, Some(today + 30))
  {
    DashboardRowsOfSku(rows, today, rank, sku);
    TakenIsEarliest(rows, (r: Row) => r.sku == sku && InHorizon(r, today), lead, sku, today, Some(today + 30));
  }

  // The days a stock has to last: the supplier's lead time, or 7.
  predicate HasLead(s: StockInfo, lead: int) {
    lead == if s.leadTime.None? || s.leadTime == Some(0) then 7 else s.leadTime.value
  }

  // The stock, without what has to stay, is less than the window's demand.
  predicate Short(s: StockInfo, w: seq<Row>) {
    s.available as real < Demand(w) + if s.safetyStock.Some? then s.safetyStock.value as real else 0.0
  }

  // The formula and the risk are about these windows, one row for each day of the lead time.
  lemma ReorderExactly(rows: seq<Row>, sku: int, today: int, s: StockInfo, lead: nat)
    requires HasLead(s, lead)
    ensures FormulaRequiresReorder(rows, sku, today, s) <==> Short(s, DecisionWindow(rows, sku, today, lead))
  {
  }

  lemma RiskExactly(ordered: seq<Row>, stocks: map<int, StockInfo>, sku: int, lead: nat)
    requires sku in stocks ==> HasLead(stocks[sku], lead)
    ensures DashboardRisk(ordered, stocks, sku) <==> sku in stocks && Short(stocks[sku], DashboardWindow(ordered, sku, lead))
  {
  }

  // ----- One window is a prefix of the other -----

  lemma {:induction false} FilterBoth<T>(p: T -> bool, q: T -> bool, both: T -> bool, s: seq<T>)
    requires forall x :: x in s ==> (both(x) <==> p(x) && q(x))
    ensures Filter(both, s) == Filter(q, Filter(p, s))
  {
    if s != [] {
      var init, last := s[..|s| - 1], s[|s| - 1];
      assert s == init + [last];
      FilterBoth(p, q, both, init);
      assert last in s;
      FilterAppend(q, Filter(p, init), last);
    }
  }

  // The rows of one SKU among the dashboard's rows are its rows in the horizon, by date.
  lemma DashboardRowsOfSku(rows: seq<Row>, today: int, rank: int -> real, sku: int)
    ensures OfSku(DashboardRows(rows, today, rank), sku)
         == SortBy(DateKey, Filter((r: Row) => r.sku == sku && InHorizon(r, today), rows))
  {
    var mine, near := (r: Row) => r.sku == sku, (r: Row) => InHorizon(r, today);
    var byRank := (r: Row) => rank(r.sku);
    var kept := Filter(near, rows);
    FilterSort(mine, byRank, SortBy(DateKey, kept));
    FilterSort(mine, DateKey, kept);
    var own := SortBy(DateKey, Filter(mine, kept));
    SortSorts(DateKey, Filter(mine, kept));
    forall x | x in own
      ensures x.sku == sku
    {
      assert x in multiset(Filter(mine, kept));
      FilterMember(mine, kept, x);
    }
    SortEqualKeys(byRank, own);
    FilterBoth(near, mine, (r: Row) => r.sku == sku && InHorizon(r, today), rows);
  }

  // In a list sorted by date, the rows up to a date are a prefix.
  lemma {:induction false} UpToIsPrefix(s: seq<Row>, last: int)
    requires Sorted(DateKey, s)
    ensures var kept := Filter((r: Row) => r.date <= last, s);
            && kept <= s
            && (forall i :: 0 <= i < |s| ==> (i < |kept| <==> s[i].date <= last))
  {
    if s != [] {
      var init, x := s[..|s| - 1], s[|s| - 1];
      assert s == init + [x];
      UpToIsPrefix(init, last);
      FilterAppend((r: Row) => r.date <= last, init, x);
      var kept := Filter((r: Row) => r.date <= last, init);
      if x.date <= last {
        forall i | 0 <= i < |init|
          ensures init[i].date <= last
        {
          assert DateKey(s[i]) <= DateKey(s[|s| - 1]);
        }
        assert |kept| == |init|;
      }
    }
  }

  // All of a SKU's rows from today on, by date.
  function Upcoming(rows: seq<Row>, sku: int, today: int): seq<Row> {
    SortBy(DateKey, Filter((r: Row) => r.sku == sku && r.date >= today, rows))
  }

  // What the dashboard sees of a SKU is the part of its upcoming rows within the horizon.
  lemma DashboardSeesPrefix(rows: seq<Row>, today: int, rank: int -> real, sku: int)
    ensures var near := OfSku(DashboardRows(rows, today, rank), sku);
            var all := Upcoming(rows, sku, today);
            && near <= all
            && (forall i :: 0 <= i < |all| ==> (i < |near| <==> all[i].date <= today + 30))
  {
    var ahead, upTo := (r: Row) => r.sku == sku && r.date >= today, (r: Row) => r.date <= today + HORIZON_DAYS;
    DashboardRowsOfSku(rows, today, rank, sku);
    FilterBoth(ahead, upTo, (r: Row) => r.sku == sku && InHorizon(r, today), rows);
    FilterSort(upTo, DateKey, Filter(ahead, rows));
    SortSorts(DateKey, Filter(ahead, rows));
    UpToIsPrefix(Upcoming(rows, sku, today), today + HORIZON_DAYS);
  }

  // For the same day and lead time the dashboard's window is a prefix of the agent's, and the two
  // are equal exactly when every row of the agent's window is within 30 days.
  lemma WindowsRelated(rows: seq<Row>, today: int, rank: int -> real, sku: int, lead: nat)
    requires lead > 0
    ensures var dashboard := DashboardWindow(DashboardRows(rows, today, rank), sku, lead);
            var decision := DecisionWindow(rows, sku, today, lead);
            && dashboard <= decision
            && (dashboard == decision <==> forall i :: 0 <= i < |decision| ==> decision[i].date <= today + 30)
  {
    DashboardSeesPrefix(rows, today, rank, sku);
    var near, all := OfSku(DashboardRows(rows, today, rank), sku), Upcoming(rows, sku, today);
    var dashboard, decision := Take(near, lead), Take(all, lead);
    assert decision == DecisionWindow(rows, sku, today, lead);
    if |dashboard| < |decision| {
      assert |near| < |all| && |dashboard| == |near|;
      assert decision[|near|].date > today + HORIZON_DAYS;
    } else {
      assert dashboard == decision;
      forall i | 0 <= i < |decision|
        ensures decision[i].date <= today + HORIZON_DAYS
      {
        assert i < |near|;
      }
    }
  }

  // ----- Risk and reorder -----

  ghost predicate NonNegative(rows: seq<Row>) {
    forall i :: 0 <= i < |rows| ==> rows[i].predicted >= 0.0
  }

  lemma {:induction false} PrefixDemand(a: seq<Row>, b: seq<Row>)
    requires a <= b && NonNegative(b)
    ensures Demand(a) <= Demand(b)
  {
    if |a| < |b| {
      PrefixDemand(a, b[..|b| - 1]);
    } else {
      assert a == b;
    }
  }

  lemma WindowNonNegative(rows: seq<Row>, sku: int, today: int, days: nat)
    requires NonNegative(rows)
    ensures NonNegative(DecisionWindow(rows, sku, today, days))
  {
    var mine := (r: Row) => r.sku == sku && r.date >= today;
    var window := DecisionWindow(rows, sku, today, days);
    SortSorts(DateKey, Filter(mine, rows));
    forall i | 0 <= i < |window|
      ensures window[i].predicted >= 0.0
    {
      assert window[i] in multiset(Filter(mine, rows));
      FilterMember(mine, rows, window[i]);
    }
  }

  // With non-negative predictions a dashboard stockout risk implies that the agent's formula
  // requires a reorder; when the agent's window ends within 30 days the two agree.
  lemma RiskImpliesReorder(rows: seq<Row>, today: int, rank: int -> real, stocks: map<int, StockInfo>, sku: int)
    requires NonNegative(rows) && sku in stocks
    ensures var risk := DashboardRisk(DashboardRows(rows, today, rank), stocks, sku);
            var decision := DecisionWindow(rows, sku, today, OrDefault(stocks[sku].leadTime));
            && (risk ==> FormulaRequiresReorder(rows, sku, today, stocks[sku]))
            && ((forall i :: 0 <= i < |decision| ==> decision[i].date <= today + 30)
                ==> (risk <==> FormulaRequiresReorder(rows, sku, today, stocks[sku])))
  {
    var lead := OrDefault(stocks[sku].leadTime);
    WindowsRelated(rows, today, rank, sku, lead);
    WindowNonNegative(rows, sku, today, lead);
    PrefixDemand(DashboardWindow(DashboardRows(rows, today, rank), sku, lead), DecisionWindow(rows, sku, today, lead));
  }

  // Rounded up to a whole number.
  function Ceil(x: real): int {
    -((-x).Floor)
  }

  // What the two windows of a SKU predict.
  function NearDemand(rows: seq<Row>, today: int, rank: int -> real, sku: int, lead: nat): real {
    Demand(DashboardWindow(DashboardRows(rows, today, rank), sku, lead))
  }

  function FullDemand(rows: seq<Row>, today: int, sku: int, lead: nat): real {
    Demand(DecisionWindow(rows, sku, today, lead))
  }

  // The two computations for one stock: the dashboard on a table that holds it.
  predicate Agree(rows: seq<Row>, today: int, rank: int -> real, sku: int, s: StockInfo) {
    FormulaRequiresReorder(rows, sku, today, s) <==> DashboardRisk(DashboardRows(rows, today, rank), map[sku := s], sku)
  }

  lemma AgreeIff(rows: seq<Row>, today: int, rank: int -> real, sku: int, s: StockInfo)
    requires NonNegative(rows)
    ensures var lead := OrDefault(s.leadTime);
            var free := (s.available - Safety(s)) as real;
            Agree(rows, today, rank, sku, s)
            <==> !(NearDemand(rows, today, rank, sku, lead) <= free < FullDemand(rows, today, sku, lead))
  {
    RiskImpliesReorder(rows, today, rank, map[sku := s], sku);
  }

  // It is the least whole number that is not below.
  lemma CeilIsLeast(x: real, n: int)
    ensures x <= Ceil(x) as real
    ensures x <= n as real <==> Ceil(x) <= n
  {
  }

  // The dashboard and the agent agree for every stock of a SKU with a given lead time exactly when
  // the agent's demand is at most the dashboard's rounded up to a whole unit.
  lemma AgreeForEveryStockExactly(rows: seq<Row>, today: int, rank: int -> real, sku: int, lead: nat)
    requires NonNegative(rows) && lead > 0
    ensures (forall s: StockInfo :: OrDefault(s.leadTime) == lead ==> Agree(rows, today, rank, sku, s))
       <==> FullDemand(rows, today, sku, lead) <= Ceil(NearDemand(rows, today, rank, sku, lead)) as real
  {
    var near, full := NearDemand(rows, today, rank, sku, lead), FullDemand(rows, today, sku, lead);
    if full <= Ceil(near) as real {
      forall s: StockInfo | OrDefault(s.leadTime) == lead
        ensures Agree(rows, today, rank, sku, s)
      {
        CeilIsLeast(near, s.available - Safety(s));
        AgreeIff(rows, today, rank, sku, s);
      }
    } else {
      var s := StockInfo(Ceil(near), None, Some(lead));
      CeilIsLeast(near, Ceil(near));
      AgreeIff(rows, today, rank, sku, s);
      assert !Agree(rows, today, rank, sku, s);
    }
  }

  // On concrete rows the converse fails: a lead time reaching past the horizon, with the demand in its last day.
  lemma ReorderWithoutRisk(rank: int -> real)
    ensures var rows := [Row(1, 31, 5.0)];
            var stocks := map[1 := StockInfo(3, None, Some(40))];
            FormulaRequiresReorder(rows, 1, 0, stocks[1]) && !DashboardRisk(DashboardRows(rows, 0, rank), stocks, 1)
  {
    var rows := [Row(1, 31, 5.0)];
    var mine := (r: Row) => r.sku == 1 && r.date >= 0;
    assert rows == [] + [rows[0]];
    FilterAppend(mine, [], rows[0]);
    assert Filter(mine, rows) == rows;
    assert SortBy(DateKey, rows) == rows by { SortAppend(DateKey, [], rows[0]); }
    assert Demand(rows) == 5.0 by { assert rows[..0] == []; }
    DashboardSeesPrefix(rows, 0, rank, 1);
    assert Upcoming(rows, 1, 0) == rows;
    assert OfSku(DashboardRows(rows, 0, rank), 1) == [];
  }
}
