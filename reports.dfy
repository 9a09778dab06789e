/**
 * The reports screen (app/reports.tsx): the revenue and transaction count of
 * the selected period, the rounded average sale, the five services that
 * brought in the most, and the revenue split by payment method.
 */
module Reports {
  import opened Common
  import opened Salon
  import opened Cart
  import opened Sorting

  // ---------------------------------------------------------------------------
  // The period cards
  // ---------------------------------------------------------------------------

  datatype Period = Today | Week | Month

  /** The revenue and number of payments of one period. */
  datatype PeriodStats = PeriodStats(revenue: int, count: nat)

  datatype Stats = Stats(today: PeriodStats, week: PeriodStats, month: PeriodStats)

  /**
   * The `stats` memo. The revenues come from the cart hook; each count filters
   * the payments with the same window as the matching revenue: `sameDay` (the
   * current calendar day), the seven days before `now`, and `sameMonth` (the
   * current month of the current year).
   */
  function PeriodReport(ps: seq<Payment>, now: int, sameDay: int -> bool, sameMonth: int -> bool): Stats {
    Stats(
      PeriodStats(TodayRevenue(ps, sameDay), Count(ps, sameDay)),
      PeriodStats(WeekRevenue(ps, now), Count(ps, InLastWeek(now))),
      PeriodStats(MonthlyRevenue(ps, sameMonth), Count(ps, sameMonth)))
  }

  /** `stats[selectedPeriod]`. */
  function Selected(stats: Stats, period: Period): PeriodStats {
    match period
    case Today => stats.today
    case Week => stats.week
    case Month => stats.month
  }

  /**
   * Each card counts the payments its revenue sums over: recording one more
   * payment raises a card's count by one exactly when it raises its revenue by
   * that payment's total.
   */
  lemma PeriodReportStep(ps: seq<Payment>, p: Payment, now: int, sameDay: int -> bool, sameMonth: int -> bool, period: Period)
    ensures var before := Selected(PeriodReport(ps, now, sameDay, sameMonth), period);
            var after := Selected(PeriodReport(ps + [p], now, sameDay, sameMonth), period);
            var inWindow := match period case Today => sameDay(p.timestamp)
                                         case Week => p.timestamp >= now - WeekMs
                                         case Month => sameMonth(p.timestamp);
            after.count == before.count + (if inWindow then 1 else 0) &&
            after.revenue == before.revenue + (if inWindow then p.total else 0)
  {
    match period
    case Today => WindowAppend(ps, p, sameDay);
    case Week => WindowAppend(ps, p, InLastWeek(now));
    case Month => WindowAppend(ps, p, sameMonth);
  }

  /**
   * Every card counts at most all payments and, with non-negative totals, its
   * revenue lies between 0 and the revenue of all payments. When the current
   * day lies within the last seven days, the week card has at least the
   * payments and revenue of the day card.
   */
  lemma PeriodReportBounds(ps: seq<Payment>, now: int, sameDay: int -> bool, sameMonth: int -> bool, period: Period)
    requires forall i :: 0 <= i < |ps| ==> ps[i].total >= 0
    ensures var s := Selected(PeriodReport(ps, now, sameDay, sameMonth), period);
            s.count <= |ps| && 0 <= s.revenue <= SumTotals(ps)
    ensures (forall t :: sameDay(t) ==> t >= now - WeekMs) ==>
              PeriodReport(ps, now, sameDay, sameMonth).today.count <= PeriodReport(ps, now, sameDay, sameMonth).week.count &&
              PeriodReport(ps, now, sameDay, sameMonth).today.revenue <= PeriodReport(ps, now, sameDay, sameMonth).week.revenue
  {
    match period
    case Today => RevenueBounded(ps, sameDay);
    case Week => RevenueBounded(ps, InLastWeek(now));
    case Month => RevenueBounded(ps, sameMonth);
    if forall t :: sameDay(t) ==> t >= now - WeekMs {
      WindowMonotone(ps, sameDay, InLastWeek(now));
    }
  }

  /**
   * The average card: `Math.round(revenue / count)` with at least one payment,
   * otherwise 0. `Math.round(x)` is `floor(x + 1/2)`, which for a quotient of
   * integers is an integer division.
   */
  function Average(s: PeriodStats): int {
    if s.count > 0 then (2 * s.revenue + s.count) / (2 * s.count) else 0
  }

  /**
   * With payments, the average is the integer nearest to revenue / count,
   * halves rounding up: `avg - 1/2 <= revenue / count < avg + 1/2`.
   */
  lemma AverageRounds(s: PeriodStats)
    ensures s.count == 0 ==> Average(s) == 0
    ensures s.count > 0 ==>
              s.count * (2 * Average(s) - 1) <= 2 * s.revenue < s.count * (2 * Average(s) + 1)
  {
    if s.count > 0 {
      var c, a := s.count, Average(s);
      var n := 2 * s.revenue + c;
      assert n == 2 * c * a + n % (2 * c) && 0 <= n % (2 * c) < 2 * c;
      assert c * (2 * a - 1) == 2 * c * a - c && c * (2 * a + 1) == 2 * c * a + c;
    }
  }

  // ---------------------------------------------------------------------------
  // Top services
  // ---------------------------------------------------------------------------

  /** One row of the top-services list: the service's name, units sold and revenue. */
  datatype ServiceStat = ServiceStat(name: string, count: int, revenue: int)

  function Earnings(s: ServiceStat): int { s.revenue }

  /** The cart lines of all payments, in the order the two nested `forEach` visit them. */
  function AllLines(ps: seq<Payment>): seq<CartItem> {
    if ps == [] then [] else AllLines(ps[..|ps| - 1]) + ps[|ps| - 1].items
  }

  /** The service ids of `lines`, each once, in order of first appearance (a `Map`'s key order). */
  function ServiceIds(lines: seq<CartItem>): (ids: seq<string>)
    ensures |ids| <= |lines|
  {
    if lines == [] then []
    else
      var ids := ServiceIds(lines[..|lines| - 1]);
      var id := lines[|lines| - 1].service.id;
      if id in ids then ids else ids + [id]
  }

  /** Units of service `id` over `lines`. */
  function UnitsSold(lines: seq<CartItem>, id: string): int {
    if lines == [] then 0
    else UnitsSold(lines[..|lines| - 1], id)
         + (if lines[|lines| - 1].service.id == id then lines[|lines| - 1].quantity else 0)
  }

  /** Price times quantity of service `id` over `lines`. */
  function Earned(lines: seq<CartItem>, id: string): int {
    if lines == [] then 0
    else Earned(lines[..|lines| - 1], id)
         + (if lines[|lines| - 1].service.id == id then LineTotal(lines[|lines| - 1]) else 0)
  }

  /** The name on the last line of service `id` (each line overwrites the entry's name). */
  function LatestName(lines: seq<CartItem>, id: string): string {
    if lines == [] then ""
    else if lines[|lines| - 1].service.id == id then lines[|lines| - 1].service.name
    else LatestName(lines[..|lines| - 1], id)
  }

  /** The entry the map holds for `id` once every line is counted. */
  function StatOf(lines: seq<CartItem>, id: string): ServiceStat {
    ServiceStat(LatestName(lines, id), UnitsSold(lines, id), Earned(lines, id))
  }

  /** `Array.from(serviceCount.values())`, as a function of the lines and the key order. */
  function StatsFor(lines: seq<CartItem>, ids: seq<string>): (r: seq<ServiceStat>)
    ensures |r| == |ids|
    ensures forall i :: 0 <= i < |ids| ==> r[i] == StatOf(lines, ids[i])
  {
    if ids == [] then [] else StatsFor(lines, ids[..|ids| - 1]) + [StatOf(lines, ids[|ids| - 1])]
  }

  /** The `topServices` memo: the entries by decreasing revenue, at most five. */
  function TopServices(ps: seq<Payment>): seq<ServiceStat> {
    var lines := AllLines(ps);
    TopFive(StatsFor(lines, ServiceIds(lines)))
  }

  /** `.sort((a, b) => b.revenue - a.revenue).slice(0, 5)`. */
  function TopFive(all: seq<ServiceStat>): seq<ServiceStat> {
    Prefix(SortDesc(all, Earnings), 5)
  }

  /** The map's values in key order. */
  function ValuesInOrder(order: seq<string>, table: map<string, ServiceStat>): (r: seq<ServiceStat>)
    requires forall k :: k in order ==> k in table
    ensures |r| == |order|
  {
    if order == [] then [] else ValuesInOrder(order[..|order| - 1], table) + [table[order[|order| - 1]]]
  }

  lemma {:induction false} ValuesAreStats(order: seq<string>, table: map<string, ServiceStat>, lines: seq<CartItem>)
    requires forall k :: k in order ==> k in table && table[k] == StatOf(lines, k)
    ensures ValuesInOrder(order, table) == StatsFor(lines, order)
  {
    if order != [] {
      ValuesAreStats(order[..|order| - 1], table, lines);
    }
  }

  /**
   * `order` and `table` are the map after the lines `seen`: its keys in
   * insertion order, each with its entry, and a missing key has sold nothing.
   */
  ghost predicate Tallied(seen: seq<CartItem>, order: seq<string>, table: map<string, ServiceStat>) {
    && order == ServiceIds(seen)
    && (forall k :: k in table <==> k in order)
    && (forall k :: k in table ==> table[k] == StatOf(seen, k))
    && (forall k :: k in table || (UnitsSold(seen, k) == 0 && Earned(seen, k) == 0))
  }

  /**
   * The accumulation of `topServices`: for every line of every payment, the
   * entry of its service (or a fresh one) gets the line's name, its quantity
   * added to the count and price times quantity to the revenue. `order` is the
   * map's insertion order.
   */
  method Tally(ps: seq<Payment>) returns (order: seq<string>, table: map<string, ServiceStat>)
    ensures order == ServiceIds(AllLines(ps))
    ensures forall k :: k in table <==> k in order
    ensures forall k :: k in table ==> table[k] == StatOf(AllLines(ps), k)
  {
    order, table := [], map[];
    var i := 0;
    while i < |ps|
      invariant 0 <= i <= |ps|
      invariant Tallied(AllLines(ps[..i]), order, table)
    {
      order, table := TallyLines(ps[i].items, AllLines(ps[..i]), order, table);
      AllLinesStep(ps, i);
      i := i + 1;
    }
    assert ps[..i] == ps;
  }

  lemma AllLinesStep(ps: seq<Payment>, i: nat)
    requires i < |ps|
    ensures AllLines(ps[..i + 1]) == AllLines(ps[..i]) + ps[i].items
  {
    assert ps[..i + 1][..i] == ps[..i];
  }

  /** The inner `forEach`: the lines of one payment, added to the tally of the lines before it. */
  method TallyLines(items: seq<CartItem>, ghost seen: seq<CartItem>, order0: seq<string>, table0: map<string, ServiceStat>)
    returns (order: seq<string>, table: map<string, ServiceStat>)
    requires Tallied(seen, order0, table0)
    ensures Tallied(seen + items, order, table)
  {
    order, table := order0, table0;
    var j := 0;
    assert seen + items[..j] == seen;
    while j < |items|
      invariant 0 <= j <= |items|
      invariant Tallied(seen + items[..j], order, table)
    {
      var item := items[j];
      var key := item.service.id;
      var existing := if key in table then table[key] else ServiceStat(item.service.name, 0, 0);
      var entry := ServiceStat(item.service.name, existing.count + item.quantity,
                               existing.revenue + item.service.price * item.quantity);
      TallyStep(seen + items[..j], item, order, table, entry);
      assert seen + items[..j + 1] == seen + items[..j] + [item];
      order, table := if key in table then order else order + [key], table[key := entry];
      j := j + 1;
    }
    assert items[..j] == items;
  }

  /** One line added to the tally. */
  lemma TallyStep(seen: seq<CartItem>, item: CartItem, order: seq<string>, table: map<string, ServiceStat>, entry: ServiceStat)
    requires Tallied(seen, order, table)
    requires var key := item.service.id;
             var existing := if key in table then table[key] else ServiceStat(item.service.name, 0, 0);
             entry == ServiceStat(item.service.name, existing.count + item.quantity,
                                  existing.revenue + item.service.price * item.quantity)
    ensures var key := item.service.id;
            Tallied(seen + [item], if key in table then order else order + [key], table[key := entry])
  {
    var seen' := seen + [item];
    assert seen'[..|seen'| - 1] == seen;
  }

  /** `topServices`, computed by the nested loops and then sorted and cut to five. */
  method ComputeTopServices(ps: seq<Payment>) returns (top: seq<ServiceStat>)
    ensures top == TopServices(ps)
  {
    var order, table := Tally(ps);
    ValuesAreStats(order, table, AllLines(ps));
    top := Prefix(SortDesc(ValuesInOrder(order, table), Earnings), 5);
  }

  /** Each id appears once in the key order, and an id is a key exactly when some line sells it. */
  lemma {:induction false} ServiceIdsExact(lines: seq<CartItem>, id: string)
    ensures (forall i, j :: 0 <= i < j < |ServiceIds(lines)| ==> ServiceIds(lines)[i] != ServiceIds(lines)[j])
    ensures id in ServiceIds(lines) <==> exists i :: 0 <= i < |lines| && lines[i].service.id == id
  {
    if lines != [] {
      var init := lines[..|lines| - 1];
      ServiceIdsExact(init, id);
      if exists i :: 0 <= i < |init| && init[i].service.id == id {
        var i :| 0 <= i < |init| && init[i].service.id == id;
        assert lines[i] == init[i];
      }
      if exists i :: 0 <= i < |lines| && lines[i].service.id == id {
        var i :| 0 <= i < |lines| && lines[i].service.id == id;
        if i < |init| { assert init[i] == lines[i]; }
      }
    }
  }

  /**
   * The cut list holds at most five entries, in non-increasing order of
   * revenue, all drawn from the full list.
   */
  lemma TopFiveShape(all: seq<ServiceStat>)
    ensures |TopFive(all)| == (if |all| < 5 then |all| else 5)
    ensures SortedDesc(TopFive(all), Earnings)
    ensures multiset(TopFive(all)) <= multiset(all)
  {
    PrefixOfSorted(all, Earnings, if |all| < 5 then |all| else 5);
  }

  /** No entry left out of the cut list earned more than any entry kept. */
  lemma TopFiveKeepsLargest(all: seq<ServiceStat>)
    ensures forall x, y :: x in TopFive(all) && y in multiset(all) - multiset(TopFive(all)) ==> x.revenue >= y.revenue
  {
    PrefixKeepsLargest(all, Earnings, if |all| < 5 then |all| else 5);
  }

  /** Every entry on the top list is the full tally of a service that some payment sold. */
  lemma TopServicesEntries(ps: seq<Payment>, x: ServiceStat)
    requires x in TopServices(ps)
    ensures exists id :: id in ServiceIds(AllLines(ps)) && x == StatOf(AllLines(ps), id)
  {
    var lines := AllLines(ps);
    var ids := ServiceIds(lines);
    var all := StatsFor(lines, ids);
    TopFiveShape(all);
    assert x in multiset(all);
    var i :| 0 <= i < |all| && all[i] == x;
    assert ids[i] in ids;
  }

  /** With no payments, or only empty ones, the list is empty (the screen shows its placeholder). */
  lemma NoSalesNoTop(ps: seq<Payment>)
    requires forall i :: 0 <= i < |ps| ==> ps[i].items == []
    ensures TopServices(ps) == []
  {
    NoLinesAtAll(ps);
  }

  lemma {:induction false} NoLinesAtAll(ps: seq<Payment>)
    requires forall i :: 0 <= i < |ps| ==> ps[i].items == []
    ensures AllLines(ps) == []
  {
    if ps != [] {
      NoLinesAtAll(ps[..|ps| - 1]);
    }
  }

  /** The sum of the revenue column. */
  function SumRevenue(stats: seq<ServiceStat>): int {
    if stats == [] then 0 else SumRevenue(stats[..|stats| - 1]) + stats[|stats| - 1].revenue
  }

  /** A service that no line sells has earned nothing. */
  lemma {:induction false} UnsoldEarnsNothing(lines: seq<CartItem>, k: string)
    requires k !in ServiceIds(lines)
    ensures Earned(lines, k) == 0
  {
    if lines != [] {
      UnsoldEarnsNothing(lines[..|lines| - 1], k);
    }
  }

  /** Earned over the keys `ids`. */
  function EarnedOver(lines: seq<CartItem>, ids: seq<string>): int {
    if ids == [] then 0 else EarnedOver(lines, ids[..|ids| - 1]) + Earned(lines, ids[|ids| - 1])
  }

  lemma {:induction false} RevenueColumnIsEarned(lines: seq<CartItem>, ids: seq<string>)
    ensures SumRevenue(StatsFor(lines, ids)) == EarnedOver(lines, ids)
  {
    if ids != [] {
      RevenueColumnIsEarned(lines, ids[..|ids| - 1]);
      var r := StatsFor(lines, ids);
      assert r[..|r| - 1] == StatsFor(lines, ids[..|ids| - 1]);
    }
  }

  lemma EarnedStep(init: seq<CartItem>, x: CartItem, k: string)
    ensures Earned(init + [x], k) == Earned(init, k) + (if x.service.id == k then LineTotal(x) else 0)
  {
    assert (init + [x])[..|init|] == init;
  }

  /** One more line adds its price times quantity to the earnings over distinct keys holding its service. */
  lemma {:induction false} EarnedOverStep(init: seq<CartItem>, x: CartItem, ids: seq<string>)
    requires forall i, j :: 0 <= i < j < |ids| ==> ids[i] != ids[j]
    ensures EarnedOver(init + [x], ids) == EarnedOver(init, ids) + (if x.service.id in ids then LineTotal(x) else 0)
  {
    if ids != [] {
      var front, k := ids[..|ids| - 1], ids[|ids| - 1];
      EarnedOverStep(init, x, front);
      EarnedStep(init, x, k);
      assert x.service.id in ids <==> x.service.id in front || x.service.id == k;
      assert k !in front;
    }
  }

  /** Before the cut to five, the revenue column adds up to price times quantity over all lines. */
  lemma RevenueColumnTotal(lines: seq<CartItem>)
    ensures SumRevenue(StatsFor(lines, ServiceIds(lines))) == Total(lines)
  {
    RevenueColumnIsEarned(lines, ServiceIds(lines));
    EarnedOverIdsTotal(lines);
  }

  lemma {:induction false} EarnedOverIdsTotal(lines: seq<CartItem>)
    ensures EarnedOver(lines, ServiceIds(lines)) == Total(lines)
  {
    if lines != [] {
      var init, x := lines[..|lines| - 1], lines[|lines| - 1];
      EarnedOverIdsTotal(init);
      var ids := ServiceIds(init);
      ServiceIdsExact(init, x.service.id);
      EarnedOverStep(init, x, ids);
      assert init + [x] == lines;
      TotalsAppend(init, [x]);
      if x.service.id !in ids {
        var ids' := ids + [x.service.id];
        assert ids'[..|ids|] == ids;
        UnsoldEarnsNothing(init, x.service.id);
        EarnedStep(init, x, x.service.id);
      }
    }
  }

  /** The lines of all payments cost, together, the sum of each payment's cart total. */
  lemma {:induction false} AllLinesTotal(ps: seq<Payment>)
    requires forall i :: 0 <= i < |ps| ==> ps[i].total == Total(ps[i].items)
    ensures Total(AllLines(ps)) == SumTotals(ps)
  {
    if ps != [] {
      var init, p := ps[..|ps| - 1], ps[|ps| - 1];
      AllLinesTotal(init);
      TotalsAppend(AllLines(init), p.items);
      WindowAppend(init, p, t => true);
      assert init + [p] == ps;
    }
  }

  // ---------------------------------------------------------------------------
  // Revenue by payment method
  // ---------------------------------------------------------------------------

  datatype MethodTotals = MethodTotals(cash: int, card: int, transfer: int) {
    function Of(m: PaymentMethod): int {
      match m
      case Cash => cash
      case Card => card
      case Transfer => transfer
    }

    /** `methods[m] += amount`. */
    function Add(m: PaymentMethod, amount: int): (r: MethodTotals)
      ensures r.Of(m) == Of(m) + amount
      ensures forall other :: other != m ==> r.Of(other) == Of(other)
    {
      match m
      case Cash => this.(cash := cash + amount)
      case Card => this.(card := card + amount)
      case Transfer => this.(transfer := transfer + amount)
    }
  }

  /** The sum of the totals of the payments made with method `m`. */
  function ByMethod(ps: seq<Payment>, m: PaymentMethod): int {
    if ps == [] then 0
    else ByMethod(ps[..|ps| - 1], m) + (if ps[|ps| - 1].paymentMethod == m then ps[|ps| - 1].total else 0)
  }

  /** The `paymentMethodStats` memo: each method's bucket collects the totals paid with it. */
  method PaymentMethodStats(ps: seq<Payment>) returns (methods: MethodTotals)
    ensures forall m :: methods.Of(m) == ByMethod(ps, m)
  {
    methods := MethodTotals(0, 0, 0);
    var i := 0;
    while i < |ps|
      invariant 0 <= i <= |ps|
      invariant forall m :: methods.Of(m) == ByMethod(ps[..i], m)
    {
      var p := ps[i];
      assert ps[..i + 1][..i] == ps[..i];
      methods := methods.Add(p.paymentMethod, p.total);
      i := i + 1;
    }
    assert ps[..i] == ps;
  }

  /** The three buckets together hold the revenue of all payments. */
  lemma {:induction false} MethodsPartitionRevenue(ps: seq<Payment>)
    ensures ByMethod(ps, Cash) + ByMethod(ps, Card) + ByMethod(ps, Transfer) == SumTotals(ps)
  {
    if ps != [] {
      var init, p := ps[..|ps| - 1], ps[|ps| - 1];
      MethodsPartitionRevenue(init);
      WindowAppend(init, p, t => true);
      assert init + [p] == ps;
    }
  }

  /**
   * For payments recorded by `processPayment` (each total is its cart's
   * total), the revenue column of all services, before the cut to five, and
   * the three payment-method buckets add up to the same overall revenue.
   */
  lemma ReportsAgree(ps: seq<Payment>)
    requires forall i :: 0 <= i < |ps| ==> ps[i].total == Total(ps[i].items)
    ensures var lines := AllLines(ps);
            SumRevenue(StatsFor(lines, ServiceIds(lines))) == SumTotals(ps)
            == ByMethod(ps, Cash) + ByMethod(ps, Card) + ByMethod(ps, Transfer)
  {
    RevenueColumnTotal(AllLines(ps));
    AllLinesTotal(ps);
    MethodsPartitionRevenue(ps);
  }
}
