/**
 * The cart and payment store (hooks/use-cart.ts): an ordered list of
 * (service, quantity) lines keyed by service id, the customer being served,
 * and the append-only list of recorded payments.
 */
module Cart {
  import opened Common
  import opened Text
  import opened Salon

  function LineTotal(item: CartItem): int { item.service.price * item.quantity }

  function LineDuration(item: CartItem): int { item.service.duration * item.quantity }

  /** `total`: the sum of price times quantity over the lines. */
  function Total(items: seq<CartItem>): int {
    if items == [] then 0 else LineTotal(items[0]) + Total(items[1..])
  }

  /** `totalDuration`: the sum of duration times quantity over the lines. */
  function TotalDuration(items: seq<CartItem>): int {
    if items == [] then 0 else LineDuration(items[0]) + TotalDuration(items[1..])
  }

  /** Both sums split over a concatenation. */
  lemma {:induction false} TotalsAppend(a: seq<CartItem>, b: seq<CartItem>)
    ensures Total(a + b) == Total(a) + Total(b)
    ensures TotalDuration(a + b) == TotalDuration(a) + TotalDuration(b)
  {
    if a == [] {
      assert a + b == b;
    } else {
      assert (a + b)[1..] == a[1..] + b;
      TotalsAppend(a[1..], b);
    }
  }

  /** Replacing the line at `k` changes each sum by the difference of that line alone. */
  lemma TotalsReplaceAt(items: seq<CartItem>, k: nat, line: CartItem)
    requires k < |items|
    ensures Total(items[k := line]) == Total(items) - LineTotal(items[k]) + LineTotal(line)
    ensures TotalDuration(items[k := line]) == TotalDuration(items) - LineDuration(items[k]) + LineDuration(line)
  {
    var before, after := items[..k], items[k + 1..];
    assert items == before + [items[k]] + after;
    assert items[k := line] == before + [line] + after;
    TotalsAppend(before + [items[k]], after);
    TotalsAppend(before, [items[k]]);
    TotalsAppend(before + [line], after);
    TotalsAppend(before, [line]);
  }

  /** Removing the line at `k` lowers each sum by that line. */
  lemma TotalsRemoveAt(items: seq<CartItem>, k: nat)
    requires k < |items|
    ensures Total(items[..k] + items[k + 1..]) == Total(items) - LineTotal(items[k])
    ensures TotalDuration(items[..k] + items[k + 1..]) == TotalDuration(items) - LineDuration(items[k])
  {
    var before, rest, after := items[..k], items[k..], items[k + 1..];
    assert items == before + rest;
    assert rest[0] == items[k] && rest[1..] == after;
    TotalsAppend(before, rest);
    TotalsAppend(before, after);
  }

  predicate HasService(items: seq<CartItem>, id: string) {
    exists i :: 0 <= i < |items| && items[i].service.id == id
  }

  /** What the cart keeps as its invariant: one line per service id, every quantity at least 1. */
  predicate WellFormed(items: seq<CartItem>) {
    && (forall i, j :: 0 <= i < j < |items| ==> items[i].service.id != items[j].service.id)
    && (forall i :: 0 <= i < |items| ==> items[i].quantity >= 1)
  }

  /** `prev.map(...)` that adds one to the quantity of every line for service `id`. */
  function Incremented(items: seq<CartItem>, id: string): (r: seq<CartItem>)
    ensures |r| == |items|
    ensures forall i :: 0 <= i < |items| ==>
              r[i] == if items[i].service.id == id then items[i].(quantity := items[i].quantity + 1) else items[i]
  {
    if items == [] then []
    else
      var head := if items[0].service.id == id then items[0].(quantity := items[0].quantity + 1) else items[0];
      [head] + Incremented(items[1..], id)
  }

  /**
   * `addToCart(service)`: a service already in the cart gets one more unit on its
   * existing line(s); otherwise `{service, 1}` is appended at the end.
   */
  function WithAdded(items: seq<CartItem>, s: Service): (r: seq<CartItem>)
    ensures HasService(items, s.id) ==> r == Incremented(items, s.id)
    ensures !HasService(items, s.id) ==> r == items + [CartItem(s, 1)]
  {
    if HasService(items, s.id) then Incremented(items, s.id) else items + [CartItem(s, 1)]
  }

  /** `prev.filter(item => item.service.id !== id)`. */
  function Without(items: seq<CartItem>, id: string): (r: seq<CartItem>)
    ensures |r| <= |items|
  {
    if items == [] then []
    else if items[0].service.id == id then Without(items[1..], id)
    else [items[0]] + Without(items[1..], id)
  }

  /** The lines `removeFromCart` keeps are exactly the lines for other services. */
  lemma {:induction false} WithoutMembers(items: seq<CartItem>, id: string)
    ensures forall x :: x in Without(items, id) <==> x in items && x.service.id != id
  {
    if items != [] {
      WithoutMembers(items[1..], id);
      assert items == [items[0]] + items[1..];
    }
  }

  /** `prev.map(...)` that sets the quantity of every line for service `id` to `q`. */
  function WithQuantitySet(items: seq<CartItem>, id: string, q: int): (r: seq<CartItem>)
    ensures |r| == |items|
    ensures forall i :: 0 <= i < |items| ==>
              r[i] == if items[i].service.id == id then items[i].(quantity := q) else items[i]
  {
    if items == [] then []
    else
      var head := if items[0].service.id == id then items[0].(quantity := q) else items[0];
      [head] + WithQuantitySet(items[1..], id, q)
  }

  /** `updateQuantity(id, q)`: a quantity of zero or less removes the line, as `removeFromCart` does. */
  function WithQuantity(items: seq<CartItem>, id: string, q: int): (r: seq<CartItem>)
    ensures q <= 0 ==> r == Without(items, id)
    ensures q > 0 ==> r == WithQuantitySet(items, id, q)
  {
    if q <= 0 then Without(items, id) else WithQuantitySet(items, id, q)
  }

  /** One more unit on a line adds one unit's price and duration to it. */
  lemma OneMoreUnit(x: CartItem, line: CartItem)
    requires line == x.(quantity := x.quantity + 1)
    ensures LineTotal(line) == LineTotal(x) + x.service.price
    ensures LineDuration(line) == LineDuration(x) + x.service.duration
  {
    assert x.service.price * (x.quantity + 1) == x.service.price * x.quantity + x.service.price;
    assert x.service.duration * (x.quantity + 1) == x.service.duration * x.quantity + x.service.duration;
  }

  /** A new quantity on a line changes it by the price (and the duration) times the change. */
  lemma QuantityChange(x: CartItem, line: CartItem, q: int)
    requires line == x.(quantity := q)
    ensures LineTotal(line) - LineTotal(x) == x.service.price * (q - x.quantity)
    ensures LineDuration(line) - LineDuration(x) == x.service.duration * (q - x.quantity)
  {
    assert x.service.price * q - x.service.price * x.quantity == x.service.price * (q - x.quantity);
    assert x.service.duration * q - x.service.duration * x.quantity == x.service.duration * (q - x.quantity);
  }

  /** On a well-formed cart, adding a service already present gives its line one more unit and changes nothing else. */
  lemma AddExistingAt(items: seq<CartItem>, s: Service, k: nat, line: CartItem)
    requires WellFormed(items) && k < |items| && items[k].service.id == s.id
    requires line == items[k].(quantity := items[k].quantity + 1)
    ensures WithAdded(items, s) == items[k := line]
  {
    assert HasService(items, s.id);
    var r := WithAdded(items, s);
    forall i | 0 <= i < |items| ensures r[i] == items[k := line][i] {
      if i != k {
        assert items[i].service.id != s.id;
      }
    }
  }

  /** Adding a service already present raises the totals by one unit of it. */
  lemma AddExistingTotals(items: seq<CartItem>, s: Service, k: nat)
    requires WellFormed(items) && k < |items| && items[k].service.id == s.id
    ensures Total(WithAdded(items, s)) == Total(items) + items[k].service.price
    ensures TotalDuration(WithAdded(items, s)) == TotalDuration(items) + items[k].service.duration
  {
    var line := items[k].(quantity := items[k].quantity + 1);
    AddExistingAt(items, s, k, line);
    TotalsReplaceAt(items, k, line);
    OneMoreUnit(items[k], line);
  }

  /** Adding a service not in the cart appends one unit of it as the last line, and the totals grow by its price and duration. */
  lemma AddNewTotals(items: seq<CartItem>, s: Service)
    requires !HasService(items, s.id)
    ensures WithAdded(items, s) == items + [CartItem(s, 1)]
    ensures Total(WithAdded(items, s)) == Total(items) + s.price
    ensures TotalDuration(WithAdded(items, s)) == TotalDuration(items) + s.duration
  {
    TotalsAppend(items, [CartItem(s, 1)]);
  }

  /** `addToCart` keeps the cart well formed, and the service is in the cart afterwards. */
  lemma AddKeepsWellFormed(items: seq<CartItem>, s: Service)
    requires WellFormed(items)
    ensures WellFormed(WithAdded(items, s)) && HasService(WithAdded(items, s), s.id)
  {
    var r := WithAdded(items, s);
    if HasService(items, s.id) {
      var k :| 0 <= k < |items| && items[k].service.id == s.id;
      assert r[k].service.id == s.id;
      forall i | 0 <= i < |r|
        ensures r[i].service.id == items[i].service.id && r[i].quantity >= items[i].quantity
      {
      }
    } else {
      assert r[|items|].service.id == s.id;
      forall i, j | 0 <= i < j < |r| ensures r[i].service.id != r[j].service.id {
        assert r[i] == items[i];
        if j < |items| {
          assert r[j] == items[j];
        }
      }
      forall i | 0 <= i < |r| ensures r[i].quantity >= 1 {
        if i < |items| {
          assert r[i] == items[i];
        }
      }
    }
  }

  /** Filtering distributes over concatenation. */
  lemma {:induction false} WithoutAppend(a: seq<CartItem>, b: seq<CartItem>, id: string)
    ensures Without(a + b, id) == Without(a, id) + Without(b, id)
  {
    if a == [] {
      assert a + b == b;
    } else {
      assert (a + b)[0] == a[0];
      assert (a + b)[1..] == a[1..] + b;
      WithoutAppend(a[1..], b, id);
    }
  }

  /** Removing a service that is not in the cart changes nothing. */
  lemma {:induction false} WithoutUnknown(items: seq<CartItem>, id: string)
    requires !HasService(items, id)
    ensures Without(items, id) == items
  {
    if items != [] {
      var tail := items[1..];
      assert !HasService(tail, id) by {
        forall i | 0 <= i < |tail| ensures tail[i].service.id != id {
          assert tail[i] == items[i + 1];
        }
      }
      WithoutUnknown(tail, id);
      assert items[0].service.id != id;
      assert items == [items[0]] + tail;
    }
  }

  /** On a well-formed cart, removing service `id` drops exactly its line at `k` and keeps the rest in order. */
  lemma RemoveAt(items: seq<CartItem>, id: string, k: nat)
    requires WellFormed(items) && k < |items| && items[k].service.id == id
    ensures Without(items, id) == items[..k] + items[k + 1..]
  {
    RemoveOnlyAt(items, id, k);
  }

  lemma {:induction false} RemoveOnlyAt(items: seq<CartItem>, id: string, k: nat)
    requires k < |items| && items[k].service.id == id
    requires forall i :: 0 <= i < |items| && i != k ==> items[i].service.id != id
    ensures Without(items, id) == items[..k] + items[k + 1..]
  {
    var tail := items[1..];
    if k == 0 {
      assert !HasService(tail, id) by {
        forall i | 0 <= i < |tail| ensures tail[i].service.id != id {
          assert tail[i] == items[i + 1];
        }
      }
      WithoutUnknown(tail, id);
    } else {
      forall i | 0 <= i < |tail| && i != k - 1 ensures tail[i].service.id != id {
        assert tail[i] == items[i + 1];
      }
      assert tail[k - 1] == items[k];
      RemoveOnlyAt(tail, id, k - 1);
      assert items[0].service.id != id;
      assert items[..k] + items[k + 1..] == [items[0]] + (tail[..k - 1] + tail[k..]);
    }
  }

  /** Removing service `id` lowers the totals by its line. */
  lemma RemoveTotals(items: seq<CartItem>, id: string, k: nat)
    requires WellFormed(items) && k < |items| && items[k].service.id == id
    ensures Total(Without(items, id)) == Total(items) - LineTotal(items[k])
    ensures TotalDuration(Without(items, id)) == TotalDuration(items) - LineDuration(items[k])
  {
    RemoveAt(items, id, k);
    TotalsRemoveAt(items, k);
  }

  lemma WellFormedTail(items: seq<CartItem>)
    requires WellFormed(items) && items != []
    ensures WellFormed(items[1..])
  {
    forall i, j | 0 <= i < j < |items| - 1 ensures items[1..][i].service.id != items[1..][j].service.id {
      assert items[1..][i] == items[i + 1] && items[1..][j] == items[j + 1];
    }
  }

  lemma WellFormedCons(x: CartItem, rest: seq<CartItem>)
    requires WellFormed(rest) && x.quantity >= 1
    requires forall j :: 0 <= j < |rest| ==> x.service.id != rest[j].service.id
    ensures WellFormed([x] + rest)
  {
    var r := [x] + rest;
    forall i, j | 0 <= i < j < |r| ensures r[i].service.id != r[j].service.id {
      assert r[j] == rest[j - 1];
      if i > 0 { assert r[i] == rest[i - 1]; }
    }
    forall i | 0 <= i < |r| ensures r[i].quantity >= 1 {
      if i > 0 { assert r[i] == rest[i - 1]; }
    }
  }

  lemma {:induction false} WithoutKeepsWellFormed(items: seq<CartItem>, id: string)
    requires WellFormed(items)
    ensures WellFormed(Without(items, id))
  {
    if items != [] {
      var tail := items[1..];
      WellFormedTail(items);
      WithoutKeepsWellFormed(tail, id);
      var rest := Without(tail, id);
      if items[0].service.id != id {
        WithoutMembers(tail, id);
        forall j | 0 <= j < |rest| ensures items[0].service.id != rest[j].service.id {
          assert rest[j] in tail;
          var m :| 0 <= m < |tail| && tail[m] == rest[j];
          assert items[m + 1] == rest[j];
        }
        assert items[0].quantity >= 1;
        WellFormedCons(items[0], rest);
        assert Without(items, id) == [items[0]] + rest;
      } else {
        assert Without(items, id) == rest;
      }
    }
  }

  /** `removeFromCart` keeps the cart well formed, and no line for the service is left. */
  lemma RemoveKeepsWellFormed(items: seq<CartItem>, id: string)
    requires WellFormed(items)
    ensures WellFormed(Without(items, id)) && !HasService(Without(items, id), id)
  {
    WithoutKeepsWellFormed(items, id);
    WithoutMembers(items, id);
    var r := Without(items, id);
    forall i | 0 <= i < |r| ensures r[i].service.id != id {
      assert r[i] in r;
    }
  }

  /** `updateQuantity` keeps the cart well formed for every `q`. */
  lemma UpdateQuantityKeepsWellFormed(items: seq<CartItem>, id: string, q: int)
    requires WellFormed(items)
    ensures WellFormed(WithQuantity(items, id, q))
  {
    if q <= 0 {
      WithoutKeepsWellFormed(items, id);
    } else {
      var r := WithQuantitySet(items, id, q);
      forall i | 0 <= i < |r| ensures r[i].service.id == items[i].service.id && r[i].quantity >= 1 {
      }
    }
  }

  /** On a well-formed cart, a positive quantity replaces that of the line at `k` and nothing else. */
  lemma UpdateQuantityAt(items: seq<CartItem>, id: string, q: int, k: nat, line: CartItem)
    requires WellFormed(items) && k < |items| && items[k].service.id == id && q > 0
    requires line == items[k].(quantity := q)
    ensures WithQuantity(items, id, q) == items[k := line]
  {
    var r := WithQuantity(items, id, q);
    forall i | 0 <= i < |items| ensures r[i] == items[k := line][i] {
      if i != k {
        assert items[i].service.id != id;
      }
    }
  }

  /**
   * A positive quantity changes the totals by the difference between the line with
   * its new quantity and the line as it was (see `QuantityChange` for that difference).
   */
  lemma UpdateQuantityTotals(items: seq<CartItem>, id: string, q: int, k: nat)
    requires WellFormed(items) && k < |items| && items[k].service.id == id && q > 0
    ensures Total(WithQuantity(items, id, q))
            == Total(items) - LineTotal(items[k]) + LineTotal(items[k].(quantity := q))
    ensures TotalDuration(WithQuantity(items, id, q))
            == TotalDuration(items) - LineDuration(items[k]) + LineDuration(items[k].(quantity := q))
  {
    var line := items[k].(quantity := q);
    UpdateQuantityAt(items, id, q, k, line);
    TotalsReplaceAt(items, k, line);
  }

  /** Setting the quantity of a service that is not in the cart changes nothing; so does removing it. */
  lemma UpdateQuantityUnknown(items: seq<CartItem>, id: string, q: int)
    requires !HasService(items, id)
    ensures WithQuantity(items, id, q) == items
  {
    if q <= 0 {
      WithoutUnknown(items, id);
    } else {
      var r := WithQuantitySet(items, id, q);
      forall i | 0 <= i < |items| ensures r[i] == items[i] {
        assert items[i].service.id != id;
      }
    }
  }

  /** The customer an emptied cart starts over with: `{ name: '' }`. */
  const EmptyCustomer := Customer("", None, None)

  /** `s || fallback` on an optional string: absent or empty gives the fallback. */
  function OrDefault(s: Option<string>, fallback: string): (r: string)
    ensures s.Some? && s.value != "" ==> r == s.value
    ensures s.None? || s.value == "" ==> r == fallback
  {
    if s.Some? && s.value != "" then s.value else fallback
  }

  /** The receipt number: "GYS-" followed by the last six characters of the timestamp's decimal form. */
  function ReceiptNumber(now: nat): string {
    "GYS-" + LastChars(NatToString(now), 6)
  }

  /**
   * The receipt number is "GYS-" and at most six digits, exactly six from 100000 on,
   * and those digits read back as the timestamp modulo 1000000.
   */
  lemma ReceiptNumberDigits(now: nat)
    ensures var r := ReceiptNumber(now);
            && r[..4] == "GYS-"
            && AllDigits(r[4..])
            && 4 < |r| <= 10
            && (now >= 100000 ==> |r| == 10)
            && DigitsValue(r[4..]) == now % 1000000
  {
    var digits := NatToString(now);
    var r := ReceiptNumber(now);
    var last := LastChars(digits, 6);
    assert r[4..] == last;
    if now >= 100000 {
      SixDigitsFromHundredThousand(now);
    }
    LastSixValue(now);
  }

  lemma SixDigitsFromHundredThousand(now: nat)
    requires now >= 100000
    ensures |NatToString(now)| >= 6
  {
    var digits := NatToString(now);
    NatToStringValue(now);
    DigitsValueBound(digits);
    if |digits| < 6 {
      PowMonotone(|digits|, 5);
    }
  }

  lemma LastSixValue(now: nat)
    ensures DigitsValue(LastChars(NatToString(now), 6)) == now % 1000000
  {
    var digits := NatToString(now);
    var last := LastChars(digits, 6);
    LastDigitsValue(digits, 6);
    NatToStringValue(now);
    var rest := DigitsValue(digits[..|digits| - |last|]);
    if |last| < 6 {
      assert digits[..|digits| - |last|] == [];
      SplitMod(now, 0, DigitsValue(last));
    } else {
      SplitMod(now, rest, DigitsValue(last));
    }
  }

  lemma SplitMod(x: nat, q: nat, v: nat)
    requires x == q * Pow10(6) + v && v < Pow10(6)
    ensures x % 1000000 == v
  {
    assert Pow10(6) == 1000000;
  }

  /** The payment `processPayment` records for the current cart. */
  function NewPayment(customer: Customer, items: seq<CartItem>, paymentMethod: PaymentMethod,
                      employeeId: Option<string>, employeeName: Option<string>, now: nat): (p: Payment)
    ensures p.customer == customer && p.items == items && p.total == Total(items)
    ensures p.paymentMethod == paymentMethod && p.timestamp == now
    ensures p.id == NatToString(now) && p.receiptNumber == ReceiptNumber(now)
    ensures p.employeeId == OrDefault(employeeId, "unknown")
    ensures p.employeeName == OrDefault(employeeName, "Ismeretlen")
  {
    Payment(NatToString(now), customer, items, Total(items), paymentMethod, now, ReceiptNumber(now),
            OrDefault(employeeId, "unknown"), OrDefault(employeeName, "Ismeretlen"))
  }

  /** The sum of the totals of the payments. */
  function SumTotals(ps: seq<Payment>): int {
    if ps == [] then 0 else ps[0].total + SumTotals(ps[1..])
  }

  /** `payments.filter(p => inWindow(p.timestamp)).reduce((sum, p) => sum + p.total, 0)`. */
  function Revenue(ps: seq<Payment>, inWindow: int -> bool): int {
    if ps == [] then 0
    else (if inWindow(ps[0].timestamp) then ps[0].total else 0) + Revenue(ps[1..], inWindow)
  }

  /** `payments.filter(p => inWindow(p.timestamp)).length`. */
  function Count(ps: seq<Payment>, inWindow: int -> bool): (n: nat)
    ensures n <= |ps|
  {
    if ps == [] then 0
    else (if inWindow(ps[0].timestamp) then 1 else 0) + Count(ps[1..], inWindow)
  }

  /** Seven days in milliseconds. */
  const WeekMs: int := 7 * 24 * 60 * 60 * 1000

  /** The week window of `getWeekRevenue`: timestamps no earlier than seven days before `now`. */
  function InLastWeek(now: int): int -> bool {
    t => t >= now - WeekMs
  }

  /** `getTodayRevenue`; `sameDay` tells whether a timestamp falls on the current calendar day. */
  function TodayRevenue(ps: seq<Payment>, sameDay: int -> bool): int { Revenue(ps, sameDay) }

  /** `getTodayTransactions`. */
  function TodayTransactions(ps: seq<Payment>, sameDay: int -> bool): nat { Count(ps, sameDay) }

  /** `getWeekRevenue` at time `now`. */
  function WeekRevenue(ps: seq<Payment>, now: int): int { Revenue(ps, InLastWeek(now)) }

  /** `getMonthlyRevenue`; `sameMonth` tells whether a timestamp falls in the current month of the current year. */
  function MonthlyRevenue(ps: seq<Payment>, sameMonth: int -> bool): int { Revenue(ps, sameMonth) }

  /** Recording one more payment changes a window's revenue and count by that payment alone. */
  lemma {:induction false} WindowAppend(ps: seq<Payment>, p: Payment, inWindow: int -> bool)
    ensures Revenue(ps + [p], inWindow) == Revenue(ps, inWindow) + (if inWindow(p.timestamp) then p.total else 0)
    ensures Count(ps + [p], inWindow) == Count(ps, inWindow) + (if inWindow(p.timestamp) then 1 else 0)
    ensures SumTotals(ps + [p]) == SumTotals(ps) + p.total
  {
    if ps != [] {
      assert (ps + [p])[1..] == ps[1..] + [p];
      WindowAppend(ps[1..], p, inWindow);
    }
  }

  /** With non-negative totals, any window's revenue lies between 0 and the revenue of all payments. */
  lemma {:induction false} RevenueBounded(ps: seq<Payment>, inWindow: int -> bool)
    requires forall i :: 0 <= i < |ps| ==> ps[i].total >= 0
    ensures 0 <= Revenue(ps, inWindow) <= SumTotals(ps)
  {
    if ps != [] {
      RevenueBounded(ps[1..], inWindow);
    }
  }

  /** A wider window never has less revenue (for non-negative totals) nor fewer payments. */
  lemma {:induction false} WindowMonotone(ps: seq<Payment>, narrow: int -> bool, wide: int -> bool)
    requires forall t :: narrow(t) ==> wide(t)
    requires forall i :: 0 <= i < |ps| ==> ps[i].total >= 0
    ensures Revenue(ps, narrow) <= Revenue(ps, wide)
    ensures Count(ps, narrow) <= Count(ps, wide)
  {
    if ps != [] {
      WindowMonotone(ps[1..], narrow, wide);
    }
  }

  /**
   * The cart store. `items`, `customer` and `payments` are the hook's three state
   * variables; each mutator replaces them as the corresponding `set...` call does.
   */
  class CartStore {
    var items: seq<CartItem>
    var customer: Customer
    var payments: seq<Payment>

    ghost predicate Valid()
      reads this
    {
      WellFormed(items)
    }

    constructor ()
      ensures Valid() && items == [] && customer == EmptyCustomer && payments == []
    {
      items, customer, payments := [], EmptyCustomer, [];
    }

    /** The mount effect: payments found in storage replace the (empty) list. */
    method LoadPayments(stored: Option<seq<Payment>>)
      requires Valid()
      modifies this
      ensures Valid() && items == old(items) && customer == old(customer)
      ensures payments == if stored.Some? then stored.value else old(payments)
    {
      if stored.Some? {
        payments := stored.value;
      }
    }

    method AddToCart(s: Service)
      requires Valid()
      modifies this
      ensures Valid() && items == WithAdded(old(items), s)
      ensures customer == old(customer) && payments == old(payments)
    {
      AddKeepsWellFormed(items, s);
      items := WithAdded(items, s);
    }

    method RemoveFromCart(id: string)
      requires Valid()
      modifies this
      ensures Valid() && items == Without(old(items), id)
      ensures customer == old(customer) && payments == old(payments)
    {
      RemoveKeepsWellFormed(items, id);
      items := Without(items, id);
    }

    method UpdateQuantity(id: string, q: int)
      requires Valid()
      modifies this
      ensures Valid() && items == WithQuantity(old(items), id, q)
      ensures customer == old(customer) && payments == old(payments)
    {
      UpdateQuantityKeepsWellFormed(items, id, q);
      if q <= 0 {
        RemoveFromCart(id);
        return;
      }
      items := WithQuantitySet(items, id, q);
    }

    method ClearCart()
      requires Valid()
      modifies this
      ensures Valid() && items == [] && customer == EmptyCustomer && payments == old(payments)
    {
      items := [];
      customer := EmptyCustomer;
    }

    method SetCustomer(c: Customer)
      requires Valid()
      modifies this
      ensures Valid() && customer == c && items == old(items) && payments == old(payments)
    {
      customer := c;
    }

    /**
     * `processPayment`: the payment snapshots the cart as it was, the payments list
     * grows by exactly that record at its end, and the cart is then cleared.
     */
    method ProcessPayment(paymentMethod: PaymentMethod, employeeId: Option<string>,
                          employeeName: Option<string>, now: nat) returns (p: Payment)
      requires Valid()
      modifies this
      ensures p == NewPayment(old(customer), old(items), paymentMethod, employeeId, employeeName, now)
      ensures payments == old(payments) + [p]
      ensures Valid() && items == [] && customer == EmptyCustomer
    {
      p := NewPayment(customer, items, paymentMethod, employeeId, employeeName, now);
      payments := payments + [p];
      ClearCart();
    }
  }
}
