/** The order endpoints (`orders.py`): a module-level list of orders and an
    order counter, updated in place; creation checks stock and computes the
    totals, a status update and a cancellation rewrite one order, the
    listing sorts and truncates, and the user summary counts by status. */
module OrdersApi {
  import opened Common

  type Json = string

  /** An item of the order payload; absent keys are `None`. Money in cents. */
  datatype OrderItem = OrderItem(
    productId: Option<int>, name: Option<string>, price: Option<int>,
    quantity: Option<int>, availableStock: Option<int>)

  function Quantity(item: OrderItem): int
  {
    if item.quantity.Some? then item.quantity.value else 1
  }

  function Available(item: OrderItem): int
  {
    if item.availableStock.Some? then item.availableStock.value else 0
  }

  function LineTotal(item: OrderItem): int
  {
    (if item.price.Some? then item.price.value else 0) * Quantity(item)
  }

  predicate Short(item: OrderItem)
  {
    Quantity(item) > Available(item)
  }

  const OrderStatuses: seq<string> := ["pending", "processing", "shipped", "delivered", "cancelled"]

  /** The status of a fresh order, outside the list the status update accepts. */
  const PendingPayment: string := "pending_payment"

  /** `cancel_order` refuses an order that is already shipped or delivered. */
  predicate Cancellable(status: string)
  {
    status !in ["shipped", "delivered"]
  }

  datatype Order = Order(
    id: int, userId: int, items: seq<OrderItem>,
    subtotal: int, shipping: int, tax: int, total: int,
    status: string, paymentMethod: string, paymentStatus: string,
    paymentId: Option<string>, shippingAddress: Json, billingAddress: Json,
    customerNotes: string, createdAt: int, updatedAt: int,
    trackingNumber: Option<string>, shippedAt: Option<int>,
    cancelledAt: Option<int>, cancellationReason: Option<string>)

  datatype Error =
    | MissingField
    | EmptyCart
    | InsufficientStock(productId: Option<int>)
    | InvalidStatus
    | NotFound
    | NotCancellable
    | NoJsonBody

  /** `NoJsonBody` is the framework's refusal of `request.json` on a request
      without a JSON body. */
  function StatusCode(e: Error): int
  {
    if e.NotFound? then 404 else if e.NoJsonBody? then 415 else 400
  }

  datatype Totals = Totals(subtotal: int, shipping: int, tax: int, total: int)

  /** Shipping is 10.00 below a subtotal of 100.00 unless the payload names it. */
  function ComputeTotals(items: seq<OrderItem>, shipping: Option<int>): (t: Totals)
    ensures t.subtotal == Sum(items, LineTotal)
    ensures shipping.Some? ==> t.shipping == shipping.value
    ensures shipping.None? ==> (t.shipping == 1000 <==> t.subtotal < 10000)
    ensures shipping.None? ==> (t.shipping == 0 <==> t.subtotal >= 10000)
    ensures t.tax == Tax(t.subtotal)
    ensures t.total == t.subtotal + t.shipping + t.tax
  {
    var subtotal := Sum(items, LineTotal);
    var ship := if shipping.Some? then shipping.value else if subtotal < 10000 then 1000 else 0;
    Totals(subtotal, ship, Tax(subtotal), subtotal + ship + Tax(subtotal))
  }

  /** With non-negative prices and quantities and the default shipping, the
      total is never below the subtotal, and the subtotal is not negative. */
  lemma TotalsBounds(items: seq<OrderItem>)
    requires forall i :: 0 <= i < |items| ==> LineTotal(items[i]) >= 0
    ensures 0 <= ComputeTotals(items, None).subtotal <= ComputeTotals(items, None).total
  {
    SumNonNegative(items, LineTotal);
  }

  /** The stock check of `create_order`: the first item asking for more than
      its `available_stock`, if any. */
  method FirstShortItem(items: seq<OrderItem>) returns (k: Option<nat>)
    ensures k.None? <==> forall i :: 0 <= i < |items| ==> !Short(items[i])
    ensures k.Some? ==> k.value < |items| && Short(items[k.value])
    ensures k.Some? ==> forall i :: 0 <= i < k.value ==> !Short(items[i])
  {
    var i := 0;
    while i < |items|
      invariant 0 <= i <= |items|
      invariant forall j :: 0 <= j < i ==> !Short(items[j])
    {
      if Quantity(items[i]) > Available(items[i]) {
        return Some(i);
      }
      i := i + 1;
    }
    return None;
  }

  /** Python's `s[:limit]`: a negative limit counts from the end. */
  function Take<T>(s: seq<T>, limit: int): (r: seq<T>)
    ensures limit >= 0 ==> |r| == if limit < |s| then limit else |s|
    ensures limit < 0 ==> |r| == if -limit < |s| then |s| + limit else 0
    ensures r == s[..|r|]
  {
    if limit >= 0 then (if limit < |s| then s[..limit] else s)
    else if -limit < |s| then s[..|s| + limit] else []
  }

  /** Newest first: no order is older than one listed after it. */
  ghost predicate NewestFirst(s: seq<Order>)
  {
    forall i, j :: 0 <= i < j < |s| ==> s[i].createdAt >= s[j].createdAt
  }

  /** A stable sort by `created_at`, newest first (`list.sort(key=...,
      reverse=True)`), built by insertion. */
  function Insert(x: Order, t: seq<Order>): seq<Order>
  {
    if t == [] || t[0].createdAt <= x.createdAt then [x] + t
    else [t[0]] + Insert(x, t[1..])
  }

  function SortNewestFirst(s: seq<Order>): seq<Order>
  {
    if s == [] then [] else Insert(s[0], SortNewestFirst(s[1..]))
  }

  /** No order of `s` is newer than `bound`. */
  ghost predicate NoNewerThan(s: seq<Order>, bound: int)
  {
    forall i :: 0 <= i < |s| ==> s[i].createdAt <= bound
  }

  lemma {:induction false} InsertPerm(x: Order, t: seq<Order>)
    ensures multiset(Insert(x, t)) == multiset(t) + multiset{x}
  {
    if t != [] && t[0].createdAt > x.createdAt {
      InsertPerm(x, t[1..]);
      assert t == [t[0]] + t[1..];
    }
  }

  lemma {:induction false} InsertBounded(x: Order, t: seq<Order>, bound: int)
    requires NoNewerThan(t, bound) && x.createdAt <= bound
    ensures NoNewerThan(Insert(x, t), bound)
  {
    if t != [] && t[0].createdAt > x.createdAt {
      InsertBounded(x, t[1..], bound);
    }
  }

  lemma {:induction false} InsertSorted(x: Order, t: seq<Order>)
    requires NewestFirst(t)
    ensures NewestFirst(Insert(x, t))
  {
    if t != [] && t[0].createdAt > x.createdAt {
      var t' := t[1..];
      InsertSorted(x, t');
      InsertBounded(x, t', t[0].createdAt);
      var r := Insert(x, t');
      assert Insert(x, t) == [t[0]] + r;
    } else if t != [] {
      assert NoNewerThan(t, x.createdAt);
    }
  }

  /** The sorted list is ordered newest first and is a permutation. */
  lemma {:induction false} SortFacts(s: seq<Order>)
    ensures NewestFirst(SortNewestFirst(s))
    ensures multiset(SortNewestFirst(s)) == multiset(s)
  {
    if s != [] {
      SortFacts(s[1..]);
      InsertSorted(s[0], SortNewestFirst(s[1..]));
      InsertPerm(s[0], SortNewestFirst(s[1..]));
      assert s == [s[0]] + s[1..];
    }
  }

  function CreatedAt(at: int): Order -> bool
  {
    (o: Order) => o.createdAt == at
  }

  lemma {:induction false} InsertStable(x: Order, t: seq<Order>, at: int)
    ensures Filter(Insert(x, t), CreatedAt(at)) == Filter([x] + t, CreatedAt(at))
  {
    var p := CreatedAt(at);
    if t != [] && t[0].createdAt > x.createdAt {
      var t' := t[1..];
      var rest := Insert(x, t');
      var a := if p(t[0]) then [t[0]] else [];
      var b := if p(x) then [x] else [];
      assert Filter(Insert(x, t), p) == a + (b + Filter(t', p)) by {
        InsertStable(x, t', at);
        assert Insert(x, t) == [t[0]] + rest;
        FilterFront(t[0], rest, p);
        FilterFront(x, t', p);
      }
      assert Filter([x] + t, p) == b + (a + Filter(t', p)) by {
        assert t == [t[0]] + t';
        FilterFront(t[0], t', p);
        FilterFront(x, t, p);
      }
      assert a == [] || b == [];
    }
  }

  /** Orders with the same `created_at` keep their relative order. */
  lemma {:induction false} SortStable(s: seq<Order>, at: int)
    ensures Filter(SortNewestFirst(s), CreatedAt(at)) == Filter(s, CreatedAt(at))
  {
    if s != [] {
      var p := CreatedAt(at);
      SortStable(s[1..], at);
      InsertStable(s[0], SortNewestFirst(s[1..]), at);
      FilterFront(s[0], SortNewestFirst(s[1..]), p);
      FilterFront(s[0], s[1..], p);
      assert s == [s[0]] + s[1..];
    }
  }

  function OfUser(userId: int): Order -> bool
  {
    (o: Order) => o.userId == userId
  }

  function WithStatus(status: string): Order -> bool
  {
    (o: Order) => o.status == status
  }

  /** The list `get_orders` sorts: `orders_db` itself unless a truthy user id
      or status narrows it to a new list. */
  function Selected(orders: seq<Order>, userId: Option<int>, status: Option<string>): (r: seq<Order>)
    ensures forall o :: o in r <==>
      (o in orders && (userId.None? || userId.value == 0 || o.userId == userId.value)
       && (status.None? || status.value == "" || o.status == status.value))
  {
    var byUser := if userId.Some? && userId.value != 0 then Filter(orders, OfUser(userId.value)) else orders;
    if status.Some? && status.value != "" then Filter(byUser, WithStatus(status.value)) else byUser
  }

  function OrderTotal(o: Order): int { o.total }

  /** One `(status, count)` entry of `status_counts`. */
  datatype StatusCount = StatusCount(status: string, count: int)

  function CountValue(c: StatusCount): int { c.count }

  function KeyIndex(t: seq<StatusCount>, status: string): (k: Option<nat>)
    ensures k.Some? ==> k.value < |t| && t[k.value].status == status
    ensures k.None? ==> forall i :: 0 <= i < |t| ==> t[i].status != status
  {
    if t == [] then None
    else if t[0].status == status then Some(0)
    else match KeyIndex(t[1..], status)
      case None => None
      case Some(k) => Some(k + 1)
  }

  /** `status_counts[status] = status_counts.get(status, 0) + 1`: an existing
      key keeps its place, a new key goes last. */
  function Bump(t: seq<StatusCount>, status: string): seq<StatusCount>
  {
    match KeyIndex(t, status)
    case Some(k) => t[k := StatusCount(status, t[k].count + 1)]
    case None => t + [StatusCount(status, 1)]
  }

  /** The dictionary after counting the statuses of `s` in order. */
  function Tally(s: seq<string>): seq<StatusCount>
  {
    if s == [] then [] else Bump(Tally(s[..|s| - 1]), s[|s| - 1])
  }

  function Lookup(t: seq<StatusCount>, status: string): int
  {
    match KeyIndex(t, status)
    case Some(k) => t[k].count
    case None => 0
  }

  ghost predicate DistinctKeys(t: seq<StatusCount>)
  {
    forall i, j :: 0 <= i < j < |t| ==> t[i].status != t[j].status
  }

  lemma {:induction false} SumUpdate(t: seq<StatusCount>, k: nat, c: StatusCount)
    requires k < |t|
    ensures Sum(t[k := c], CountValue) == Sum(t, CountValue) - t[k].count + c.count
  {
    var last := |t| - 1;
    if k < last {
      SumUpdate(t[..last], k, c);
      assert t[k := c][..last] == t[..last][k := c];
    } else {
      assert t[k := c][..last] == t[..last];
    }
  }

  lemma {:induction false} KeyIndexDistinct(t: seq<StatusCount>, k: nat)
    requires DistinctKeys(t) && k < |t|
    ensures KeyIndex(t, t[k].status) == Some(k)
  {
    if k > 0 {
      assert t[0].status != t[k].status;
      KeyIndexDistinct(t[1..], k - 1);
    }
  }

  function Is(status: string): string -> bool
  {
    (x: string) => x == status
  }

  /** Counting one more status raises its count by one, leaves every other
      count alone and keeps the keys distinct. */
  lemma BumpFacts(t: seq<StatusCount>, x: string)
    requires DistinctKeys(t)
    ensures DistinctKeys(Bump(t, x))
    ensures Sum(Bump(t, x), CountValue) == Sum(t, CountValue) + 1
    ensures forall st :: Lookup(Bump(t, x), st) == Lookup(t, st) + (if st == x then 1 else 0)
  {
    var t' := Bump(t, x);
    match KeyIndex(t, x) {
      case Some(k) =>
        SumUpdate(t, k, StatusCount(x, t[k].count + 1));
        assert DistinctKeys(t');
        forall st ensures Lookup(t', st) == Lookup(t, st) + (if st == x then 1 else 0) {
          if st == x {
            KeyIndexDistinct(t', k);
          } else if KeyIndex(t, st).Some? {
            KeyIndexDistinct(t', KeyIndex(t, st).value);
          } else {
            assert KeyIndex(t', st).None?;
          }
        }
      case None =>
        SumAppend(t, [StatusCount(x, 1)], CountValue);
        assert [StatusCount(x, 1)][..0] == [];
        assert DistinctKeys(t');
        forall st ensures Lookup(t', st) == Lookup(t, st) + (if st == x then 1 else 0) {
          if st == x {
            KeyIndexDistinct(t', |t|);
          } else if KeyIndex(t, st).Some? {
            KeyIndexDistinct(t', KeyIndex(t, st).value);
          } else {
            assert KeyIndex(t', st).None?;
          }
        }
    }
  }

  /** The counts have distinct keys, add up to the number of statuses
      counted, and each equals the number of orders with that status. */
  lemma {:induction false} TallyFacts(s: seq<string>)
    ensures DistinctKeys(Tally(s))
    ensures Sum(Tally(s), CountValue) == |s|
    ensures forall st :: Lookup(Tally(s), st) == Count(s, Is(st))
  {
    if s != [] {
      var init := s[..|s| - 1];
      var x := s[|s| - 1];
      TallyFacts(init);
      BumpFacts(Tally(init), x);
      forall st ensures Lookup(Tally(s), st) == Count(s, Is(st)) {
        assert Filter(s, Is(st)) == Filter(init, Is(st)) + (if Is(st)(x) then [x] else []);
      }
    }
  }

  /** The orders' statuses, in order. */
  function Statuses(orders: seq<Order>): seq<string>
  {
    seq(|orders|, i requires 0 <= i < |orders| => orders[i].status)
  }

  /** The loop filling `status_counts`, order by order; nothing changes. */
  method CountStatuses(orders: seq<Order>) returns (t: seq<StatusCount>)
    ensures t == Tally(Statuses(orders))
    ensures DistinctKeys(t) && Sum(t, CountValue) == |orders|
  {
    var statuses := Statuses(orders);
    t := [];
    var i := 0;
    while i < |orders|
      invariant 0 <= i <= |orders|
      invariant t == Tally(statuses[..i])
    {
      assert statuses[..i + 1][..i] == statuses[..i];
      var status := orders[i].status;
      match KeyIndex(t, status) {
        case Some(k) =>
          t := t[k := StatusCount(status, t[k].count + 1)];
        case None =>
          t := t + [StatusCount(status, 1)];
      }
      i := i + 1;
    }
    assert statuses[..i] == statuses;
    TallyFacts(statuses);
  }

  /** The newest `created_at` of a non-empty list, as `max(..., key=...)` finds it. */
  function Latest(s: seq<Order>): (d: int)
    requires s != []
    ensures forall i :: 0 <= i < |s| ==> s[i].createdAt <= d
    ensures exists i :: 0 <= i < |s| && s[i].createdAt == d
  {
    if |s| == 1 then s[0].createdAt
    else
      var d := Latest(s[..|s| - 1]);
      assert forall i :: 0 <= i < |s| - 1 ==> s[..|s| - 1][i] == s[i];
      if s[|s| - 1].createdAt > d then s[|s| - 1].createdAt else d
  }

  datatype UserSummary = UserSummary(
    totalOrders: int, totalSpent: int, averageOrderValue: real,
    lastOrderDate: Option<int>, statusCounts: Option<seq<StatusCount>>)

  /** The module-level `orders_db` and `order_counter`. */
  class Orders {
    var orders: seq<Order>
    var counter: int

    /** Every order's id is at most the counter. */
    ghost predicate Valid()
      reads this
    {
      forall i :: 0 <= i < |orders| ==> orders[i].id <= counter
    }

    constructor ()
      ensures Valid() && orders == [] && counter == 1000
    {
      orders := [];
      counter := 1000;
    }

    /** `create_order`: the counter is raised first and names the order, so
        the new id exceeds every id already in the table. */
    method CreateOrder(userId: Option<int>, items: Option<seq<OrderItem>>, shipping: Option<int>,
                       paymentMethod: Option<string>, shippingAddress: Option<Json>,
                       billingAddress: Option<Json>, customerNotes: Option<string>, now: int)
      returns (r: Result<Order, Error>)
      requires Valid()
      modifies this
      ensures Valid()
      ensures userId.None? || items.None? ==> r == Err(MissingField) && unchanged(this)
      ensures userId.Some? && items.Some? && items.value == [] ==> r == Err(EmptyCart) && unchanged(this)
      ensures userId.Some? && items.Some? && items.value != [] && (exists i :: 0 <= i < |items.value| && Short(items.value[i])) ==>
        r.Err? && r.error.InsufficientStock? && unchanged(this)
        && exists k :: (0 <= k < |items.value| && Short(items.value[k]) && items.value[k].productId == r.error.productId
                        && forall j :: 0 <= j < k ==> !Short(items.value[j]))
      ensures r.Err? && r.error.InsufficientStock? ==>
        unchanged(this) && items.Some?
        && exists i :: 0 <= i < |items.value| && Short(items.value[i]) && items.value[i].productId == r.error.productId
      ensures userId.Some? && items.Some? && items.value != [] && (forall i :: 0 <= i < |items.value| ==> !Short(items.value[i])) ==>
        r.Ok? && counter == old(counter) + 1 && orders == old(orders) + [r.value]
      ensures r.Ok? ==> var o := r.value; var t := ComputeTotals(o.items, shipping);
        o.id == counter && (forall i :: 0 <= i < |old(orders)| ==> old(orders)[i].id < o.id)
        && Some(o.userId) == userId && Some(o.items) == items
        && o.subtotal == t.subtotal && o.shipping == t.shipping && o.tax == t.tax && o.total == t.total
        && o.status == PendingPayment && o.paymentStatus == "pending" && o.paymentId.None?
        && o.paymentMethod == (if paymentMethod.Some? then paymentMethod.value else "credit_card")
        && o.createdAt == now && o.trackingNumber.None? && o.cancellationReason.None?
    {
      if userId.None? || items.None? {
        return Err(MissingField);
      }
      var lines := items.value;
      if lines == [] {
        return Err(EmptyCart);
      }
      var short := FirstShortItem(lines);
      if short.Some? {
        return Err(InsufficientStock(lines[short.value].productId));
      }
      var t := ComputeTotals(lines, shipping);
      counter := counter + 1;
      var o := Order(counter, userId.value, lines, t.subtotal, t.shipping, t.tax, t.total,
                     PendingPayment,
                     if paymentMethod.Some? then paymentMethod.value else "credit_card",
                     "pending", None,
                     if shippingAddress.Some? then shippingAddress.value else "{}",
                     if billingAddress.Some? then billingAddress.value else "{}",
                     if customerNotes.Some? then customerNotes.value else "",
                     now, now, None, None, None, None);
      orders := orders + [o];
      r := Ok(o);
    }

    /** `update_order_status`: the status must be one of `ORDER_STATUSES`
        and the order must exist; `'shipped'` also stamps a tracking number. */
    method UpdateStatus(orderId: int, status: Option<string>, tracking: string, now: int)
      returns (r: Result<Order, Error>)
      requires Valid()
      modifies this`orders
      ensures Valid()
      ensures status.None? ==> r == Err(MissingField) && orders == old(orders)
      ensures status.Some? && status.value !in OrderStatuses ==> r == Err(InvalidStatus) && orders == old(orders)
      ensures status.Some? && status.value in OrderStatuses && FindOrder(old(orders), orderId).None? ==>
        r == Err(NotFound) && orders == old(orders)
      ensures status.Some? && status.value in OrderStatuses && FindOrder(old(orders), orderId).Some? ==>
        var k := FindOrder(old(orders), orderId).value;
        var o := old(orders)[k];
        r.Ok? && orders == old(orders)[k := r.value]
        && r.value == (if status.value == "shipped"
                       then o.(status := status.value, updatedAt := now, trackingNumber := Some(tracking), shippedAt := Some(now))
                       else o.(status := status.value, updatedAt := now))
    {
      if status.None? {
        return Err(MissingField);
      }
      if status.value !in OrderStatuses {
        return Err(InvalidStatus);
      }
      var k := FindOrder(orders, orderId);
      if k.None? {
        return Err(NotFound);
      }
      var o := orders[k.value].(status := status.value, updatedAt := now);
      if status.value == "shipped" {
        o := o.(trackingNumber := Some(tracking), shippedAt := Some(now));
      }
      orders := orders[k.value := o];
      r := Ok(o);
    }

    /** `cancel_order`: 404 for an unknown order, 400 once shipped or
        delivered; otherwise the status and both timestamps are written
        before the body is read, so a request without a JSON body fails with
        the order already cancelled and its reason untouched. `body` is the
        JSON body, `None` when there is none; inside it, the `reason`. */
    method Cancel(orderId: int, body: Option<Option<string>>, now: int) returns (r: Result<Order, Error>)
      requires Valid()
      modifies this`orders
      ensures Valid()
      ensures FindOrder(old(orders), orderId).None? ==> r == Err(NotFound) && orders == old(orders)
      ensures FindOrder(old(orders), orderId).Some? ==>
        var k := FindOrder(old(orders), orderId).value;
        var o := old(orders)[k];
        var stamped := o.(status := "cancelled", updatedAt := now, cancelledAt := Some(now));
        if !Cancellable(o.status) then
          r == Err(NotCancellable) && orders == old(orders)
        else if body.None? then
          r == Err(NoJsonBody) && orders == old(orders)[k := stamped]
        else
          r.Ok? && orders == old(orders)[k := r.value]
          && r.value == stamped.(cancellationReason := Some(if body.value.Some? then body.value.value else "Solicitud del cliente"))
    {
      var k := FindOrder(orders, orderId);
      if k.None? {
        return Err(NotFound);
      }
      var o := orders[k.value];
      if !Cancellable(o.status) {
        return Err(NotCancellable);
      }
      o := o.(status := "cancelled", updatedAt := now, cancelledAt := Some(now));
      orders := orders[k.value := o];
      if body.None? {
        return Err(NoJsonBody);
      }
      var reason := body.value;
      o := o.(cancellationReason := Some(if reason.Some? then reason.value else "Solicitud del cliente"));
      orders := orders[k.value := o];
      r := Ok(o);
    }

    /** `get_orders`: newest first, cut to `limit` (20 by default). Without a
        filter the sort rearranges `orders_db` itself. */
    method GetOrders(userId: Option<int>, status: Option<string>, limit: Option<int>) returns (listed: seq<Order>)
      requires Valid()
      modifies this`orders
      ensures Valid()
      ensures var filtered := (userId.Some? && userId.value != 0) || (status.Some? && status.value != "");
        orders == (if filtered then old(orders) else SortNewestFirst(old(orders)))
      ensures listed == Take(SortNewestFirst(Selected(old(orders), userId, status)), if limit.Some? then limit.value else 20)
      ensures NewestFirst(listed)
      ensures forall o :: o in listed ==> o in old(orders)
    {
      var chosen := Selected(orders, userId, status);
      var sorted := SortNewestFirst(chosen);
      SortFacts(chosen);
      if !((userId.Some? && userId.value != 0) || (status.Some? && status.value != "")) {
        assert chosen == orders;
        forall i | 0 <= i < |sorted| ensures sorted[i].id <= counter {
          assert sorted[i] in multiset(orders);
        }
        orders := sorted;
      }
      listed := Take(sorted, if limit.Some? then limit.value else 20);
      forall o | o in listed ensures o in old(orders) {
        assert o in multiset(sorted);
      }
    }

    /** `get_user_orders_summary`: nothing changes. */
    method UserOrdersSummary(userId: int) returns (s: UserSummary)
      ensures var mine := Filter(orders, OfUser(userId));
        s.totalOrders == |mine| && s.totalSpent == Sum(mine, OrderTotal)
        && (mine == [] ==> s == UserSummary(0, 0, 0.0, None, None))
        && (mine != [] ==>
              s.lastOrderDate == Some(Latest(mine))
              && s.averageOrderValue == (s.totalSpent as real) / (|mine| as real)
              && s.statusCounts == Some(Tally(Statuses(mine)))
              && DistinctKeys(s.statusCounts.value)
              && Sum(s.statusCounts.value, CountValue) == s.totalOrders
              && forall st :: Lookup(s.statusCounts.value, st) == Count(Statuses(mine), Is(st)))
    {
      var mine := Filter(orders, OfUser(userId));
      if mine == [] {
        return UserSummary(0, 0, 0.0, None, None);
      }
      var spent := Sum(mine, OrderTotal);
      var counts := CountStatuses(mine);
      TallyFacts(Statuses(mine));
      s := UserSummary(|mine|, spent, (spent as real) / (|mine| as real), Some(Latest(mine)), Some(counts));
    }
  }

  function FindOrder(orders: seq<Order>, id: int): (k: Option<nat>)
    ensures k.Some? ==> k.value < |orders| && orders[k.value].id == id
    ensures k.Some? ==> forall j :: 0 <= j < k.value ==> orders[j].id != id
    ensures k.None? ==> forall j :: 0 <= j < |orders| ==> orders[j].id != id
  {
    if orders == [] then None
    else if orders[0].id == id then Some(0)
    else match FindOrder(orders[1..], id)
      case None => None
      case Some(k) => Some(k + 1)
  }

  /** A fresh order's status is not one the status update would accept
      (`UpdateStatus` cannot set it back), yet such an order can be
      cancelled; so can an order already cancelled, which a second
      cancellation stamps again. */
  lemma PendingPaymentOutsideStatuses()
    ensures PendingPayment !in OrderStatuses
    ensures Cancellable(PendingPayment)
    ensures Cancellable("cancelled")
  {
  }
}
