/** The benchmark's retail world: a cart, orders and a seeded payment failure. */
module RetailWorld {
  import opened Decimals

  datatype Line = Line(sku: string, qty: real)

  datatype Status = Placed | Paid

  datatype Order = Order(id: string, lines: seq<Line>, status: Status)

  datatype World = World(cart: seq<Line>, orders: seq<Order>, failOnce: set<string>, nextOrderId: nat)

  datatype Call = CartAdd(sku: string, qty: real) | CartView | OrderPlace | PaymentCharge(orderId: string)

  datatype Answer =
    | CartSize(n: nat)
    | CartLines(lines: seq<Line>)
    | OrderPlaced(orderId: string, itemCount: nat)
    | Charged(orderId: string)
    | EmptyCart
    | GatewayTimeout
    | UnknownOrder(orderId: string)

  const CHARGE := "payment.charge"

  function OrderId(n: nat): string { "o" + Decimal(n) }

  lemma OrderIdInjective(m: nat, n: nat)
    ensures OrderId(m) == OrderId(n) <==> m == n
  {
    if OrderId(m) == OrderId(n) {
      assert Decimal(m) == OrderId(m)[1..] && Decimal(n) == OrderId(n)[1..];
      DecimalInjective(m, n);
    }
  }

  // ---------------------------------------------------------------- the tools

  /** Position of the first order with an id, or the number of orders. */
  function FindOrder(orders: seq<Order>, id: string): (k: nat)
    ensures k <= |orders| && (k < |orders| ==> orders[k].id == id)
    ensures forall i | 0 <= i < k :: orders[i].id != id
  {
    if orders == [] then 0
    else if orders[0].id == id then 0
    else 1 + FindOrder(orders[1..], id)
  }

  function Apply(w: World, c: Call): (World, Answer) {
    match c
    case CartAdd(sku, qty) => (w.(cart := w.cart + [Line(sku, qty)]), CartSize(|w.cart| + 1))
    case CartView => (w, CartLines(w.cart))
    case OrderPlace =>
      if w.cart == [] then (w, EmptyCart)
      else (w.(orders := w.orders + [Order(OrderId(w.nextOrderId), w.cart, Placed)],
               cart := [], nextOrderId := w.nextOrderId + 1),
            OrderPlaced(OrderId(w.nextOrderId), |w.cart|))
    case PaymentCharge(id) =>
      if CHARGE in w.failOnce then (w.(failOnce := w.failOnce - {CHARGE}), GatewayTimeout)
      else
        var k := FindOrder(w.orders, id);
        if k == |w.orders| then (w, UnknownOrder(id))
        else (w.(orders := w.orders[k := w.orders[k].(status := Paid)]), Charged(id))
  }

  function Created(failOnce: set<string>): World { World([], [], failOnce, 1) }

  function After(f: set<string>, t: seq<Call>): World {
    if t == [] then Created(f) else Apply(After(f, t[..|t| - 1]), t[|t| - 1]).0
  }

  function AnswerAt(f: set<string>, t: seq<Call>, i: nat): Answer
    requires i < |t|
  {
    Apply(After(f, t[..i]), t[i]).1
  }

  /** The world as the tools mutate it. */
  class Store {
    var cart: seq<Line>
    var orders: seq<Order>
    var failOnce: set<string>
    var nextOrderId: nat

    ghost function View(): World
      reads this
    {
      World(cart, orders, failOnce, nextOrderId)
    }

    constructor (fail: set<string>)
      ensures View() == Created(fail)
    {
      cart, orders, failOnce, nextOrderId := [], [], fail, 1;
    }

    method Add(sku: string, qty: real) returns (a: Answer)
      modifies this
      ensures (View(), a) == Apply(old(View()), CartAdd(sku, qty))
      ensures cart == old(cart) + [Line(sku, qty)] && a == CartSize(|cart|)
      ensures orders == old(orders) && failOnce == old(failOnce) && nextOrderId == old(nextOrderId)
    {
      cart := cart + [Line(sku, qty)];
      a := CartSize(|cart|);
    }

    method Place() returns (a: Answer)
      modifies this
      ensures (View(), a) == Apply(old(View()), OrderPlace)
      ensures old(cart) == [] ==> a == EmptyCart && View() == old(View())
      ensures old(cart) != [] ==>
                && orders == old(orders) + [Order("o" + Decimal(old(nextOrderId)), old(cart), Placed)]
                && cart == [] && nextOrderId == old(nextOrderId) + 1 && failOnce == old(failOnce)
                && a == OrderPlaced("o" + Decimal(old(nextOrderId)), |old(cart)|)
    {
      if |cart| == 0 {
        return EmptyCart;
      }
      var id := OrderId(nextOrderId);
      nextOrderId := nextOrderId + 1;
      orders := orders + [Order(id, cart, Placed)];
      cart := [];
      a := OrderPlaced(id, |orders[|orders| - 1].lines|);
    }

    method Charge(orderId: string) returns (a: Answer)
      modifies this
      ensures (View(), a) == Apply(old(View()), PaymentCharge(orderId))
      ensures cart == old(cart) && nextOrderId == old(nextOrderId) && |orders| == |old(orders)|
      ensures "payment.charge" in old(failOnce) ==>
                a == GatewayTimeout && orders == old(orders) && failOnce == old(failOnce) - {"payment.charge"}
      ensures "payment.charge" !in old(failOnce) ==>
                && failOnce == old(failOnce)
                && (a == UnknownOrder(orderId) <==> forall k | 0 <= k < |old(orders)| :: old(orders)[k].id != orderId)
                && (a == UnknownOrder(orderId) || a == Charged(orderId))
                && (a == UnknownOrder(orderId) ==> orders == old(orders))
                && (a == Charged(orderId) ==>
                      exists k | 0 <= k < |orders| ::
                        old(orders)[k].id == orderId && (forall j | 0 <= j < k :: old(orders)[j].id != orderId) &&
                        orders == old(orders)[k := Order(orderId, old(orders)[k].lines, Paid)])
    {
      if CHARGE in failOnce {
        failOnce := failOnce - {CHARGE};
        return GatewayTimeout;
      }
      var k := FindOrder(orders, orderId);
      if k == |orders| {
        return UnknownOrder(orderId);
      }
      orders := orders[k := orders[k].(status := Paid)];
      a := Charged(orderId);
    }
  }

  // ---------------------------------------------------------------- conservation

  function OrderedLines(orders: seq<Order>): seq<Line> {
    if orders == [] then [] else OrderedLines(orders[..|orders| - 1]) + orders[|orders| - 1].lines
  }

  /** Every line ever added, in order. */
  function Added(t: seq<Call>): seq<Line> {
    if t == [] then []
    else Added(t[..|t| - 1]) + if t[|t| - 1].CartAdd? then [Line(t[|t| - 1].sku, t[|t| - 1].qty)] else []
  }

  lemma {:induction false} StatusKeepsLines(a: seq<Order>, b: seq<Order>)
    requires |a| == |b| && forall i | 0 <= i < |a| :: a[i].lines == b[i].lines
    ensures OrderedLines(a) == OrderedLines(b)
  {
    if a != [] {
      StatusKeepsLines(a[..|a| - 1], b[..|b| - 1]);
    }
  }

  lemma AddLine(lines: seq<Line>, cart: seq<Line>, l: Line)
    ensures lines + (cart + [l]) == (lines + cart) + [l]
  {
  }

  lemma PlaceLines(orders: seq<Order>, o: Order)
    ensures OrderedLines(orders + [o]) == OrderedLines(orders) + o.lines
  {
    assert (orders + [o])[..|orders|] == orders;
  }

  lemma ApplyConserves(w: World, c: Call)
    ensures var w' := Apply(w, c).0;
            OrderedLines(w'.orders) + w'.cart ==
            (OrderedLines(w.orders) + w.cart) + if c.CartAdd? then [Line(c.sku, c.qty)] else []
  {
    var w' := Apply(w, c).0;
    match c {
      case CartAdd(sku, qty) => AddLine(OrderedLines(w.orders), w.cart, Line(sku, qty));
      case CartView =>
      case OrderPlace =>
        if w.cart != [] {
          PlaceLines(w.orders, Order(OrderId(w.nextOrderId), w.cart, Placed));
          assert OrderedLines(w'.orders) + [] == OrderedLines(w'.orders);
        }
      case PaymentCharge(_) => StatusKeepsLines(w.orders, w'.orders);
    }
  }

  /** Conservation: the lines of all orders in turn, then the cart, are the lines added. */
  lemma {:induction false} LinesConserved(f: set<string>, t: seq<Call>)
    ensures OrderedLines(After(f, t).orders) + After(f, t).cart == Added(t)
  {
    if t != [] {
      LinesConserved(f, t[..|t| - 1]);
      ApplyConserves(After(f, t[..|t| - 1]), t[|t| - 1]);
    }
  }

  /** The k-th order carries the k-th id, so ids are pairwise distinct. */
  lemma {:induction false} IdsNumbered(f: set<string>, t: seq<Call>)
    ensures After(f, t).nextOrderId == |After(f, t).orders| + 1
    ensures forall i | 0 <= i < |After(f, t).orders| :: After(f, t).orders[i].id == OrderId(i + 1)
  {
    if t != [] {
      IdsNumbered(f, t[..|t| - 1]);
    }
  }

  lemma IdsDistinct(f: set<string>, t: seq<Call>, i: nat, j: nat)
    requires i < |After(f, t).orders| && j < |After(f, t).orders|
    ensures After(f, t).orders[i].id == After(f, t).orders[j].id <==> i == j
  {
    IdsNumbered(f, t);
    OrderIdInjective(i + 1, j + 1);
  }

  lemma Prefix(f: set<string>, t: seq<Call>, n: nat)
    requires n < |t|
    ensures After(f, t[..n + 1]) == Apply(After(f, t[..n]), t[n]).0
  {
    assert t[..n + 1][..n] == t[..n];
  }

  /** Order `i` kept its id and lines, and stayed paid if it was. */
  ghost predicate Advanced(a: seq<Order>, b: seq<Order>, i: nat) {
    && i < |a| && i < |b| && b[i].id == a[i].id && b[i].lines == a[i].lines
    && (a[i].status == Paid ==> b[i].status == Paid)
  }

  lemma ApplyAdvances(w: World, c: Call, i: nat)
    requires i < |w.orders|
    ensures Advanced(w.orders, Apply(w, c).0.orders, i)
  {
  }

  lemma AdvancedTrans(a: seq<Order>, b: seq<Order>, c: seq<Order>, i: nat)
    requires Advanced(a, b, i) && Advanced(b, c, i)
    ensures Advanced(a, c, i)
  {
  }

  ghost predicate Chains(ws: seq<World>, t: seq<Call>) {
    |ws| == |t| + 1 && forall k | 0 <= k < |t| :: ws[k + 1] == Apply(ws[k], t[k]).0
  }

  lemma {:induction false} ChainAdvances(ws: seq<World>, t: seq<Call>, m: nat, n: nat, i: nat)
    requires Chains(ws, t) && m <= n <= |t| && i < |ws[m].orders|
    ensures Advanced(ws[m].orders, ws[n].orders, i)
    decreases n
  {
    if m < n {
      ChainAdvances(ws, t, m, n - 1, i);
      ApplyAdvances(ws[n - 1], t[n - 1], i);
      AdvancedTrans(ws[m].orders, ws[n - 1].orders, ws[n].orders, i);
    }
  }

  /** Once placed, an order keeps its id and lines, and once paid it stays paid. */
  lemma OrdersOnlyAdvance(f: set<string>, t: seq<Call>, m: nat, n: nat, i: nat)
    requires m <= n <= |t| && i < |After(f, t[..m]).orders|
    ensures Advanced(After(f, t[..m]).orders, After(f, t[..n]).orders, i)
  {
    var ws := seq(|t| + 1, k requires 0 <= k <= |t| => After(f, t[..k]));
    forall k | 0 <= k < |t|
      ensures ws[k + 1] == Apply(ws[k], t[k]).0
    {
      Prefix(f, t, k);
    }
    ChainAdvances(ws, t, m, n, i);
  }

  /** An order is paid exactly when some charge that answered `Charged` named it after it was placed. */
  lemma {:induction false} PaidExactly(f: set<string>, t: seq<Call>, n: nat, i: nat)
    requires n <= |t| && i < |After(f, t[..n]).orders|
    ensures After(f, t[..n]).orders[i].status == Paid <==> EverCharged(f, t, n, i)
    decreases n
  {
    if n > 0 {
      var m := n - 1;
      var w, w' := After(f, t[..m]), After(f, t[..n]);
      Prefix(f, t, m);
      IdsNumbered(f, t[..m]);
      if i < |w.orders| {
        PaidExactly(f, t, m, i);
        PaidByStep(f, t, m, i);
        PaidStep(w, t[m], i);
      } else {
        forall j: nat | j < n
          ensures !PaidBy(f, t, n, i, j)
        {
          NotYetPlaced(f, t, m, i, j);
        }
      }
    }
  }

  lemma PaidStep(w: World, c: Call, i: nat)
    requires i < |w.orders| && forall k | 0 <= k < |w.orders| :: w.orders[k].id == OrderId(k + 1)
    ensures i < |Apply(w, c).0.orders|
    ensures Apply(w, c).0.orders[i].status == Paid <==>
            w.orders[i].status == Paid || Apply(w, c).1 == Charged(OrderId(i + 1))
  {
    if c.PaymentCharge? {
      var k := FindOrder(w.orders, c.orderId);
      if k < |w.orders| {
        OrderIdInjective(k + 1, i + 1);
      }
    }
  }

  ghost predicate PaidBy(f: set<string>, t: seq<Call>, n: nat, i: nat, j: nat)
    requires n <= |t|
  {
    j < n && AnswerAt(f, t, j) == Charged(OrderId(i + 1))
  }

  ghost predicate EverCharged(f: set<string>, t: seq<Call>, n: nat, i: nat)
    requires n <= |t|
  {
    exists j: nat :: PaidBy(f, t, n, i, j)
  }

  lemma PaidByStep(f: set<string>, t: seq<Call>, m: nat, i: nat)
    requires m < |t|
    ensures EverCharged(f, t, m + 1, i) <==> EverCharged(f, t, m, i) || AnswerAt(f, t, m) == Charged(OrderId(i + 1))
  {
    var n := m + 1;
    if EverCharged(f, t, m, i) {
      var j: nat :| PaidBy(f, t, m, i, j);
      assert PaidBy(f, t, n, i, j);
    }
    if AnswerAt(f, t, m) == Charged(OrderId(i + 1)) {
      assert PaidBy(f, t, n, i, m);
    }
    if EverCharged(f, t, n, i) {
      var j: nat :| PaidBy(f, t, n, i, j);
      assert j < m ==> PaidBy(f, t, m, i, j);
    }
  }

  /** No charge succeeds for an order not placed yet. */
  lemma NotYetPlaced(f: set<string>, t: seq<Call>, m: nat, i: nat, j: nat)
    requires m < |t| && j <= m && |After(f, t[..m]).orders| <= i
    ensures AnswerAt(f, t, j) != Charged(OrderId(i + 1))
  {
    var w := After(f, t[..j]);
    if AnswerAt(f, t, j).Charged? {
      IdsNumbered(f, t[..j]);
      var k := FindOrder(w.orders, t[j].orderId);
      OrdersOnlyAdvance(f, t, j, m, k);
      OrderIdInjective(k + 1, i + 1);
    }
  }

  // ---------------------------------------------------------------- the seeded failure

  /** A seeded failure is armed until the first charge. */
  lemma {:induction false} ArmedExactly(f: set<string>, t: seq<Call>)
    ensures CHARGE in After(f, t).failOnce <==> CHARGE in f && forall i | 0 <= i < |t| :: !t[i].PaymentCharge?
  {
    if t != [] {
      ArmedExactly(f, t[..|t| - 1]);
      assert t == t[..|t| - 1] + [t[|t| - 1]];
    }
  }

  /** The transient failure is answered to exactly the first charge, and only when it was seeded. */
  lemma FailureFiresOnce(f: set<string>, t: seq<Call>, i: nat)
    requires i < |t|
    ensures AnswerAt(f, t, i) == GatewayTimeout <==>
            CHARGE in f && t[i].PaymentCharge? && forall k | 0 <= k < i :: !t[k].PaymentCharge?
  {
    ArmedExactly(f, t[..i]);
    assert forall k | 0 <= k < i :: t[..i][k] == t[k];
  }
}
