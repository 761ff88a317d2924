/**
 * How the parts fit together along an order's life: the amount the payment
 * endpoints charge for an order the storefront saved is the subtotal the
 * shopper saw, in cents; both endpoints charge it alike; the total the
 * order lists show for it is that subtotal; and the status the tracking
 * card and the order lists show after the gateway's notifications.
 */
module OrderFlow {
  import opened Wrappers
  import opened JsNum
  import opened Json
  import opened Store
  import opened Orders
  import opened Cart
  import opened Checkout
  import opened OrderView
  import opened Storefront
  import opened Gateway
  import PaymentBridge
  import PixCharge

  /** A line whose price is a whole number of cents and whose quantity is a whole number of at least one. */
  predicate WholeCents(l: Line) {
    l.price.Fin? && IsInteger(Fin(l.price.v * 100.0)) && IsInteger(l.qty) && l.qty.v >= 1.0
  }

  /** Every line of the cart is priced in whole cents. */
  predicate WholeCentsCart(cart: seq<Line>) {
    forall i :: 0 <= i < |cart| ==> cart[i].price.Fin? && cart[i].qty.Fin? && WholeCents(cart[i])
  }

  /** The price of a line in whole cents (0 for a price that is not finite). */
  function CentsOf(l: Line): int {
    if l.price.Fin? then (l.price.v * 100.0).Floor else 0
  }

  /** The quantity of a line as a whole number (0 for one that is not finite). */
  function CountOf(l: Line): int {
    if l.qty.Fin? then l.qty.v.Floor else 0
  }

  /** A line's amount in cents: its cents times its quantity. */
  function LineAmount(l: Line): int {
    CentsOf(l) * CountOf(l)
  }

  /** The amounts of the lines, in order. */
  function Amounts(lines: seq<Line>): (r: seq<int>)
    ensures |r| == |lines| && forall i :: 0 <= i < |lines| ==> r[i] == LineAmount(lines[i])
  {
    seq(|lines|, i requires 0 <= i < |lines| => LineAmount(lines[i]))
  }

  /** The sum of whole numbers, from the left. */
  function Sum(xs: seq<int>): int {
    if xs == [] then 0 else Sum(xs[..|xs| - 1]) + xs[|xs| - 1]
  }

  /** A stored line of such a price is charged its cents times its quantity by either endpoint. */
  lemma StoredLineCents(l: Line)
    requires WholeCents(l)
    ensures PaymentBridge.LineCents(LineValue(l)) == Fin(LineAmount(l) as real)
    ensures PixCharge.LineCents(LineValue(l)) == Fin(LineAmount(l) as real)
  {
    var v := LineValue(l);
    var c, n := CentsOf(l), CountOf(l);
    assert Price(v) == l.price;
    assert UnitCents(v) == Fin(c as real);
    assert Get(Some(v), "qty") == Some(Number(l.qty));
    assert PaymentBridge.Quantity(v) == l.qty == Fin(n as real);
    assert PixCharge.Quantity(v) == l.qty;
    assert (c as real) * (n as real) == (c * n) as real;
  }

  /** For one such line, cents × quantity is 100 × price × qty. */
  lemma LineCentsExact(l: Line)
    requires WholeCents(l)
    ensures LineAmount(l) as real == 100.0 * (l.price.v * l.qty.v)
  {
    var c, n := CentsOf(l), CountOf(l);
    assert c as real == l.price.v * 100.0 && n as real == l.qty.v;
    assert (c * n) as real == (c as real) * (n as real);
  }

  /** Over a cart of such lines, the amounts add up to 100 × the exact total. */
  lemma {:induction false} CentsTotalExact(lines: seq<Line>)
    requires WholeCentsCart(lines)
    ensures Sum(Amounts(lines)) as real == 100.0 * RealTotal(lines)
  {
    if lines != [] {
      var front := lines[..|lines| - 1];
      CentsTotalExact(front);
      LineCentsExact(lines[|lines| - 1]);
      var xs := Amounts(lines);
      assert xs[..|xs| - 1] == Amounts(front);
    }
  }

  /** Adding a whole number of cents to a whole number of cents. */
  lemma AddCents(total: Num, line: Num, a: int, b: int)
    requires total == Fin(a as real) && line == Fin(b as real)
    ensures Add(total, if IsFinite(line) then line else Zero) == Fin((a + b) as real)
    ensures Add(total, line) == Fin((a + b) as real)
  {
  }

  /** One more line of whole cents adds its amount to the backend's total. */
  lemma BridgeStep(vs: seq<Value>, a: int, b: int)
    requires vs != []
    requires PaymentBridge.TotalCents(vs[..|vs| - 1]) == Fin(a as real)
    requires PaymentBridge.LineCents(vs[|vs| - 1]) == Fin(b as real)
    ensures PaymentBridge.TotalCents(vs) == Fin((a + b) as real)
  {
    PaymentBridge.TotalCentsStep(vs);
    AddCents(PaymentBridge.TotalCents(vs[..|vs| - 1]), PaymentBridge.LineCents(vs[|vs| - 1]), a, b);
  }

  /** One more line of whole cents adds its amount to the stateless endpoint's total. */
  lemma PixStep(vs: seq<Value>, a: int, b: int)
    requires vs != []
    requires PixCharge.TotalCents(vs[..|vs| - 1]) == Fin(a as real)
    requires PixCharge.LineCents(vs[|vs| - 1]) == Fin(b as real)
    ensures PixCharge.TotalCents(vs) == Fin((a + b) as real)
  {
    PixCharge.TotalCentsStep(vs);
    AddCents(PixCharge.TotalCents(vs[..|vs| - 1]), PixCharge.LineCents(vs[|vs| - 1]), a, b);
  }

  /** Lines of the given whole amounts are charged their sum by the backend. */
  lemma {:induction false} BridgeSum(vs: seq<Value>, xs: seq<int>)
    requires |vs| == |xs| && forall i :: 0 <= i < |vs| ==> PaymentBridge.LineCents(vs[i]) == Fin(xs[i] as real)
    ensures PaymentBridge.TotalCents(vs) == Fin(Sum(xs) as real)
  {
    if vs != [] {
      BridgeSum(vs[..|vs| - 1], xs[..|xs| - 1]);
      BridgeStep(vs, Sum(xs[..|xs| - 1]), xs[|xs| - 1]);
    }
  }

  /** Lines of the given whole amounts are charged their sum by the stateless endpoint. */
  lemma {:induction false} PixSum(vs: seq<Value>, xs: seq<int>)
    requires |vs| == |xs| && forall i :: 0 <= i < |vs| ==> PixCharge.LineCents(vs[i]) == Fin(xs[i] as real)
    ensures PixCharge.TotalCents(vs) == Fin(Sum(xs) as real)
  {
    if vs != [] {
      PixSum(vs[..|vs| - 1], xs[..|xs| - 1]);
      PixStep(vs, Sum(xs[..|xs| - 1]), xs[|xs| - 1]);
    }
  }

  /** The backend charges a list of such lines the sum of their amounts. */
  lemma BridgeCents(lines: seq<Line>)
    requires WholeCentsCart(lines)
    ensures PaymentBridge.TotalCents(LineValues(lines)) == Fin(Sum(Amounts(lines)) as real)
  {
    var vs, xs := LineValues(lines), Amounts(lines);
    forall i | 0 <= i < |vs|
      ensures PaymentBridge.LineCents(vs[i]) == Fin(xs[i] as real)
    {
      StoredLineCents(lines[i]);
    }
    BridgeSum(vs, xs);
  }

  /** The stateless endpoint charges the same lines the same sum. */
  lemma PixCents(lines: seq<Line>)
    requires WholeCentsCart(lines)
    ensures PixCharge.TotalCents(LineValues(lines)) == Fin(Sum(Amounts(lines)) as real)
  {
    var vs, xs := LineValues(lines), Amounts(lines);
    forall i | 0 <= i < |vs|
      ensures PixCharge.LineCents(vs[i]) == Fin(xs[i] as real)
    {
      StoredLineCents(lines[i]);
    }
    PixSum(vs, xs);
  }

  /** For lines a shopper can confirm, priced in whole cents, both endpoints charge the same amount and the same items. */
  lemma SameCharge(lines: seq<Line>)
    requires WholeCentsCart(lines)
    ensures PixCharge.TotalCents(LineValues(lines)) == PaymentBridge.TotalCents(LineValues(lines))
    ensures PixCharge.ChargeItems(LineValues(lines)) == PaymentBridge.ChargeItems(LineValues(lines))
  {
    PixCents(lines);
    BridgeCents(lines);
    SameItems(lines);
  }

  /** The two endpoints build the same items for such lines, since their quantities are whole numbers. */
  lemma SameItems(lines: seq<Line>)
    requires WholeCentsCart(lines)
    ensures PixCharge.ChargeItems(LineValues(lines)) == PaymentBridge.ChargeItems(LineValues(lines))
  {
    var vs := LineValues(lines);
    forall i | 0 <= i < |vs|
      ensures PixCharge.Quantity(vs[i]) == PaymentBridge.Quantity(vs[i])
    {
      assert Get(Some(vs[i]), "qty") == Some(Number(lines[i].qty));
    }
  }

  /** The backend charges the lines the storefront stored for a non-empty cart of confirmed lines. */
  lemma SavedLines(user: User, cart: seq<Line>, delivery: Value, address: Value, paymentMethod: string, t: int)
    requires cart != [] && forall i :: 0 <= i < |cart| ==> Normalized(cart[i])
    ensures PaymentBridge.ChargeLines(SavedOrder(user, cart, delivery, address, paymentMethod, t)) == LineValues(cart)
  {
    var d := SavedOrder(user, cart, delivery, address, paymentMethod, t);
    SavedLinesAreCart(user, cart, delivery, address, paymentMethod, t);
    LinesCharged(d, LineValues(cart));
  }

  /** An order with a non-empty `lines` array is charged exactly those lines. */
  lemma LinesCharged(d: Doc, lines: seq<Value>)
    requires "lines" in d && d["lines"] == List(lines) && lines != []
    ensures PaymentBridge.ChargeLines(d) == lines
  {
  }

  /** For a cart priced in whole cents the backend charges 100 × its subtotal. */
  lemma CartAmount(cart: seq<Line>)
    requires (forall i :: 0 <= i < |cart| ==> Normalized(cart[i])) && WholeCentsCart(cart)
    ensures Subtotal(cart).Fin?
    ensures PaymentBridge.TotalCents(LineValues(cart)) == Fin(100.0 * Subtotal(cart).v)
  {
    SubtotalIsTotalPrice(cart);
    TotalPriceIsSum(cart);
    BridgeCents(cart);
    CentsTotalExact(cart);
    Hundredfold(PaymentBridge.TotalCents(LineValues(cart)), Subtotal(cart), Sum(Amounts(cart)) as real, RealTotal(cart));
  }

  /** A charge of `x` cents where `x` is 100 × the real value of `s`. */
  lemma Hundredfold(charge: Num, s: Num, x: real, r: real)
    requires s == Fin(r) && charge == Fin(x) && x == 100.0 * r
    ensures s.Fin? && charge == Fin(100.0 * s.v)
  {
  }

  /** For such a cart the backend's items add up to the amount it charges. */
  lemma CartItems(cart: seq<Line>)
    requires WholeCentsCart(cart)
    ensures ItemsTotal(PaymentBridge.ChargeItems(LineValues(cart))) == PaymentBridge.TotalCents(LineValues(cart))
  {
    var lines := LineValues(cart);
    forall i | 0 <= i < |lines|
      ensures PaymentBridge.LineCents(lines[i]).Fin?
    {
      StoredLineCents(cart[i]);
    }
    PaymentBridge.ItemsSumIsAmount(lines);
  }

  /**
   * For an order the storefront saved from a non-empty cart of whole-cent
   * prices, the backend charges its stored lines, the amount is the subtotal
   * the shopper saw times 100, and the items add up to that amount.
   */
  lemma ChargeMatchesSubtotal(user: User, cart: seq<Line>, delivery: Value, address: Value, paymentMethod: string, t: int)
    requires cart != [] && (forall i :: 0 <= i < |cart| ==> Normalized(cart[i])) && WholeCentsCart(cart)
    ensures var lines := PaymentBridge.ChargeLines(SavedOrder(user, cart, delivery, address, paymentMethod, t));
      && lines == LineValues(cart)
      && Subtotal(cart).Fin?
      && PaymentBridge.TotalCents(lines) == Fin(100.0 * Subtotal(cart).v)
      && ItemsTotal(PaymentBridge.ChargeItems(lines)) == PaymentBridge.TotalCents(lines)
  {
    SavedLines(user, cart, delivery, address, paymentMethod, t);
    CartAmount(cart);
    CartItems(cart);
  }

  /** Two juices at 18.90: a cart priced in whole cents whose subtotal is 37.80. */
  lemma TwoJuicesCart()
    ensures var cart := [Line("Verde", [], Fin(18.9), Fin(2.0))];
      Normalized(cart[0]) && WholeCentsCart(cart) && Subtotal(cart) == Fin(37.8)
  {
    var cart := [Line("Verde", [], Fin(18.9), Fin(2.0))];
    assert IsInteger(Fin(18.9 * 100.0)) by {
      assert 18.9 * 100.0 == 1890 as real;
    }
    assert IsInteger(Fin(2.0)) by {
      assert 2.0 == 2 as real;
    }
    assert cart[..0] == [];
    assert SubtotalTerm(cart[0]) == Fin(37.8);
  }

  /** Two juices at 18.90 make a subtotal of 37.80 and a charge of 3780 cents. */
  lemma TwoJuicesAt1890(user: User, delivery: Value, address: Value, paymentMethod: string, t: int)
    ensures var cart := [Line("Verde", [], Fin(18.9), Fin(2.0))];
      && Subtotal(cart) == Fin(37.8)
      && PaymentBridge.TotalCents(PaymentBridge.ChargeLines(SavedOrder(user, cart, delivery, address, paymentMethod, t))) == Fin(3780.0)
  {
    TwoJuicesCart();
    ChargeMatchesSubtotal(user, [Line("Verde", [], Fin(18.9), Fin(2.0))], delivery, address, paymentMethod, t);
  }

  /** After a "paid" notification the tracking card shows "Em preparo", whatever the order's status was. */
  lemma PaidShowsPreparing(d: Doc, t: int)
    ensures StatusLabel(ApplyPatch(d, PaymentBridge.ReconcilePatch(Some(Str("paid"))), t)) == Some("Em preparo")
  {
    PaymentBridge.Reconciled(d, Some(Str("paid")), t);
  }

  /** After any other notification the status field is gone, so the tracking card shows "Recebido" again. */
  lemma UnpaidShowsReceived(d: Doc, status: Option<Value>, t: int)
    requires status != Some(Str("paid"))
    ensures StatusLabel(ApplyPatch(d, PaymentBridge.ReconcilePatch(status), t)) == Some("Recebido")
  {
    PaymentBridge.Reconciled(d, status, t);
  }

  /** Recording a charge does not change the label the tracking card shows. */
  lemma ChargeKeepsLabel(d: Doc, transactionId: Value, status: Value, t: int)
    ensures StatusLabel(ApplyPatch(d, PaymentBridge.ProviderPatch(transactionId, status), t)) == StatusLabel(d)
  {
    PaymentBridge.ProviderFieldsRecorded(d, transactionId, status, t);
  }

  /** After a "paid" notification the order lists print "preparing", whatever the order's status was. */
  lemma PaidListsPreparing(d: Doc, t: int)
    ensures ListedStatus(ApplyPatch(d, PaymentBridge.ReconcilePatch(Some(Str("paid"))), t)) == Str("preparing")
  {
    PaymentBridge.Reconciled(d, Some(Str("paid")), t);
  }

  /** After any other notification the order lists print "pending", even for an order that was preparing or delivered. */
  lemma UnpaidListsPending(d: Doc, status: Option<Value>, t: int)
    requires status != Some(Str("paid"))
    ensures ListedStatus(ApplyPatch(d, PaymentBridge.ReconcilePatch(status), t)) == Str("pending")
  {
    PaymentBridge.Reconciled(d, status, t);
  }

  /**
   * The total the order lists show for a saved, non-empty cart of confirmed
   * lines is its subtotal (0 when that is NaN, as `|| 0` makes it), and for
   * a cart priced in whole cents exactly the subtotal.
   */
  lemma SavedShowsSubtotal(user: User, cart: seq<Line>, delivery: Value, address: Value, paymentMethod: string, t: int)
    requires cart != [] && forall i :: 0 <= i < |cart| ==> Normalized(cart[i])
    ensures var d := SavedOrder(user, cart, delivery, address, paymentMethod, t);
      && DisplayTotal(d) == NumOr(Subtotal(cart), Zero)
      && (WholeCentsCart(cart) ==> DisplayTotal(d) == Subtotal(cart))
  {
    var d := SavedOrder(user, cart, delivery, address, paymentMethod, t);
    SavedTotalIsSubtotal(user, cart, delivery, address, paymentMethod, t);
    SavedLinesAreCart(user, cart, delivery, address, paymentMethod, t);
    assert LineValues(cart) != [];
    DisplayTotalOfLines(d, Subtotal(cart));
    if WholeCentsCart(cart) {
      CartAmount(cart);
    }
  }
}
