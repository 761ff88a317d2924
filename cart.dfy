/**
 * The storefront's cart: confirming a pending line, changing a line's
 * quantity, removing a line, the subtotal shown beside the cart and the
 * `totalPrice` stored with an order.
 */
module Cart {
  import opened Wrappers
  import opened JsNum
  import opened Json

  const DefaultName: string := "Suco"
  const MaxLineItems: nat := 20

  /** The line being configured before it is confirmed (`pendingLine`). */
  datatype PendingLine = PendingLine(name: Option<string>, items: Option<Value>, price: Num, qty: Num)

  /** A cart line `{ name, items, price, qty }`. */
  datatype Line = Line(name: string, items: seq<string>, price: Num, qty: Num)

  /** What every confirmed line satisfies. */
  predicate Normalized(l: Line) {
    && l.name != ""
    && |l.items| <= MaxLineItems
    && (forall i :: 0 <= i < |l.items| ==> NonBlank(l.items[i]))
    && !l.price.NaN?
    && IsInteger(l.qty) && 1.0 <= l.qty.v <= 50.0
  }

  /** `String(name || "Suco")` for a string or missing name. */
  function LineName(name: Option<string>): (r: string)
    ensures r != ""
    ensures name.Some? && name.value != "" ==> r == name.value
    ensures !(name.Some? && name.value != "") ==> r == DefaultName
  {
    if name.Some? && name.value != "" then name.value else DefaultName
  }

  /**
   * The line `confirmAddPendingLine` appends: the name defaulted, the
   * first 20 non-blank ingredient strings in order (none for a non-array),
   * the price coerced and the quantity clamped to a whole number in [1,50].
   */
  function Confirm(p: PendingLine): (r: Line)
    ensures Normalized(r)
    ensures p.items.Some? && p.items.value.List? ==>
      var all := NonBlankStrings(p.items.value.elems);
      |r.items| == (if |all| < MaxLineItems then |all| else MaxLineItems) && r.items == all[..|r.items|]
    ensures !(p.items.Some? && p.items.value.List?) ==> r.items == []
    ensures p.price.Fin? ==> r.price == p.price
    ensures p.price.NaN? ==> r.price == Zero
    ensures p.price.Inf? ==> r.price == p.price
    ensures r.name == LineName(p.name) && r.qty == ClampQty(p.qty)
    ensures IsInteger(p.qty) && 1.0 <= p.qty.v <= 50.0 ==> r.qty == p.qty
    ensures !NumTruthy(p.qty) ==> r.qty == One
  {
    Line(LineName(p.name), SafeStrings(p.items, MaxLineItems), SafePrice(Some(Number(p.price))), ClampQty(p.qty))
  }

  /** A cart line seen again as a JavaScript object, as `handleSaveOrder` reads it. */
  function AsPending(l: Line): PendingLine {
    PendingLine(Some(l.name), Some(List(StringsOf(l.items))), l.price, l.qty)
  }

  /** The normalisation `handleSaveOrder` applies to each cart line: the same as confirmation. */
  function NormLine(l: Line): (r: Line)
    ensures Normalized(r)
  {
    Confirm(AsPending(l))
  }

  /** Normalising a confirmed line gives it back unchanged. */
  lemma NormLineKeepsNormalized(l: Line)
    requires Normalized(l)
    ensures NormLine(l) == l
  {
    SafeStringsIdempotent(l.items, MaxLineItems);
  }

  /** `cart.map(normalise)`. */
  function NormLines(cart: seq<Line>): (r: seq<Line>)
    ensures |r| == |cart|
    ensures forall i :: 0 <= i < |r| ==> r[i] == NormLine(cart[i]) && Normalized(r[i])
  {
    seq(|cart|, i requires 0 <= i < |cart| => NormLine(cart[i]))
  }

  /** A cart of confirmed lines is its own normalisation. */
  lemma NormLinesOfNormalized(cart: seq<Line>)
    requires forall i :: 0 <= i < |cart| ==> Normalized(cart[i])
    ensures NormLines(cart) == cart
  {
    forall i | 0 <= i < |cart|
      ensures NormLines(cart)[i] == cart[i]
    {
      NormLineKeepsNormalized(cart[i]);
    }
  }

  // ---------------------------------------------------------------------
  // Quantity change and removal
  // ---------------------------------------------------------------------

  /** `Math.min(50, Math.max(1, (qty || 1) + delta))`: no floor, unlike confirmation. */
  function StepQty(qty: Num, delta: int): (r: Num)
    ensures r.Fin? && 1.0 <= r.v <= 50.0
    ensures IsInteger(qty) ==> IsInteger(r)
    ensures qty.Fin? && qty.v != 0.0 && 1.0 <= qty.v + delta as real <= 50.0 ==> r == Fin(qty.v + delta as real)
    ensures !NumTruthy(qty) ==> r == Min(Fin(50.0), Max(One, Fin(1.0 + delta as real)))
    ensures qty.Fin? && qty.v + delta as real > 50.0 ==> r == Fin(50.0)
    ensures qty.Fin? && qty.v != 0.0 && qty.v + delta as real < 1.0 ==> r == One
  {
    var q := NumOr(qty, One);
    var s := Add(q, Fin(delta as real));
    assert IsInteger(q) ==> IsInteger(s) by {
      if IsInteger(q) {
        var k := q.v.Floor + delta;
        assert s == Fin(k as real);
        assert (k as real).Floor == k;
      }
    }
    Min(Fin(50.0), Max(One, s))
  }

  /** `updateLineQty(index, delta)`: only the line at `index` changes, and only its quantity. */
  function UpdateQty(cart: seq<Line>, index: int, delta: int): (r: seq<Line>)
    ensures |r| == |cart|
    ensures forall i :: 0 <= i < |cart| && i != index ==> r[i] == cart[i]
    ensures 0 <= index < |cart| ==> r[index] == cart[index].(qty := StepQty(cart[index].qty, delta))
    ensures !(0 <= index < |cart|) ==> r == cart
  {
    seq(|cart|, i requires 0 <= i < |cart| =>
      if i == index then cart[i].(qty := StepQty(cart[i].qty, delta)) else cart[i])
  }

  /** A quantity change keeps every line of a confirmed cart confirmed. */
  lemma UpdateQtyKeepsNormalized(cart: seq<Line>, index: int, delta: int)
    requires forall i :: 0 <= i < |cart| ==> Normalized(cart[i])
    ensures var r := UpdateQty(cart, index, delta);
      forall i :: 0 <= i < |r| ==> Normalized(r[i])
  {
  }

  /** `removeLine(index)`: `cart.filter((_, i) => i !== index)`. */
  function WithoutLine(cart: seq<Line>, index: int): (r: seq<Line>)
    ensures 0 <= index < |cart| ==>
      |r| == |cart| - 1 && forall i :: 0 <= i < |r| ==> r[i] == cart[if i < index then i else i + 1]
    ensures !(0 <= index < |cart|) ==> r == cart
  {
    if cart == [] then []
    else if index == 0 then cart[1..]
    else [cart[0]] + WithoutLine(cart[1..], index - 1)
  }

  /** Removal takes out exactly the line at `index`, keeping the others in order. */
  lemma WithoutLineSplits(cart: seq<Line>, index: int)
    requires 0 <= index < |cart|
    ensures WithoutLine(cart, index) == cart[..index] + cart[index + 1..]
  {
  }

  // ---------------------------------------------------------------------
  // Totals
  // ---------------------------------------------------------------------

  /** One line's share of the displayed subtotal: `(Number(price) || 0) * (qty || 1)`. */
  function SubtotalTerm(l: Line): Num {
    Mul(NumOr(l.price, Zero), NumOr(l.qty, One))
  }

  /** The displayed `subtotal`: a left fold of the line terms from 0. */
  function Subtotal(cart: seq<Line>): Num {
    if cart == [] then Zero else Add(Subtotal(cart[..|cart| - 1]), SubtotalTerm(cart[|cart| - 1]))
  }

  /** The stored `totalPrice`: `lines.reduce((sum, l) => sum + l.price * l.qty, 0)`. */
  function TotalPrice(lines: seq<Line>): Num {
    if lines == [] then Zero
    else Add(TotalPrice(lines[..|lines| - 1]), Mul(lines[|lines| - 1].price, lines[|lines| - 1].qty))
  }

  /** Σ price × qty over the lines, as mathematical reals. */
  function RealTotal(lines: seq<Line>): real
    requires forall i :: 0 <= i < |lines| ==> lines[i].price.Fin? && lines[i].qty.Fin?
  {
    if lines == [] then 0.0
    else RealTotal(lines[..|lines| - 1]) + lines[|lines| - 1].price.v * lines[|lines| - 1].qty.v
  }

  /** For confirmed lines the displayed subtotal and the stored total are the same number. */
  lemma {:induction false} SubtotalIsTotalPrice(cart: seq<Line>)
    requires forall i :: 0 <= i < |cart| ==> Normalized(cart[i])
    ensures Subtotal(cart) == TotalPrice(cart)
  {
    if cart != [] {
      var last := cart[|cart| - 1];
      assert Normalized(last);
      SubtotalIsTotalPrice(cart[..|cart| - 1]);
      assert NumOr(last.price, Zero) == last.price;
      assert NumOr(last.qty, One) == last.qty;
    }
  }

  /** The total stored for any cart equals the subtotal shown for it once its lines are confirmed. */
  lemma StoredTotalIsSubtotal(cart: seq<Line>)
    requires forall i :: 0 <= i < |cart| ==> Normalized(cart[i])
    ensures TotalPrice(NormLines(cart)) == Subtotal(cart)
  {
    NormLinesOfNormalized(cart);
    SubtotalIsTotalPrice(cart);
  }

  /** With finite prices the stored total is the exact sum of price × qty. */
  lemma {:induction false} TotalPriceIsSum(lines: seq<Line>)
    requires forall i :: 0 <= i < |lines| ==> lines[i].price.Fin? && lines[i].qty.Fin?
    ensures TotalPrice(lines) == Fin(RealTotal(lines))
  {
    if lines != [] {
      TotalPriceIsSum(lines[..|lines| - 1]);
    }
  }
}
