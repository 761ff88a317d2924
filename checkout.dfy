/**
 * The order document `handleSaveOrder` sends to `saveOrder`: the
 * normalised lines, their total, delivery and address, the payment method,
 * the e-mail and the legacy single-line fields older screens still read.
 */
module Checkout {
  import opened Wrappers
  import opened JsNum
  import opened Json
  import opened Store
  import opened Orders
  import opened Cart

  const MaxSummaryNames: nat := 10

  /** A cart line as stored in the order's `lines` array. */
  function LineValue(l: Line): (r: Value)
    ensures r.Object? && r.fields.Keys == {"name", "items", "price", "qty"}
    ensures r.fields["name"] == Str(l.name) && r.fields["items"] == List(StringsOf(l.items))
    ensures r.fields["price"] == Number(l.price) && r.fields["qty"] == Number(l.qty)
  {
    Object(map["name" := Str(l.name), "items" := List(StringsOf(l.items)),
               "price" := Number(l.price), "qty" := Number(l.qty)])
  }

  /** `lines.map(l => l.name)`. */
  function Names(lines: seq<Line>): (r: seq<string>)
    ensures |r| == |lines| && forall i :: 0 <= i < |lines| ==> r[i] == lines[i].name
  {
    seq(|lines|, i requires 0 <= i < |lines| => lines[i].name)
  }

  /** `typeof address === "object" && address ? address : {}`. */
  function AddressOf(address: Value): (r: Value)
    ensures IsObject(address) ==> r == address
    ensures !IsObject(address) ==> r == Object(map[])
  {
    if IsObject(address) then address else Object(map[])
  }

  /** `normLines[0]?.<key> || fallback`. */
  function FirstOr(lines: seq<Line>, key: string, fallback: Value): (r: Value)
    ensures lines == [] ==> r == fallback
    ensures lines != [] && key in LineValue(lines[0]).fields ==>
      r == (if Truthy(Some(LineValue(lines[0]).fields[key])) then LineValue(lines[0]).fields[key] else fallback)
  {
    var first := if lines == [] then None else Some(LineValue(lines[0]));
    Or(Get(first, key), Some(fallback)).value
  }

  /** `lines.map(toStoredLine)`. */
  function LineValues(lines: seq<Line>): (r: seq<Value>)
    ensures |r| == |lines| && forall i :: 0 <= i < |lines| ==> r[i] == LineValue(lines[i])
  {
    seq(|lines|, i requires 0 <= i < |lines| => LineValue(lines[i]))
  }

  /** The payload object from its field values; `delivery` only when truthy. */
  function PayloadOf(lines: Value, totalPrice: Value, address: Value, paymentMethod: Value, email: Value,
                     items: Value, price: Value, qty: Value, itemsSummary: Value, delivery: Value): (r: Doc)
    ensures r.Keys == {"lines", "totalPrice", "address", "paymentMethod", "email", "items", "price", "qty", "itemsSummary"}
                      + (if Truthy(Some(delivery)) then {"delivery"} else {})
    ensures r["lines"] == lines && r["totalPrice"] == totalPrice && r["address"] == address
    ensures r["paymentMethod"] == paymentMethod && r["email"] == email && r["itemsSummary"] == itemsSummary
    ensures r["items"] == items && r["price"] == price && r["qty"] == qty
    ensures Truthy(Some(delivery)) ==> r["delivery"] == delivery
    ensures "uid" !in r && "status" !in r && "createdAt" !in r
  {
    var base := map[
      "lines" := lines, "totalPrice" := totalPrice, "address" := address,
      "paymentMethod" := paymentMethod, "email" := email,
      "items" := items, "price" := price, "qty" := qty, "itemsSummary" := itemsSummary];
    if Truthy(Some(delivery)) then base["delivery" := delivery] else base
  }

  /** The order payload `handleSaveOrder` builds from the cart and the checkout choices. */
  function OrderPayload(user: User, cart: seq<Line>, delivery: Value, address: Value, paymentMethod: string): Doc {
    var lines := NormLines(cart);
    PayloadOf(
      List(LineValues(lines)), Number(TotalPrice(lines)), AddressOf(address), Str(paymentMethod),
      Str(user.email.GetOr("")),
      FirstOr(lines, "items", List([])), FirstOr(lines, "price", Number(Zero)), FirstOr(lines, "qty", Number(One)),
      List(StringsOf(Take(Names(lines), MaxSummaryNames))), delivery)
  }

  /**
   * The payload's fields: the normalised lines and their total, the address
   * (or `{}`), the payment method, the e-mail or "", the legacy single-line
   * fields, the first ten names, and `delivery` only when it is truthy (its
   * `undefined` is not written). It has no `uid`, `status` or `createdAt`.
   */
  lemma PayloadFields(user: User, cart: seq<Line>, delivery: Value, address: Value, paymentMethod: string)
    ensures var r := OrderPayload(user, cart, delivery, address, paymentMethod);
      var lines := NormLines(cart);
      && r.Keys == {"lines", "totalPrice", "address", "paymentMethod", "email", "items", "price", "qty", "itemsSummary"}
                   + (if Truthy(Some(delivery)) then {"delivery"} else {})
      && r["lines"] == List(LineValues(lines))
      && r["totalPrice"] == Number(TotalPrice(lines))
      && r["address"] == AddressOf(address)
      && r["paymentMethod"] == Str(paymentMethod)
      && r["email"] == Str(user.email.GetOr(""))
      && r["items"] == FirstOr(lines, "items", List([]))
      && r["price"] == FirstOr(lines, "price", Number(Zero))
      && r["qty"] == FirstOr(lines, "qty", Number(One))
      && r["itemsSummary"] == List(StringsOf(Take(Names(lines), MaxSummaryNames)))
      && (Truthy(Some(delivery)) ==> r["delivery"] == delivery)
      && "uid" !in r && "status" !in r && "createdAt" !in r
  {
  }

  /** The legacy fields of a cart's normalised lines, read from the first line or defaulted. */
  lemma FirstLineFields(cart: seq<Line>)
    ensures var lines := NormLines(cart);
      && (cart == [] ==>
            && FirstOr(lines, "items", List([])) == List([])
            && FirstOr(lines, "price", Number(Zero)) == Number(Zero)
            && FirstOr(lines, "qty", Number(One)) == Number(One))
      && (cart != [] ==>
            var first := NormLine(cart[0]);
            && FirstOr(lines, "items", List([])) == List(StringsOf(first.items))
            && FirstOr(lines, "price", Number(Zero)) == Number(NumOr(first.price, Zero))
            && FirstOr(lines, "qty", Number(One)) == Number(first.qty))
  {
    var lines := NormLines(cart);
    if cart != [] {
      var first := lines[0];
      assert Normalized(first);
      assert Truthy(Some(Number(first.qty)));
    }
  }

  /**
   * The legacy single-line fields: the first normalised line's ingredients,
   * price (0 when it is 0) and quantity, or `[]`, 0 and 1 for an empty cart.
   */
  lemma LegacyFields(user: User, cart: seq<Line>, delivery: Value, address: Value, paymentMethod: string)
    ensures var r := OrderPayload(user, cart, delivery, address, paymentMethod);
      && "items" in r && "price" in r && "qty" in r
      && (cart == [] ==> r["items"] == List([]) && r["price"] == Number(Zero) && r["qty"] == Number(One))
      && (cart != [] ==>
            var first := NormLine(cart[0]);
            && r["items"] == List(StringsOf(first.items))
            && r["price"] == Number(NumOr(first.price, Zero))
            && r["qty"] == Number(first.qty))
  {
    PayloadFields(user, cart, delivery, address, paymentMethod);
    FirstLineFields(cart);
  }

  /** The first ten names of a cart's normalised lines, in cart order. */
  lemma FirstNames(cart: seq<Line>)
    ensures var s := StringsOf(Take(Names(NormLines(cart)), MaxSummaryNames));
      && |s| == (if |cart| < MaxSummaryNames then |cart| else MaxSummaryNames)
      && forall i :: 0 <= i < |s| ==> s[i] == Str(NormLine(cart[i]).name)
  {
  }

  /** The summary lists the first ten line names, in cart order. */
  lemma SummaryIsFirstNames(user: User, cart: seq<Line>, delivery: Value, address: Value, paymentMethod: string)
    ensures var r := OrderPayload(user, cart, delivery, address, paymentMethod);
      && "itemsSummary" in r && r["itemsSummary"].List?
      && var s := r["itemsSummary"].elems;
      && |s| == (if |cart| < MaxSummaryNames then |cart| else MaxSummaryNames)
      && forall i :: 0 <= i < |s| ==> s[i] == Str(NormLine(cart[i]).name)
  {
    PayloadFields(user, cart, delivery, address, paymentMethod);
    FirstNames(cart);
  }

  /**
   * The stored order: its e-mail is "" rather than null for a user without
   * one, since the payload's `email` wins over the one `saveOrder` takes
   * from the user; its lines and total are those of the payload.
   */
  lemma StoredPayload(user: User, cart: seq<Line>, delivery: Value, address: Value, paymentMethod: string, t: int)
    ensures var d := ApplyPatch(map[], OrderRecord(user, OrderPayload(user, cart, delivery, address, paymentMethod)), t);
      && "email" in d && d["email"] == Str(user.email.GetOr(""))
      && "uid" in d && d["uid"] == Str(user.uid)
      && "status" in d && d["status"] == Str("pending")
      && "createdAt" in d && d["createdAt"] == Timestamp(t)
      && "totalPrice" in d && d["totalPrice"] == Number(TotalPrice(NormLines(cart)))
      && "lines" in d && d["lines"] == List(LineValues(NormLines(cart)))
  {
    var order := OrderPayload(user, cart, delivery, address, paymentMethod);
    var d := ApplyPatch(map[], OrderRecord(user, order), t);
    StoredOrder(user, order, t);
    assert d["email"] == order["email"];
    assert d["totalPrice"] == order["totalPrice"];
    assert d["lines"] == order["lines"];
  }
}
