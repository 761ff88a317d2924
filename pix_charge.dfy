/**
 * The stateless charge endpoint: it takes the order id, lines and total
 * from the request body, builds the transaction request, and relays the
 * gateway's answer. It reads and writes no stored order. The API key and
 * the clock are parameters, and so is the gateway (a function from the
 * request to its reply).
 */
module PixCharge {
  import opened Wrappers
  import opened JsNum
  import opened Json
  import opened Gateway

  const MissingKey: string := "PAGARME_API_KEY ausente"

  /** Member `key` of `req.body || {}`. */
  function BodyField(body: Option<Value>, key: string): Option<Value> {
    Get(Or(body, Some(Object(map[]))), key)
  }

  /** The line charged when the body has no lines: `{ name: "Suco Freshflow", qty: 1, price: Number(totalPrice || 0) }`. */
  function FallbackLine(totalPrice: Option<Value>): Value {
    Object(map["name" := Str(FallbackTitle), "qty" := Number(One),
               "price" := Number(ToNumber(Or(totalPrice, Some(Number(Zero)))))])
  }

  /** The lines charged: the body's `lines` when it is a non-empty array, else one fallback line. */
  function ChargeLines(lines: Option<Value>, totalPrice: Option<Value>): (r: seq<Value>)
    ensures lines.Some? && lines.value.List? && lines.value.elems != [] ==> r == lines.value.elems
    ensures !(lines.Some? && lines.value.List? && lines.value.elems != []) ==> r == [FallbackLine(totalPrice)]
  {
    if lines.Some? && lines.value.List? && lines.value.elems != [] then lines.value.elems else [FallbackLine(totalPrice)]
  }

  /** Without lines the charge is one line, once, at `Number(totalPrice || 0)`. */
  lemma FallbackCharge(totalPrice: Option<Value>)
    ensures var lines := ChargeLines(None, totalPrice);
      && |lines| == 1 && NoNullLine(lines)
      && Price(lines[0]) == ToNumber(Or(totalPrice, Some(Number(Zero))))
      && Quantity(lines[0]) == One
      && Title(lines[0]) == Str(FallbackTitle)
  {
  }

  /** `Math.max(1, l.qty || 1)`: not floored, so a fractional quantity is kept. */
  function Quantity(l: Value): (r: Num)
    ensures r.NaN? || LessEq(One, r)
    ensures var q := Get(Some(l), "qty");
      q.Some? && q.value.Number? && q.value.n.Fin? && q.value.n.v >= 1.0 ==> r == q.value.n
    ensures !Truthy(Get(Some(l), "qty")) ==> r == One
  {
    Max(One, ToNumber(Or(Get(Some(l), "qty"), Some(Number(One)))))
  }

  /** One line's amount, `Math.round(Number(l.price) * 100) * Math.max(1, l.qty || 1)`. */
  function LineCents(l: Value): Num {
    Mul(UnitCents(l), Quantity(l))
  }

  /** `totalCents`: the line amounts added up from 0, with no filter, so one NaN line makes the total NaN. */
  function TotalCents(lines: seq<Value>): Num {
    if lines == [] then Zero
    else Add(TotalCents(lines[..|lines| - 1]), LineCents(lines[|lines| - 1]))
  }

  /** When every line's amount is finite, so is the total. */
  lemma {:induction false} FiniteLinesFiniteTotal(lines: seq<Value>)
    requires forall i :: 0 <= i < |lines| ==> LineCents(lines[i]).Fin?
    ensures TotalCents(lines).Fin?
  {
    if lines != [] {
      FiniteLinesFiniteTotal(lines[..|lines| - 1]);
      assert LineCents(lines[|lines| - 1]).Fin?;
    }
  }

  /** The total is the total of all lines but the last, plus the last line's amount. */
  lemma TotalCentsStep(lines: seq<Value>)
    requires lines != []
    ensures TotalCents(lines) == Add(TotalCents(lines[..|lines| - 1]), LineCents(lines[|lines| - 1]))
  {
  }

  /** One line whose amount is NaN (a price or quantity that is not a number) makes the whole total NaN, which is refused. */
  lemma {:induction false} NaNLinePoisonsTotal(lines: seq<Value>, i: nat)
    requires i < |lines| && LineCents(lines[i]).NaN?
    ensures TotalCents(lines).NaN? && !NumTruthy(TotalCents(lines))
  {
    if i < |lines| - 1 {
      NaNLinePoisonsTotal(lines[..|lines| - 1], i);
    }
  }

  /** The gateway's items for the charged lines, with `Math.max(1, l.qty || 1)` as quantity. */
  function ChargeItems(lines: seq<Value>): (r: seq<Item>)
    ensures |r| == |lines|
    ensures forall i :: 0 <= i < |lines| ==> r[i].unitPrice == UnitCents(lines[i]) && r[i].quantity == Quantity(lines[i])
  {
    Items(lines, Quantity)
  }

  /** When every line's amount is finite, the items add up to the charged amount. */
  lemma {:induction false} ItemsSumIsAmount(lines: seq<Value>)
    requires forall i :: 0 <= i < |lines| ==> LineCents(lines[i]).Fin?
    ensures ItemsTotal(ChargeItems(lines)) == TotalCents(lines)
  {
    if lines != [] {
      var front := lines[..|lines| - 1];
      ItemsSumIsAmount(front);
      ItemsPrefix(lines, Quantity, |lines| - 1);
      var items := ChargeItems(lines);
      assert items[..|items| - 1] == ChargeItems(front);
    }
  }

  /**
   * Everything the handler decides before calling the gateway. A failure is
   * the reply it sends at once: 405 with no body for another method, 400 for
   * a missing order id, 500 for a missing key or a `null` line, 400 for a
   * falsy total. A negative total is not refused.
   */
  function Prepare(verb: string, body: Option<Value>, key: Option<string>, nowMillis: int): (r: Result<ChargeRequest, Response>)
    ensures verb != "POST" ==> r == Failure(Response(405, None))
    ensures var orderId := BodyField(body, "orderId");
      && (verb == "POST" && !Truthy(orderId) ==> r == Failure(ErrorReply(400, Str(MissingOrderId))))
      && (verb == "POST" && Truthy(orderId) && !(key.Some? && key.value != "") ==> r == Failure(ErrorReply(500, Str(MissingKey))))
      && (verb == "POST" && Truthy(orderId) && key.Some? && key.value != "" ==>
            var lines := ChargeLines(BodyField(body, "lines"), BodyField(body, "totalPrice"));
            && (!NoNullLine(lines) ==> r == Failure(ErrorReply(500, Str(NullLine))))
            && (NoNullLine(lines) && !NumTruthy(TotalCents(lines)) ==> r == Failure(ErrorReply(400, Str(InvalidAmount))))
            && (NoNullLine(lines) && NumTruthy(TotalCents(lines)) ==>
                  r == Success(ChargeRequest(key, TotalCents(lines), PaymentMethod, Expiration(nowMillis), orderId.value, ChargeItems(lines)))))
  {
    if verb != "POST" then Failure(Response(405, None))
    else
      var orderId := BodyField(body, "orderId");
      if !Truthy(orderId) then Failure(ErrorReply(400, Str(MissingOrderId)))
      else if !(key.Some? && key.value != "") then Failure(ErrorReply(500, Str(MissingKey)))
      else
        var lines := ChargeLines(BodyField(body, "lines"), BodyField(body, "totalPrice"));
        if !NoNullLine(lines) then Failure(ErrorReply(500, Str(NullLine)))
        else if !NumTruthy(TotalCents(lines)) then Failure(ErrorReply(400, Str(InvalidAmount)))
        else Success(ChargeRequest(key, TotalCents(lines), PaymentMethod, Expiration(nowMillis), orderId.value, ChargeItems(lines)))
  }

  /** The reply once the gateway answered: the charge reply, or 500 with the gateway's error. */
  function Finish(reply: GatewayReply): (r: Response)
    ensures reply.Failed? ==> r == ErrorReply(500, reply.error)
    ensures reply.Replied? ==> r == Response(200, Some(ChargeReply(reply.data)))
  {
    match reply
    case Failed(e) => ErrorReply(500, e)
    case Replied(data) => Response(200, Some(ChargeReply(data)))
  }

  /** The handler: the gateway is called only with a prepared request, and its answer decides the reply. */
  function Handle(verb: string, body: Option<Value>, key: Option<string>, nowMillis: int,
                  gateway: ChargeRequest -> GatewayReply): Response
  {
    match Prepare(verb, body, key, nowMillis)
    case Failure(early) => early
    case Success(request) => Finish(gateway(request))
  }

  /**
   * The handler's replies: 405 for another method; an early error reply
   * (400 or 500) when the request cannot be prepared; otherwise 200 exactly
   * when the gateway answered, carrying the charge reply built from its data.
   */
  lemma HandleReplies(verb: string, body: Option<Value>, key: Option<string>, nowMillis: int,
                      gateway: ChargeRequest -> GatewayReply)
    ensures var r := Handle(verb, body, key, nowMillis, gateway);
      var p := Prepare(verb, body, key, nowMillis);
      && (verb != "POST" ==> r == Response(405, None))
      && (verb == "POST" && p.Failure? ==> r == p.error && (r.status == 400 || r.status == 500))
      && (p.Success? ==> (r.status == 200 <==> gateway(p.value).Replied?))
      && (p.Success? && gateway(p.value).Replied? ==> r.body == Some(ChargeReply(gateway(p.value).data)))
  {
  }

  /** A line costing 5 below zero, once: its amount is -500 cents. */
  lemma NegativeLine()
    ensures var line := Object(map["price" := Number(Fin(-5.0)), "qty" := Number(One)]);
      TotalCents([line]) == Fin(-500.0)
  {
    var line := Object(map["price" := Number(Fin(-5.0)), "qty" := Number(One)]);
    assert Price(line) == Fin(-5.0);
    assert UnitCents(line) == Fin(-500.0);
    assert Quantity(line) == One;
    assert LineCents(line) == Fin(-500.0);
    assert [line][..0] == [];
  }

  /** A body whose only line costs a negative price is charged, not refused: the amount sent is negative. */
  lemma NegativeTotalIsSent(orderId: string, key: string, nowMillis: int)
    requires orderId != "" && key != ""
    ensures var line := Object(map["price" := Number(Fin(-5.0)), "qty" := Number(One)]);
      var body := Object(map["orderId" := Str(orderId), "lines" := List([line])]);
      var r := Prepare("POST", Some(body), Some(key), nowMillis);
      r.Success? && r.value.amount == Fin(-500.0)
  {
    var line := Object(map["price" := Number(Fin(-5.0)), "qty" := Number(One)]);
    var body := Object(map["orderId" := Str(orderId), "lines" := List([line])]);
    assert BodyField(Some(body), "orderId") == Some(Str(orderId));
    assert BodyField(Some(body), "lines") == Some(List([line]));
    var lines := ChargeLines(BodyField(Some(body), "lines"), BodyField(Some(body), "totalPrice"));
    assert lines == [line];
    NegativeLine();
    assert NoNullLine(lines) && NumTruthy(TotalCents(lines));
  }
}
