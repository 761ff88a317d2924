/**
 * The payment bridge of the backend: `POST /pagarme/create-pix` charges a
 * stored order and records the transaction on it, `GET /pagarme/status/:tid`
 * relays a transaction's status, and `POST /pagarme/webhook` reconciles an
 * order with the gateway's notifications. The gateway is a parameter: a
 * function from the request the handler builds to the reply it gets.
 */
module PaymentBridge {
  import opened Wrappers
  import opened JsNum
  import opened Json
  import opened Store
  import opened Gateway

  const NotFound: string := "Pedido não encontrado"
  const MissingTid: string := "tid obrigatório"
  const UnknownStatus: string := "unknown"
  const Provider: string := "pagarme"
  /** Stand-ins for the messages of errors the store library raises. */
  const InvalidPath: string := "invalid document path"
  const UndefinedField: string := "undefined is not a valid store value"
  const NoDocument: string := "no document to update"

  // ---------------------------------------------------------------------
  // Charging a stored order
  // ---------------------------------------------------------------------

  /** `getOrder(orderId)`: the stored order, or the error "Pedido não encontrado" (a non-string id is not a document path). */
  function GetOrder(docs: map<string, Doc>, orderId: Value): (r: Result<Doc, string>)
    ensures r.Success? <==> orderId.Str? && orderId.s in docs
    ensures r.Success? ==> r.value == docs[orderId.s]
    ensures orderId.Str? && orderId.s !in docs ==> r == Failure(NotFound)
  {
    if !orderId.Str? then Failure(InvalidPath)
    else if orderId.s in docs then Success(docs[orderId.s])
    else Failure(NotFound)
  }

  /** The line charged for an order without lines: `{ name: "Suco Freshflow", qty: data.qty || 1, price: Number(data.price || data.totalPrice || 0) }`. */
  function FallbackLine(data: Doc): Value {
    Object(map[
      "name" := Str(FallbackTitle),
      "qty" := Or(Field(data, "qty"), Some(Number(One))).value,
      "price" := Number(ToNumber(Or(Or(Field(data, "price"), Field(data, "totalPrice")), Some(Number(Zero)))))])
  }

  /** Whether the order has a non-empty `lines` array. */
  predicate HasLines(data: Doc) {
    "lines" in data && data["lines"].List? && data["lines"].elems != []
  }

  /** The lines charged: the order's `lines` when it has some, else one fallback line. */
  function ChargeLines(data: Doc): (r: seq<Value>)
    ensures HasLines(data) ==> r == data["lines"].elems
    ensures !HasLines(data) ==> r == [FallbackLine(data)]
  {
    if HasLines(data) then data["lines"].elems else [FallbackLine(data)]
  }

  /** A legacy order without lines is charged as one line at the price (or total), `qty || 1` times, named "Suco Freshflow". */
  lemma LegacyCharge(data: Doc)
    requires !HasLines(data)
    ensures var lines := ChargeLines(data);
      && |lines| == 1 && NoNullLine(lines)
      && Price(lines[0]) == ToNumber(Or(Or(Field(data, "price"), Field(data, "totalPrice")), Some(Number(Zero))))
      && Get(Some(lines[0]), "qty") == Or(Field(data, "qty"), Some(Number(One)))
      && Title(lines[0]) == Str(FallbackTitle)
  {
  }

  /** `Math.max(1, Math.floor(l.qty || 1))`: a whole number of at least one, +Infinity, or NaN for a quantity that is not a number. */
  function Quantity(l: Value): (r: Num)
    ensures r.NaN? || r == Inf(false) || (IsInteger(r) && r.v >= 1.0)
    ensures var q := Get(Some(l), "qty");
      q.Some? && q.value.Number? && IsInteger(q.value.n) && q.value.n.v >= 1.0 ==> r == q.value.n
    ensures !Truthy(Get(Some(l), "qty")) ==> r == One
  {
    Max(One, Floor(ToNumber(Or(Get(Some(l), "qty"), Some(Number(One))))))
  }

  /** One line's amount, `Math.round(Number(l.price) * 100) * Math.max(1, Math.floor(l.qty || 1))`: a whole number of cents when finite. */
  function LineCents(l: Value): (r: Num)
    ensures r.Fin? ==> IsInteger(r)
    ensures r.Fin? <==> UnitCents(l).Fin? && Quantity(l).Fin?
  {
    var u, q := UnitCents(l), Quantity(l);
    if u.Fin? && q.Fin? then
      IntegerProduct(u, q);
      Mul(u, q)
    else
      assert !Mul(u, q).Fin?;
      Mul(u, q)
  }

  /** `totalCents`: the finite line amounts added up from 0; a line that is not finite adds nothing. */
  function TotalCents(lines: seq<Value>): (r: Num)
    ensures IsInteger(r)
  {
    if lines == [] then Zero
    else
      var rest := TotalCents(lines[..|lines| - 1]);
      var v := LineCents(lines[|lines| - 1]);
      var c := if IsFinite(v) then v else Zero;
      var k := rest.v.Floor + c.v.Floor;
      assert Add(rest, c) == Fin(k as real);
      assert (k as real).Floor == k;
      Add(rest, c)
  }

  /** The total is the total of all lines but the last, plus the last line's amount if it is finite. */
  lemma TotalCentsStep(lines: seq<Value>)
    requires lines != []
    ensures var v := LineCents(lines[|lines| - 1]);
      TotalCents(lines) == Add(TotalCents(lines[..|lines| - 1]), if IsFinite(v) then v else Zero)
  {
  }

  /**
   * A line whose amount is not finite (a price or quantity that is not a
   * number, or an infinite one) is skipped: the total is that of the other
   * lines, in order.
   */
  lemma {:induction false} NonFiniteLineSkipped(lines: seq<Value>, i: nat)
    requires i < |lines| && !IsFinite(LineCents(lines[i]))
    ensures TotalCents(lines) == TotalCents(lines[..i] + lines[i + 1..])
  {
    var front, last := lines[..|lines| - 1], lines[|lines| - 1];
    var rest := lines[..i] + lines[i + 1..];
    if i == |lines| - 1 {
      assert rest == front;
      TotalCentsStep(lines);
    } else {
      NonFiniteLineSkipped(front, i);
      assert rest != [] && rest[..|rest| - 1] == front[..i] + front[i + 1..] && rest[|rest| - 1] == last;
      TotalCentsStep(lines);
      TotalCentsStep(rest);
    }
  }

  /** `!totalCents || totalCents <= 0`. */
  predicate AmountRejected(total: Num) {
    !NumTruthy(total) || LessEq(total, Zero)
  }

  /** The charge is refused exactly when the total is not a positive number of cents. */
  lemma RejectedIffNotPositive(lines: seq<Value>)
    ensures AmountRejected(TotalCents(lines)) <==> TotalCents(lines).v <= 0.0
  {
  }

  /** The gateway's items for the charged lines, with `Math.max(1, Math.floor(l.qty || 1))` as quantity. */
  function ChargeItems(lines: seq<Value>): (r: seq<Item>)
    ensures |r| == |lines|
    ensures forall i :: 0 <= i < |lines| ==> r[i].unitPrice == UnitCents(lines[i]) && r[i].quantity == Quantity(lines[i])
  {
    Items(lines, Quantity)
  }

  /** When every line's amount is finite, the items add up to the charged amount. */
  lemma {:induction false} ItemsSumIsAmount(lines: seq<Value>)
    requires forall i :: 0 <= i < |lines| ==> LineCents(lines[i]).Fin?
    ensures ItemsTotal(ChargeItems(lines)) == TotalCents(lines)
  {
    if lines != [] {
      var front := lines[..|lines| - 1];
      ItemsSumIsAmount(front);
      ItemsPrefix(lines, Quantity, |lines| - 1);
      var items := ChargeItems(lines);
      assert items[..|items| - 1] == ChargeItems(front);
    }
  }

  /** The transaction request for an order's lines. */
  function ChargeFor(orderId: Value, lines: seq<Value>, apiKey: Option<string>, nowMillis: int): ChargeRequest {
    ChargeRequest(apiKey, TotalCents(lines), PaymentMethod, Expiration(nowMillis), orderId, ChargeItems(lines))
  }

  /**
   * Everything the create-pix handler decides before calling the gateway:
   * the orderId check, the order lookup, the amount and the items. A failure
   * is the reply the handler sends at once.
   */
  function PlanCharge(docs: map<string, Doc>, body: Value, apiKey: Option<string>, nowMillis: int): (r: Result<ChargeRequest, Response>)
    ensures var orderId := Get(Some(body), "orderId");
      && (!Truthy(orderId) ==> r == Failure(ErrorReply(400, Str(MissingOrderId))))
      && (Truthy(orderId) && orderId.value.Str? && orderId.value.s !in docs ==> r == Failure(ErrorReply(500, Str(NotFound))))
      && (r.Success? ==>
            && orderId.Some? && orderId.value.Str? && orderId.value.s in docs
            && var lines := ChargeLines(docs[orderId.value.s]);
            && r.value == ChargeFor(orderId.value, lines, apiKey, nowMillis)
            && IsInteger(r.value.amount) && r.value.amount.v > 0.0)
      && (Truthy(orderId) && orderId.value.Str? && orderId.value.s in docs ==>
            var lines := ChargeLines(docs[orderId.value.s]);
            && (!NoNullLine(lines) ==> r == Failure(ErrorReply(500, Str(NullLine))))
            && (NoNullLine(lines) && TotalCents(lines).v <= 0.0 ==> r == Failure(ErrorReply(400, Str(InvalidAmount))))
            && (NoNullLine(lines) ==> (r.Success? <==> TotalCents(lines).v > 0.0)))
  {
    var orderId := Get(Some(body), "orderId");
    if !Truthy(orderId) then Failure(ErrorReply(400, Str(MissingOrderId)))
    else
      match GetOrder(docs, orderId.value)
      case Failure(message) => Failure(ErrorReply(500, Str(message)))
      case Success(data) =>
        var lines := ChargeLines(data);
        if !NoNullLine(lines) then Failure(ErrorReply(500, Str(NullLine)))
        else if AmountRejected(TotalCents(lines)) then Failure(ErrorReply(400, Str(InvalidAmount)))
        else Success(ChargeFor(orderId.value, lines, apiKey, nowMillis))
  }

  /** The provider fields written after a charge: `paymentProvider`, the transaction id and status, `updatedAt`. */
  function ProviderPatch(transactionId: Value, status: Value): (r: Patch)
    ensures r.Keys == {"paymentProvider", "pagarme_transaction_id", "pagarme_status", "updatedAt"}
  {
    map["paymentProvider" := Put(Str(Provider)), "pagarme_transaction_id" := Put(transactionId),
        "pagarme_status" := Put(status), "updatedAt" := ServerTime]
  }

  /** Recording a charge sets the four provider fields and leaves every other field, the fulfilment `status` included, as it was. */
  lemma ProviderFieldsRecorded(d: Doc, transactionId: Value, status: Value, t: int)
    ensures var r := ApplyPatch(d, ProviderPatch(transactionId, status), t);
      && r["paymentProvider"] == Str(Provider)
      && r["pagarme_transaction_id"] == transactionId
      && r["pagarme_status"] == status
      && r["updatedAt"] == Timestamp(t)
      && Field(r, "status") == Field(d, "status") && Field(r, "paid") == Field(d, "paid")
      && forall k :: k in d && k !in {"paymentProvider", "pagarme_transaction_id", "pagarme_status", "updatedAt"} ==> k in r && r[k] == d[k]
  {
  }

  /**
   * `POST /pagarme/create-pix` with a JSON body. `sent` is the request made
   * to the gateway, if one was made; the order changes only after the
   * gateway answered with both a transaction id and a status.
   */
  method CreatePix(orders: Collection, body: Value, apiKey: Option<string>, nowMillis: int, gateway: ChargeRequest -> GatewayReply)
    returns (res: Response, sent: Option<ChargeRequest>)
    modifies orders
    ensures var plan := PlanCharge(old(orders.docs), body, apiKey, nowMillis);
      && (plan.Failure? ==> sent.None? && res == plan.error)
      && (plan.Success? ==> sent == Some(plan.value))
    ensures sent.None? ==> orders.docs == old(orders.docs) && orders.now == old(orders.now)
    ensures sent.Some? && gateway(sent.value).Failed? ==>
      res == ErrorReply(500, gateway(sent.value).error) && orders.docs == old(orders.docs) && orders.now == old(orders.now)
    ensures sent.Some? && gateway(sent.value).Replied? ==>
      var tr := Transaction(gateway(sent.value).data);
      var id, status := Get(tr, "id"), Get(tr, "status");
      && (id.None? || status.None? ==>
            res == ErrorReply(500, Str(UndefinedField)) && orders.docs == old(orders.docs) && orders.now == old(orders.now))
      && (id.Some? && status.Some? ==>
            var oid := sent.value.orderId.s;
            && oid in old(orders.docs)
            && res == Response(200, Some(ChargeReply(gateway(sent.value).data)))
            && orders.docs == old(orders.docs)[oid := ApplyPatch(old(orders.docs)[oid], ProviderPatch(id.value, status.value), old(orders.now))]
            && orders.now == old(orders.now) + 1)
  {
    var plan := PlanCharge(orders.docs, body, apiKey, nowMillis);
    if plan.Failure? {
      return plan.error, None;
    }
    var request := plan.value;
    sent := Some(request);
    var reply := gateway(request);
    if reply.Failed? {
      return ErrorReply(500, reply.error), sent;
    }
    var tr := Transaction(reply.data);
    var id, status := Get(tr, "id"), Get(tr, "status");
    if id.None? || status.None? {
      return ErrorReply(500, Str(UndefinedField)), sent;
    }
    var ok := orders.Update(request.orderId.s, ProviderPatch(id.value, status.value));
    res := Response(200, Some(ChargeReply(reply.data)));
  }

  // ---------------------------------------------------------------------
  // Status relay
  // ---------------------------------------------------------------------

  /**
   * `GET /pagarme/status/:tid`, given what the gateway answered for `tid`:
   * the transaction's status, "unknown" when it has none, and the raw reply.
   */
  function StatusReply(tid: string, reply: GatewayReply): (r: Response)
    ensures tid == "" ==> r == ErrorReply(400, Str(MissingTid))
    ensures tid != "" && reply.Failed? ==> r == ErrorReply(500, reply.error)
    ensures tid != "" && reply.Replied? ==>
      && r.status == 200 && r.body.Some? && r.body.value.Object?
      && var fields := r.body.value.fields;
      && "status" in fields && Truthy(Some(fields["status"]))
      && (Truthy(Get(reply.data, "status")) ==> fields["status"] == Get(reply.data, "status").value)
      && (!Truthy(Get(reply.data, "status")) ==> fields["status"] == Str(UnknownStatus))
      && ("raw" in fields <==> reply.data.Some?)
      && (reply.data.Some? ==> fields["raw"] == reply.data.value)
  {
    if tid == "" then ErrorReply(400, Str(MissingTid))
    else match reply
      case Failed(e) => ErrorReply(500, e)
      case Replied(data) =>
        var status := Or(Get(data, "status"), Some(Str(UnknownStatus))).value;
        Response(200, Some(Object(if data.Some? then map["status" := status, "raw" := data.value] else map["status" := status])))
  }

  // ---------------------------------------------------------------------
  // Webhook
  // ---------------------------------------------------------------------

  /** What the webhook reads from a notification: the status, the transaction id and the order id (`None` is `undefined`). */
  datatype Notice = Notice(status: Option<Value>, tid: Option<Value>, orderId: Option<Value>)

  /** `v || null`. */
  function OrNull(v: Option<Value>): (r: Option<Value>)
    ensures r.Some? && (Truthy(v) ==> r == v) && (!Truthy(v) ==> r == Some(Null))
  {
    Or(v, Some(Null))
  }

  /** `body.event === "transaction_status_changed" && body.payload`. */
  predicate StatusChangeShape(b: Option<Value>) {
    Get(b, "event") == Some(Str("transaction_status_changed")) && Truthy(Get(b, "payload"))
  }

  /** `body.type && body.data`. */
  predicate EventShape(b: Option<Value>) {
    Truthy(Get(b, "type")) && Truthy(Get(b, "data"))
  }

  /** `body.object === "transaction"`. */
  predicate TransactionShape(b: Option<Value>) {
    Get(b, "object") == Some(Str("transaction"))
  }

  /** `x.metadata?.orderId || null`. */
  function MetadataOrderId(x: Option<Value>): Option<Value> {
    OrNull(Get(Get(x, "metadata"), "orderId"))
  }

  /**
   * The three notification shapes, tried in order; the first that matches is
   * read and the others are ignored. A body of none of them reads as nulls.
   */
  function ParseWebhook(body: Option<Value>): (r: Notice)
    ensures var b := Or(body, Some(Object(map[])));
      && (StatusChangeShape(b) ==>
            var p := Get(b, "payload");
            r == Notice(Or(Get(p, "current_status"), Get(p, "status")), Get(p, "id"), MetadataOrderId(p)))
      && (!StatusChangeShape(b) && EventShape(b) ==>
            var d := Get(b, "data");
            r == Notice(OrNull(Or(Get(d, "status"), Get(d, "current_status"))), OrNull(Get(d, "id")), MetadataOrderId(d)))
      && (!StatusChangeShape(b) && !EventShape(b) && TransactionShape(b) ==>
            r == Notice(Get(b, "status"), Get(b, "id"), MetadataOrderId(b)))
      && (!StatusChangeShape(b) && !EventShape(b) && !TransactionShape(b) ==> !Truthy(r.tid))
  {
    var b := Or(body, Some(Object(map[])));
    if StatusChangeShape(b) then
      var p := Get(b, "payload");
      Notice(Or(Get(p, "current_status"), Get(p, "status")), Get(p, "id"), MetadataOrderId(p))
    else if EventShape(b) then
      var d := Get(b, "data");
      Notice(OrNull(Or(Get(d, "status"), Get(d, "current_status"))), OrNull(Get(d, "id")), MetadataOrderId(d))
    else if TransactionShape(b) then
      Notice(Get(b, "status"), Get(b, "id"), MetadataOrderId(b))
    else
      Notice(Some(Null), Some(Null), Some(Null))
  }

  /** `{ id, status, metadata: { orderId } }`, the transaction part of a notification. */
  function TransactionObject(tid: Value, statusKey: string, status: string, orderId: string): Value {
    Object(map["id" := tid, statusKey := Str(status), "metadata" := Object(map["orderId" := Str(orderId)])])
  }

  /** A `transaction_status_changed` notification reads back as the status, transaction and order it carries. */
  lemma ParsesStatusChange(tid: Value, status: string, orderId: string)
    requires status != "" && orderId != ""
    ensures var body := Object(map["event" := Str("transaction_status_changed"),
                                   "payload" := TransactionObject(tid, "current_status", status, orderId)]);
      ParseWebhook(Some(body)) == Notice(Some(Str(status)), Some(tid), Some(Str(orderId)))
  {
    var p := TransactionObject(tid, "current_status", status, orderId);
    assert Get(Get(Some(p), "metadata"), "orderId") == Some(Str(orderId));
  }

  /** A `{ type, data }` notification reads back as the status, transaction and order it carries. */
  lemma ParsesEvent(kind: string, tid: Value, status: string, orderId: string)
    requires kind != "" && status != "" && orderId != "" && Truthy(Some(tid))
    ensures var body := Object(map["type" := Str(kind), "data" := TransactionObject(tid, "status", status, orderId)]);
      ParseWebhook(Some(body)) == Notice(Some(Str(status)), Some(tid), Some(Str(orderId)))
  {
    var d := TransactionObject(tid, "status", status, orderId);
    assert Get(Get(Some(d), "metadata"), "orderId") == Some(Str(orderId));
  }

  /** A bare transaction object reads back as its status, id and order. */
  lemma ParsesTransaction(tid: Value, status: string, orderId: string)
    requires orderId != ""
    ensures var body := Object(map["object" := Str("transaction"), "id" := tid, "status" := Str(status),
                                   "metadata" := Object(map["orderId" := Str(orderId)])]);
      ParseWebhook(Some(body)) == Notice(Some(Str(status)), Some(tid), Some(Str(orderId)))
  {
    var body := Object(map["object" := Str("transaction"), "id" := tid, "status" := Str(status),
                           "metadata" := Object(map["orderId" := Str(orderId)])]);
    assert Get(Get(Some(body), "metadata"), "orderId") == Some(Str(orderId));
  }

  /** First match wins: a status-change notification is read from its payload whatever other members the body has. */
  lemma FirstShapeWins(extra: map<string, Value>, payload: Value)
    requires Truthy(Some(payload))
    ensures var body := Object(extra["event" := Str("transaction_status_changed")]["payload" := payload]);
      ParseWebhook(Some(body)) == ParseWebhook(Some(Object(map["event" := Str("transaction_status_changed"), "payload" := payload])))
  {
  }

  /** The reconcile write: "paid" turns the order into "preparing" and marks it paid; any other status removes both fields. */
  function ReconcilePatch(status: Option<Value>): (r: Patch)
    ensures r.Keys == {"pagarme_status", "paid", "status", "updatedAt"}
  {
    var paid := status == Some(Str("paid"));
    map["pagarme_status" := Put(OrNull(status).value),
        "paid" := if paid then Put(Bool(true)) else Delete,
        "status" := if paid then Put(Str("preparing")) else Delete,
        "updatedAt" := ServerTime]
  }

  /** What reconciling does to a stored order, whatever its current status. */
  lemma Reconciled(d: Doc, status: Option<Value>, t: int)
    ensures var r := ApplyPatch(d, ReconcilePatch(status), t);
      && (status == Some(Str("paid")) ==> r["status"] == Str("preparing") && r["paid"] == Bool(true))
      && (status != Some(Str("paid")) ==> "status" !in r && "paid" !in r)
      && r["pagarme_status"] == (if Truthy(status) then status.value else Null)
      && r["updatedAt"] == Timestamp(t)
      && forall k :: k in d && k !in {"pagarme_status", "paid", "status", "updatedAt"} ==> k in r && r[k] == d[k]
  {
  }

  /** A notification delivered twice leaves the order as one delivery at the later time would. */
  lemma RedeliveryIdempotent(d: Doc, status: Option<Value>, t1: int, t2: int)
    ensures ApplyPatch(ApplyPatch(d, ReconcilePatch(status), t1), ReconcilePatch(status), t2)
         == ApplyPatch(d, ReconcilePatch(status), t2)
  {
    PatchTwice(d, ReconcilePatch(status), t1, t2);
  }

  const Ok: Value := Object(map["ok" := Bool(true)])
  const Ignored: Value := Object(map["ok" := Bool(true), "ignored" := Bool(true)])

  /**
   * `POST /pagarme/webhook`. A notice without a transaction id is ignored.
   * Without an order id the order is looked up by its transaction id; an
   * order that is found, or named, is reconciled.
   */
  method HandleWebhook(orders: Collection, body: Option<Value>) returns (res: Response)
    modifies orders
    ensures var n := ParseWebhook(body);
      && (!Truthy(n.tid) ==> res == Response(200, Some(Ignored)) && orders.docs == old(orders.docs) && orders.now == old(orders.now))
      && (Truthy(n.tid) && Truthy(n.orderId) && n.orderId.value.Str? && n.orderId.value.s in old(orders.docs) ==>
            && res == Response(200, Some(Ok))
            && orders.docs == old(orders.docs)[n.orderId.value.s := ApplyPatch(old(orders.docs)[n.orderId.value.s], ReconcilePatch(n.status), old(orders.now))])
      && (Truthy(n.tid) && Truthy(n.orderId) && !(n.orderId.value.Str? && n.orderId.value.s in old(orders.docs)) ==>
            res.status == 500 && orders.docs == old(orders.docs) && orders.now == old(orders.now))
      && (Truthy(n.tid) && !Truthy(n.orderId) ==>
            && res == Response(200, Some(Ok))
            && ((forall k :: k in old(orders.docs) ==> Field(old(orders.docs)[k], "pagarme_transaction_id") != n.tid) ==>
                  orders.docs == old(orders.docs) && orders.now == old(orders.now))
            && ((exists k :: k in old(orders.docs) && Field(old(orders.docs)[k], "pagarme_transaction_id") == n.tid) ==>
                  exists k :: k in old(orders.docs) && Field(old(orders.docs)[k], "pagarme_transaction_id") == n.tid
                    && orders.docs == (if k == "" then old(orders.docs)
                                       else old(orders.docs)[k := ApplyPatch(old(orders.docs)[k], ReconcilePatch(n.status), old(orders.now))])))
  {
    var n := ParseWebhook(body);
    if !Truthy(n.tid) {
      return Response(200, Some(Ignored));
    }
    var orderId := n.orderId;
    if !Truthy(orderId) {
      var found := orders.FindFirst("pagarme_transaction_id", n.tid.value);
      if found.Some? {
        orderId := Some(Str(found.value));
      }
    }
    if Truthy(orderId) {
      if !orderId.value.Str? {
        return ErrorReply(500, Str(InvalidPath));
      }
      var ok := orders.Update(orderId.value.s, ReconcilePatch(n.status));
      if !ok {
        return ErrorReply(500, Str(NoDocument));
      }
    }
    res := Response(200, Some(Ok));
  }
}
