/**
 * What the two payment handlers share: HTTP replies, the gateway's
 * transaction request and its items, the gateway's answer, and the charge
 * reply the storefront reads (`transaction_id`, `qr_code`, `qr_code_url`,
 * `status`).
 */
module Gateway {
  import opened Wrappers
  import opened JsNum
  import opened Json

  const FallbackTitle: string := "Suco Freshflow"
  const PaymentMethod: string := "pix"
  /** The Pix code expires 30 minutes after the request. */
  const PixExpirySeconds: int := 30 * 60
  const MissingOrderId: string := "orderId obrigatório"
  const InvalidAmount: string := "Valor inválido"
  /** The message of the `TypeError` raised by reading a property of a `null` line. */
  const NullLine: string := "Cannot read properties of null (reading 'price')"

  /** An HTTP reply: the status code and the JSON body, if any. */
  datatype Response = Response(status: nat, body: Option<Value>)

  /** `res.status(code).json({ error })`. */
  function ErrorReply(code: nat, error: Value): Response {
    Response(code, Some(Object(map["error" := error])))
  }

  /** One entry of the transaction's `items`. */
  datatype Item = Item(id: string, title: Value, unitPrice: Num, quantity: Num, tangible: bool)

  /**
   * The body of `POST /1/transactions`: the key (omitted from the JSON when
   * it is not configured), the amount in cents, the expiry in seconds, the
   * order id as metadata and the items.
   */
  datatype ChargeRequest = ChargeRequest(
    apiKey: Option<string>, amount: Num, paymentMethod: string,
    expiration: int, orderId: Value, items: seq<Item>)

  /** What an `axios` call gives: the reply's `data`, or the error value the handler reports. */
  datatype GatewayReply = Replied(data: Option<Value>) | Failed(error: Value)

  /** The error value a failed call reports: `e.response.data || e.message`. */
  function GatewayError(responseData: Option<Value>, message: string): (r: Value)
    ensures Truthy(responseData) ==> r == responseData.value
    ensures !Truthy(responseData) ==> r == Str(message)
  {
    Or(responseData, Some(Str(message))).value
  }

  /** `Math.floor(Date.now() / 1000) + 30 * 60` for a clock reading in milliseconds. */
  function Expiration(nowMillis: int): (r: int)
    ensures (r - PixExpirySeconds) * 1000 <= nowMillis < (r - PixExpirySeconds + 1) * 1000
  {
    nowMillis / 1000 + PixExpirySeconds
  }

  /** `null` is the one line value whose property read throws. */
  predicate NoNullLine(lines: seq<Value>) {
    forall i :: 0 <= i < |lines| ==> lines[i] != Null
  }

  /** `Number(l.price)`. */
  function Price(l: Value): Num {
    ToNumber(Get(Some(l), "price"))
  }

  /**
   * `Math.round(Number(l.price) * 100)`: the price in whole cents, rounded
   * half up; a price that is already a whole number of cents is kept exactly.
   */
  function UnitCents(l: Value): (r: Num)
    ensures Price(l).Fin? ==> IsInteger(r) && r.v - 0.5 <= Price(l).v * 100.0 < r.v + 0.5
    ensures Price(l).Fin? && IsInteger(Fin(Price(l).v * 100.0)) ==> r == Fin(Price(l).v * 100.0)
    ensures !Price(l).Fin? ==> !r.Fin?
  {
    var p := Price(l);
    var c := Mul(p, Fin(100.0));
    assert p.Fin? ==> c == Fin(p.v * 100.0);
    assert p.Inf? ==> c.Inf?;
    assert p.Fin? && IsInteger(c) ==> Round(c) == c by {
      if p.Fin? && IsInteger(c) {
        assert (c.v + 0.5).Floor == c.v.Floor;
      }
    }
    Round(c)
  }

  /** `l.name || "Suco Freshflow"`. */
  function Title(l: Value): (r: Value)
    ensures Truthy(Get(Some(l), "name")) ==> r == l.fields["name"]
    ensures !Truthy(Get(Some(l), "name")) ==> r == Str(FallbackTitle)
  {
    Or(Get(Some(l), "name"), Some(Str(FallbackTitle))).value
  }

  /** `lines.map((l, i) => ({ id: String(i + 1), title, unit_price, quantity, tangible: false }))`. */
  function Items(lines: seq<Value>, quantity: Value -> Num): (r: seq<Item>)
    ensures |r| == |lines|
    ensures forall i :: 0 <= i < |lines| ==>
      r[i] == Item(Decimal(i + 1), Title(lines[i]), UnitCents(lines[i]), quantity(lines[i]), false)
  {
    seq(|lines|, i requires 0 <= i < |lines| => Item(Decimal(i + 1), Title(lines[i]), UnitCents(lines[i]), quantity(lines[i]), false))
  }

  /** The item ids are "1" to "n": each reads back as its position plus one, and no two are equal. */
  lemma ItemIds(lines: seq<Value>, quantity: Value -> Num)
    ensures var items := Items(lines, quantity);
      && (forall i :: 0 <= i < |items| ==> ParseDecimal(items[i].id) == i + 1)
      && (forall i, j :: 0 <= i < j < |items| ==> items[i].id != items[j].id)
  {
    var items := Items(lines, quantity);
    forall i | 0 <= i < |items|
      ensures ParseDecimal(items[i].id) == i + 1
    {
      DecimalRoundTrip(i + 1);
    }
    forall i, j | 0 <= i < j < |items|
      ensures items[i].id != items[j].id
    {
      DecimalInjective(i + 1, j + 1);
    }
  }

  /** Taking the items of a prefix of the lines is taking a prefix of the items. */
  lemma ItemsPrefix(lines: seq<Value>, quantity: Value -> Num, k: nat)
    requires k <= |lines|
    ensures Items(lines[..k], quantity) == Items(lines, quantity)[..k]
  {
  }

  /** `Σ unit_price × quantity` over the items, as the gateway would add them up. */
  function ItemsTotal(items: seq<Item>): Num {
    if items == [] then Zero
    else Add(ItemsTotal(items[..|items| - 1]), Mul(items[|items| - 1].unitPrice, items[|items| - 1].quantity))
  }

  /** The first truthy of several optional values, or `null`. */
  function FirstTruthy(vs: seq<Option<Value>>): (r: Value)
    ensures r == Null || exists i :: 0 <= i < |vs| && Truthy(vs[i]) && vs[i] == Some(r)
    ensures forall i :: 0 <= i < |vs| && Truthy(vs[i]) && (forall j :: 0 <= j < i ==> !Truthy(vs[j])) ==> r == vs[i].value
    ensures (forall i :: 0 <= i < |vs| ==> !Truthy(vs[i])) ==> r == Null
  {
    if vs == [] then Null else Or(vs[0], Some(FirstTruthy(vs[1..]))).value
  }

  /** The gateway's transaction object, `resp.data || {}`. */
  function Transaction(data: Option<Value>): Option<Value> {
    Or(data, Some(Object(map[])))
  }

  /**
   * The charge reply: `transaction_id` and `status` from the transaction
   * (left out of the JSON when absent), `qr_code` from `pix_qr_code`, then
   * `qr_code`, then `qr_code_text`, then null, and `qr_code_url` from
   * `pix_qr_code_url`, then `qr_code_url`, then null.
   */
  function ChargeReply(data: Option<Value>): Value {
    var tr := Transaction(data);
    ReplyOf(Get(tr, "id"), FirstTruthy([Get(tr, "pix_qr_code"), Get(tr, "qr_code"), Get(tr, "qr_code_text")]),
            FirstTruthy([Get(tr, "pix_qr_code_url"), Get(tr, "qr_code_url")]), Get(tr, "status"))
  }

  /** The reply object from its four members; an absent id or status is left out. */
  function ReplyOf(id: Option<Value>, qrCode: Value, qrCodeUrl: Value, status: Option<Value>): (r: Value)
    ensures r.Object?
    ensures r.fields.Keys == {"qr_code", "qr_code_url"} + (if id.Some? then {"transaction_id"} else {})
                             + (if status.Some? then {"status"} else {})
    ensures r.fields["qr_code"] == qrCode && r.fields["qr_code_url"] == qrCodeUrl
    ensures id.Some? ==> r.fields["transaction_id"] == id.value
    ensures status.Some? ==> r.fields["status"] == status.value
  {
    var base := map["qr_code" := qrCode, "qr_code_url" := qrCodeUrl];
    var withId := if id.Some? then base["transaction_id" := id.value] else base;
    Object(if status.Some? then withId["status" := status.value] else withId)
  }

  /**
   * The reply names the transaction and its status exactly when the gateway
   * sent them; the Pix code is `pix_qr_code` when the gateway sent one, and
   * null only when it sent none of the three; the link falls back likewise.
   */
  lemma ChargeReplyFields(data: Option<Value>)
    ensures var tr := Transaction(data);
      var r := ChargeReply(data);
      var code := r.fields["qr_code"];
      var url := r.fields["qr_code_url"];
      && r.Object? && "qr_code" in r.fields && "qr_code_url" in r.fields
      && ("transaction_id" in r.fields <==> Get(tr, "id").Some?)
      && ("transaction_id" in r.fields ==> r.fields["transaction_id"] == Get(tr, "id").value)
      && ("status" in r.fields <==> Get(tr, "status").Some?)
      && ("status" in r.fields ==> r.fields["status"] == Get(tr, "status").value)
      && (Truthy(Get(tr, "pix_qr_code")) ==> code == Get(tr, "pix_qr_code").value)
      && (!Truthy(Get(tr, "pix_qr_code")) && Truthy(Get(tr, "qr_code")) ==> code == Get(tr, "qr_code").value)
      && (!Truthy(Get(tr, "pix_qr_code")) && !Truthy(Get(tr, "qr_code")) && Truthy(Get(tr, "qr_code_text")) ==>
            code == Get(tr, "qr_code_text").value)
      && (code == Null <==>
            !Truthy(Get(tr, "pix_qr_code")) && !Truthy(Get(tr, "qr_code")) && !Truthy(Get(tr, "qr_code_text")))
      && (Truthy(Get(tr, "pix_qr_code_url")) ==> url == Get(tr, "pix_qr_code_url").value)
      && (!Truthy(Get(tr, "pix_qr_code_url")) && Truthy(Get(tr, "qr_code_url")) ==> url == Get(tr, "qr_code_url").value)
      && (url == Null <==> !Truthy(Get(tr, "pix_qr_code_url")) && !Truthy(Get(tr, "qr_code_url")))
  {
    var tr := Transaction(data);
    var vs := [Get(tr, "pix_qr_code"), Get(tr, "qr_code"), Get(tr, "qr_code_text")];
    assert vs[1..] == [vs[1], vs[2]] && vs[1..][1..] == [vs[2]];
    assert forall i :: 0 <= i < |vs| && Truthy(vs[i]) ==> vs[i].value != Null;
    var us := [Get(tr, "pix_qr_code_url"), Get(tr, "qr_code_url")];
    assert us[1..] == [us[1]];
    assert forall i :: 0 <= i < |us| && Truthy(us[i]) ==> us[i].value != Null;
  }
}
