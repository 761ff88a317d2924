/**
 * The storefront component's state and the handlers that change it: the
 * pending line and the cart, checkout, the order lists and the admin's
 * status change. Rendering and navigation are not modelled beyond the
 * `step` each handler sets.
 */
module Storefront {
  import opened Wrappers
  import opened JsNum
  import opened Json
  import opened Store
  import opened Orders
  import opened Cart
  import opened Checkout
  import opened OrderView

  const NotLoggedIn: string := "Usuário não logado"
  const EmptyCart: string := "Carrinho vazio"
  const BuilderName: string := "Suco Personalizado"

  class Shop {
    var user: Option<User>
    var isAdmin: bool
    var pendingLine: Option<PendingLine>
    var cart: seq<Line>
    var delivery: Value          // `null` until a delivery option is chosen
    var address: Value
    var lastOrderId: Option<string>
    var step: int
    var ordersList: seq<Doc>
    var adminOrders: seq<Doc>
    const orders: Collection

    /** Every cart line went through confirmation. */
    ghost predicate Valid()
      reads this
    {
      forall i :: 0 <= i < |cart| ==> Normalized(cart[i])
    }

    /** The component's initial state, over the store's orders collection. */
    constructor (orders: Collection)
      ensures this.orders == orders
      ensures user.None? && !isAdmin && pendingLine.None? && cart == []
      ensures delivery == Null && address == Object(map[]) && lastOrderId.None? && step == 0
      ensures ordersList == [] && adminOrders == []
      ensures Valid()
    {
      this.orders := orders;
      user := None;
      isAdmin := false;
      pendingLine := None;
      cart := [];
      delivery := Null;
      address := Object(map[]);
      lastOrderId := None;
      step := 0;
      ordersList := [];
      adminOrders := [];
    }

    /** `startAddFromSuggestion(sug)`: a pending line of one unit of a menu suggestion. */
    method StartAddFromSuggestion(name: Option<string>, items: Option<Value>, price: Option<Value>)
      modifies this
      ensures pendingLine == Some(PendingLine(name, items, ToNumber(price), One)) && step == 33
      ensures cart == old(cart) && user == old(user) && isAdmin == old(isAdmin)
      ensures delivery == old(delivery) && address == old(address) && lastOrderId == old(lastOrderId)
      ensures ordersList == old(ordersList) && adminOrders == old(adminOrders)
    {
      pendingLine := Some(PendingLine(name, items, ToNumber(price), One));
      step := 33;
    }

    /** `startAddFromBuilder()`: a pending line of one custom juice of at most 20 chosen ingredients. */
    method StartAddFromBuilder(builderItems: seq<string>, builderPrice: Num)
      modifies this
      ensures pendingLine == Some(PendingLine(Some(BuilderName), Some(List(StringsOf(Take(builderItems, MaxLineItems)))), builderPrice, One))
      ensures step == 33
      ensures cart == old(cart) && user == old(user) && isAdmin == old(isAdmin)
      ensures delivery == old(delivery) && address == old(address) && lastOrderId == old(lastOrderId)
      ensures ordersList == old(ordersList) && adminOrders == old(adminOrders)
    {
      pendingLine := Some(PendingLine(Some(BuilderName), Some(List(StringsOf(Take(builderItems, MaxLineItems)))), builderPrice, One));
      step := 33;
    }

    /**
     * `confirmAddPendingLine()`: appends the confirmed pending line at the
     * end of the cart, clears it and moves to the cart; without a pending
     * line nothing changes.
     */
    method ConfirmAddPendingLine()
      requires Valid()
      modifies this
      ensures Valid()
      ensures old(pendingLine).None? ==> unchanged(this)
      ensures old(pendingLine).Some? ==>
        && cart == old(cart) + [Confirm(old(pendingLine).value)]
        && pendingLine.None? && step == 4
      ensures user == old(user) && isAdmin == old(isAdmin) && delivery == old(delivery) && address == old(address)
      ensures lastOrderId == old(lastOrderId) && ordersList == old(ordersList) && adminOrders == old(adminOrders)
    {
      if pendingLine.None? {
        return;
      }
      var line := Confirm(pendingLine.value);
      cart := cart + [line];
      pendingLine := None;
      step := 4;
    }

    /** `updateLineQty(index, delta)`. */
    method UpdateLineQty(index: int, delta: int)
      requires Valid()
      modifies this
      ensures Valid()
      ensures cart == UpdateQty(old(cart), index, delta)
      ensures pendingLine == old(pendingLine) && step == old(step) && user == old(user) && isAdmin == old(isAdmin)
      ensures delivery == old(delivery) && address == old(address) && lastOrderId == old(lastOrderId)
      ensures ordersList == old(ordersList) && adminOrders == old(adminOrders)
    {
      UpdateQtyKeepsNormalized(cart, index, delta);
      cart := UpdateQty(cart, index, delta);
    }

    /** `removeLine(index)`. */
    method RemoveLine(index: int)
      requires Valid()
      modifies this
      ensures Valid()
      ensures cart == WithoutLine(old(cart), index)
      ensures pendingLine == old(pendingLine) && step == old(step) && user == old(user) && isAdmin == old(isAdmin)
      ensures delivery == old(delivery) && address == old(address) && lastOrderId == old(lastOrderId)
      ensures ordersList == old(ordersList) && adminOrders == old(adminOrders)
    {
      cart := WithoutLine(cart, index);
    }

    /**
     * `handleSaveOrder(paymentMethod)`. Without a user or with an empty cart
     * it fails before writing and keeps every state cell; otherwise it
     * appends the order record, remembers its id, empties the cart, resets
     * delivery and address and moves to the confirmation step.
     */
    method HandleSaveOrder(paymentMethod: string) returns (r: Result<string, string>)
      requires Valid()
      modifies this, orders
      ensures Valid()
      ensures old(user).None? ==> r == Failure(NotLoggedIn)
      ensures old(user).Some? && old(cart) == [] ==> r == Failure(EmptyCart)
      ensures r.Failure? ==> unchanged(this) && unchanged(orders)
      ensures old(user).Some? && old(cart) != [] ==>
        && r.Success? && r.value !in old(orders.docs)
        && orders.docs == old(orders.docs)[r.value := SavedOrder(old(user).value, old(cart), old(delivery), old(address), paymentMethod, old(orders.now))]
        && lastOrderId == Some(r.value) && cart == [] && delivery == Null && address == Object(map[]) && step == 6
      ensures user == old(user) && isAdmin == old(isAdmin) && pendingLine == old(pendingLine)
      ensures ordersList == old(ordersList) && adminOrders == old(adminOrders)
    {
      if user.None? {
        return Failure(NotLoggedIn);
      }
      if cart == [] {
        return Failure(EmptyCart);
      }
      var payload := OrderPayload(user.value, cart, delivery, address, paymentMethod);
      var id := Submit(user.value, payload);
      r := Success(id);
    }

    /**
     * The saving half of `handleSaveOrder`: `saveOrder(user, payload)`
     * appends the order record, then the id is remembered, the cart
     * emptied, delivery and address reset and the confirmation step shown.
     */
    method Submit(u: User, payload: Doc) returns (id: string)
      modifies this, orders
      ensures id !in old(orders.docs)
      ensures orders.docs == old(orders.docs)[id := ApplyPatch(map[], OrderRecord(u, payload), old(orders.now))]
      ensures orders.now == old(orders.now) + 1
      ensures lastOrderId == Some(id) && cart == [] && delivery == Null && address == Object(map[]) && step == 6
      ensures user == old(user) && isAdmin == old(isAdmin) && pendingLine == old(pendingLine)
      ensures ordersList == old(ordersList) && adminOrders == old(adminOrders)
    {
      var saved := SaveOrder(orders, Some(u), payload);
      id := saved.value;
      lastOrderId := Some(id);
      cart := [];
      delivery := Null;
      address := Object(map[]);
      step := 6;
    }

    /**
     * The orders query's results as the loaders collect them: each
     * document id the store returns, in its order, whose order passes the
     * filter, pushed as `{ id, ...data }`.
     */
    method Fetch(uid: Option<string>) returns (list: seq<Doc>, ghost fetched: seq<string>)
      ensures Listing(fetched, orders.docs)
      ensures list == Entries(orders.docs, fetched, uid)
    {
      var ids := orders.Ids();
      fetched := ids;
      list := [];
      var k := 0;
      while k < |ids|
        invariant 0 <= k <= |ids|
        invariant list == Entries(orders.docs, ids[..k], uid)
      {
        var id := ids[k];
        var d := orders.docs[id];
        assert ids[..k + 1][..k] == ids[..k];
        if Matches(d, uid) {
          list := list + [Entry(id, d)];
        }
        k := k + 1;
      }
      assert ids[..k] == ids;
    }

    /** Sorts a fetched list newest first through an array, as `list2.sort(...)` does in place. */
    method Sorted(list: seq<Doc>) returns (sorted: seq<Doc>)
      ensures NewestFirst(sorted) && multiset(sorted) == multiset(list)
    {
      var a := new Doc[|list|](i requires 0 <= i < |list| => list[i]);
      assert a[..] == list;
      SortNewestFirst(a);
      sorted := a[..];
    }

    /**
     * `loadMyOrders()` on its fallback path: without a user it only returns
     * to the login step; otherwise "my orders" becomes the signed-in user's
     * orders, newest first, each exactly once.
     */
    method LoadMyOrders() returns (ghost fetched: seq<string>)
      modifies this
      ensures old(user).None? ==> step == 1 && ordersList == old(ordersList)
      ensures old(user).Some? ==>
        && Listing(fetched, orders.docs)
        && NewestFirst(ordersList)
        && multiset(ordersList) == multiset(Entries(orders.docs, fetched, Some(old(user).value.uid)))
        && step == 9
      ensures user == old(user) && isAdmin == old(isAdmin) && pendingLine == old(pendingLine) && cart == old(cart)
      ensures delivery == old(delivery) && address == old(address) && lastOrderId == old(lastOrderId)
      ensures adminOrders == old(adminOrders)
    {
      if user.None? {
        step := 1;
        fetched := [];
        return;
      }
      var list;
      list, fetched := Fetch(Some(user.value.uid));
      ordersList := Sorted(list);
      step := 9;
    }

    /**
     * `loadAllOrders()` on its fallback path: a no-op for a non-admin;
     * otherwise the admin list becomes every stored order, newest first,
     * each exactly once.
     */
    method LoadAllOrders() returns (ghost fetched: seq<string>)
      modifies this
      ensures !old(isAdmin) ==> unchanged(this)
      ensures old(isAdmin) ==>
        && Listing(fetched, orders.docs)
        && NewestFirst(adminOrders)
        && multiset(adminOrders) == multiset(Entries(orders.docs, fetched, None))
        && |adminOrders| == |orders.docs|
        && step == 10
      ensures user == old(user) && isAdmin == old(isAdmin) && pendingLine == old(pendingLine) && cart == old(cart)
      ensures delivery == old(delivery) && address == old(address) && lastOrderId == old(lastOrderId)
      ensures ordersList == old(ordersList)
    {
      if !isAdmin {
        fetched := [];
        return;
      }
      var list;
      list, fetched := Fetch(None);
      AllEntries(orders.docs, fetched);
      ListingSize(fetched, orders.docs);
      adminOrders := Sorted(list);
      assert |multiset(adminOrders)| == |multiset(list)|;
      step := 10;
    }

    /**
     * `updateOrderStatus(orderId, status)`: a no-op for a non-admin.
     * Otherwise it writes `status` and `updatedAt` together, whatever the
     * current status is, and reloads the admin list; for a missing order
     * the write fails and nothing changes.
     */
    method UpdateOrderStatus(orderId: string, status: string) returns (ok: bool, ghost fetched: seq<string>)
      modifies this, orders
      ensures !old(isAdmin) ==> !ok && unchanged(this) && orders.docs == old(orders.docs) && orders.now == old(orders.now)
      ensures old(isAdmin) ==> (ok <==> orderId in old(orders.docs))
      ensures ok ==> orders.docs == old(orders.docs)[orderId :=
        ApplyPatch(old(orders.docs)[orderId], map["status" := Put(Str(status)), "updatedAt" := ServerTime], old(orders.now))]
      ensures ok ==> orders.now == old(orders.now) + 1
      ensures ok ==>
        && Listing(fetched, orders.docs)
        && NewestFirst(adminOrders)
        && multiset(adminOrders) == multiset(Entries(orders.docs, fetched, None))
        && |adminOrders| == |orders.docs|
        && step == 10
      ensures old(isAdmin) && !ok ==> unchanged(this) && orders.docs == old(orders.docs) && orders.now == old(orders.now)
      ensures user == old(user) && isAdmin == old(isAdmin) && pendingLine == old(pendingLine) && cart == old(cart)
      ensures delivery == old(delivery) && address == old(address) && lastOrderId == old(lastOrderId)
      ensures ordersList == old(ordersList)
    {
      fetched := [];
      if !isAdmin {
        return false, fetched;
      }
      ok := orders.Update(orderId, map["status" := Put(Str(status)), "updatedAt" := ServerTime]);
      if ok {
        fetched := LoadAllOrders();
      }
    }
  }

  /** The document `handleSaveOrder` leaves in the store when the append happens at time `t`. */
  function SavedOrder(user: User, cart: seq<Line>, delivery: Value, address: Value, paymentMethod: string, t: int): Doc {
    ApplyPatch(map[], OrderRecord(user, OrderPayload(user, cart, delivery, address, paymentMethod)), t)
  }

  /** The `totalPrice` stored for a cart of confirmed lines is the subtotal that was shown for it. */
  lemma SavedTotalIsSubtotal(user: User, cart: seq<Line>, delivery: Value, address: Value, paymentMethod: string, t: int)
    requires forall i :: 0 <= i < |cart| ==> Normalized(cart[i])
    ensures var d := SavedOrder(user, cart, delivery, address, paymentMethod, t);
      "totalPrice" in d && d["totalPrice"] == Number(Subtotal(cart))
  {
    StoredPayload(user, cart, delivery, address, paymentMethod, t);
    StoredTotalIsSubtotal(cart);
  }

  /** The `lines` stored for a cart are the confirmed lines, as objects. */
  lemma SavedLinesAreCart(user: User, cart: seq<Line>, delivery: Value, address: Value, paymentMethod: string, t: int)
    requires forall i :: 0 <= i < |cart| ==> Normalized(cart[i])
    ensures var d := SavedOrder(user, cart, delivery, address, paymentMethod, t);
      "lines" in d && d["lines"] == List(LineValues(cart))
  {
    StoredPayload(user, cart, delivery, address, paymentMethod, t);
    NormLinesOfNormalized(cart);
  }
}
