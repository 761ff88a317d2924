/** Order creation (`saveOrder`): the record shape and the single append to the orders collection. */
module Orders {
  import opened Wrappers
  import opened Json
  import opened Store

  /** The signed-in user; `email` is null when the identity provider gives none. */
  datatype User = User(uid: string, email: Option<string>)

  /** `user.email` as stored: the address, or null. */
  function EmailValue(u: User): (r: Value)
    ensures r == Null <==> u.email.None?
  {
    if u.email.Some? then Str(u.email.value) else Null
  }

  const NotSignedIn: string := "Usuário não autenticado"

  /**
   * The record `saveOrder` appends: the user's uid and email, then every
   * field of the order (which win over those two), then `createdAt` set to
   * the store's clock and `status` set to "pending" (which win over the order).
   */
  function OrderRecord(user: User, order: Doc): Patch {
    Puts(map["uid" := Str(user.uid), "email" := EmailValue(user)] + order)
      + map["createdAt" := ServerTime, "status" := Put(Str("pending"))]
  }

  /** The record writes the order's fields, the user's uid and email unless the order has them, the clock and "pending". */
  lemma OrderRecordFields(user: User, order: Doc)
    ensures var r := OrderRecord(user, order);
      && r.Keys == order.Keys + {"uid", "email", "createdAt", "status"}
      && r["status"] == Put(Str("pending")) && r["createdAt"] == ServerTime
      && r["uid"] == Put(if "uid" in order then order["uid"] else Str(user.uid))
      && r["email"] == Put(if "email" in order then order["email"] else EmailValue(user))
      && forall k :: k in order && k != "createdAt" && k != "status" ==> r[k] == Put(order[k])
  {
  }

  /**
   * What the store holds after the append at time `t`: status "pending",
   * `createdAt` the write's own time, and every other field of the order unchanged.
   */
  lemma StoredOrder(user: User, order: Doc, t: int)
    ensures var d := ApplyPatch(map[], OrderRecord(user, order), t);
      && d.Keys == order.Keys + {"uid", "email", "createdAt", "status"}
      && d["status"] == Str("pending") && d["createdAt"] == Timestamp(t)
      && d["uid"] == (if "uid" in order then order["uid"] else Str(user.uid))
      && d["email"] == (if "email" in order then order["email"] else EmailValue(user))
      && forall k :: k in order && k != "createdAt" && k != "status" ==> d[k] == order[k]
  {
    OrderRecordFields(user, order);
    var p := OrderRecord(user, order);
    var d := ApplyPatch(map[], p, t);
    assert forall k :: k in p ==> !p[k].Delete?;
    assert d.Keys == p.Keys;
  }

  /**
   * `saveOrder(user, order)`: with no user it fails and writes nothing;
   * otherwise it appends exactly one document, the order record.
   */
  method SaveOrder(orders: Collection, user: Option<User>, order: Doc) returns (r: Result<string, string>)
    modifies orders
    ensures user.None? ==> r == Failure(NotSignedIn)
    ensures user.None? ==> orders.docs == old(orders.docs) && orders.now == old(orders.now)
    ensures user.Some? ==> r.Success? && r.value !in old(orders.docs)
    ensures user.Some? ==>
      orders.docs == old(orders.docs)[r.value := ApplyPatch(map[], OrderRecord(user.value, order), old(orders.now))]
    ensures user.Some? ==> orders.now == old(orders.now) + 1
  {
    if user.None? {
      return Failure(NotSignedIn);
    }
    var id := orders.Add(OrderRecord(user.value, order));
    r := Success(id);
  }
}
