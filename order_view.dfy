/**
 * How the storefront reads stored orders back: the creation time used to
 * order a list, the in-place newest-first sort of the fallback loaders, the
 * total shown for new and legacy documents, and the status label.
 */
module OrderView {
  import opened Wrappers
  import opened JsNum
  import opened Json

  /** `o.createdAt?.toMillis ? o.createdAt.toMillis() : 0`. */
  function CreatedMillis(o: Doc): (r: int)
    ensures "createdAt" in o && o["createdAt"].Timestamp? ==> r == o["createdAt"].millis
    ensures !("createdAt" in o && o["createdAt"].Timestamp?) ==> r == 0
  {
    if "createdAt" in o && o["createdAt"].Timestamp? then o["createdAt"].millis else 0
  }

  /** `{ id: d.id, ...d.data() }`: the document with its id, which a stored `id` field overrides. */
  function Entry(id: string, d: Doc): (r: Doc)
    ensures r.Keys == d.Keys + {"id"}
    ensures r["id"] == (if "id" in d then d["id"] else Str(id))
    ensures forall k :: k in d ==> r[k] == d[k]
  {
    map["id" := Str(id)] + d
  }

  /** The query's filter: every order, or `where("uid", "==", uid)`. */
  predicate Matches(d: Doc, uid: Option<string>) {
    uid.None? || Field(d, "uid") == Some(Str(uid.value))
  }

  /** The list a loader pushes in its `forEach`: one entry per matching id, in the order the query returned them. */
  function Entries(docs: map<string, Doc>, ids: seq<string>, uid: Option<string>): (r: seq<Doc>)
    requires forall i :: 0 <= i < |ids| ==> ids[i] in docs
    ensures |r| <= |ids|
  {
    if ids == [] then []
    else
      var rest := Entries(docs, ids[..|ids| - 1], uid);
      var id := ids[|ids| - 1];
      if Matches(docs[id], uid) then rest + [Entry(id, docs[id])] else rest
  }

  /** Every matching order has its entry in the list. */
  lemma {:induction false} EntriesComplete(docs: map<string, Doc>, ids: seq<string>, uid: Option<string>, id: string)
    requires forall i :: 0 <= i < |ids| ==> ids[i] in docs
    requires id in ids && Matches(docs[id], uid)
    ensures Entry(id, docs[id]) in Entries(docs, ids, uid)
  {
    if ids[|ids| - 1] != id {
      assert id in ids[..|ids| - 1];
      EntriesComplete(docs, ids[..|ids| - 1], uid, id);
    }
  }

  /** Every entry in the list belongs to a matching order. */
  lemma {:induction false} EntriesSound(docs: map<string, Doc>, ids: seq<string>, uid: Option<string>, e: Doc)
    requires forall i :: 0 <= i < |ids| ==> ids[i] in docs
    requires e in Entries(docs, ids, uid)
    ensures exists i :: 0 <= i < |ids| && Matches(docs[ids[i]], uid) && e == Entry(ids[i], docs[ids[i]])
  {
    var front := ids[..|ids| - 1];
    var id := ids[|ids| - 1];
    if e in Entries(docs, front, uid) {
      EntriesSound(docs, front, uid, e);
      var i :| 0 <= i < |front| && Matches(docs[front[i]], uid) && e == Entry(front[i], docs[front[i]]);
      assert ids[i] == front[i];
    } else {
      assert Matches(docs[id], uid) && e == Entry(id, docs[id]);
    }
  }

  /** Without a filter the list has one entry per stored order. */
  lemma {:induction false} AllEntries(docs: map<string, Doc>, ids: seq<string>)
    requires forall i :: 0 <= i < |ids| ==> ids[i] in docs
    ensures |Entries(docs, ids, None)| == |ids|
  {
    if ids != [] {
      AllEntries(docs, ids[..|ids| - 1]);
    }
  }

  /** Every order is at least as recent as each one after it. */
  predicate NewestFirst(list: seq<Doc>) {
    forall p, q :: 0 <= p < q < |list| ==> CreatedMillis(list[p]) >= CreatedMillis(list[q])
  }

  /**
   * `list.sort((a, b) => tb - ta)` on the fetched list: afterwards the list
   * holds the same orders, newest first.
   */
  method SortNewestFirst(a: array<Doc>)
    modifies a
    ensures NewestFirst(a[..])
    ensures multiset(a[..]) == multiset(old(a[..]))
  {
    var i := 0;
    while i < a.Length
      invariant 0 <= i <= a.Length
      invariant NewestFirst(a[..i])
      invariant multiset(a[..]) == multiset(old(a[..]))
    {
      InsertLast(a, i);
      i := i + 1;
    }
    assert a[..a.Length] == a[..];
  }

  /**
   * While `a[i]` moves left to position `j`: the orders other than the moving
   * one are newest first, those after it are older than it, and its two
   * neighbours are in order with each other.
   */
  ghost predicate Inserting(s: seq<Doc>, i: nat, j: nat)
    requires j <= i < |s|
  {
    && (forall p, q :: 0 <= p < q <= i && p != j && q != j ==> CreatedMillis(s[p]) >= CreatedMillis(s[q]))
    && (forall q :: j < q <= i ==> CreatedMillis(s[j]) > CreatedMillis(s[q]))
    && (0 < j < i ==> CreatedMillis(s[j - 1]) >= CreatedMillis(s[j + 1]))
  }

  /** Swapping the moving order with a less recent left neighbour keeps the insertion state. */
  lemma InsertingStep(s: seq<Doc>, i: nat, j: nat)
    requires 0 < j <= i < |s| && Inserting(s, i, j)
    requires CreatedMillis(s[j - 1]) < CreatedMillis(s[j])
    ensures Inserting(s[j - 1 := s[j]][j := s[j - 1]], i, j - 1)
  {
  }

  /** Once the left neighbour is at least as recent, the prefix up to `i` is newest first. */
  lemma InsertingDone(s: seq<Doc>, i: nat, j: nat)
    requires j <= i < |s| && Inserting(s, i, j)
    requires j == 0 || CreatedMillis(s[j - 1]) >= CreatedMillis(s[j])
    ensures NewestFirst(s[..i + 1])
  {
  }

  /** One insertion step: `a[i]` moves left past every less recent order, so `a[..i+1]` becomes newest first. */
  method InsertLast(a: array<Doc>, i: nat)
    requires i < a.Length
    requires NewestFirst(a[..i])
    modifies a
    ensures NewestFirst(a[..i + 1])
    ensures multiset(a[..]) == multiset(old(a[..]))
  {
    var j := i;
    assert Inserting(a[..], i, j);
    while j > 0 && CreatedMillis(a[j - 1]) < CreatedMillis(a[j])
      invariant 0 <= j <= i
      invariant Inserting(a[..], i, j)
      invariant multiset(a[..]) == multiset(old(a[..]))
    {
      InsertingStep(a[..], i, j);
      Swap(a, j - 1, j);
      j := j - 1;
    }
    InsertingDone(a[..], i, j);
  }

  /** Exchanges two entries of the list. */
  method Swap(a: array<Doc>, p: nat, q: nat)
    requires p < a.Length && q < a.Length
    modifies a
    ensures a[..] == old(a[..])[p := old(a[q])][q := old(a[p])]
    ensures multiset(a[..]) == multiset(old(a[..]))
  {
    a[p], a[q] := a[q], a[p];
  }

  /**
   * The total shown in the order lists: `totalPrice || 0` for an order with
   * lines, `price * qty` for a legacy order whose price and quantity are
   * numbers, and 0 otherwise.
   */
  function DisplayTotal(o: Doc): (r: Num)
    ensures "lines" in o && o["lines"].List? && o["lines"].elems != [] ==>
      r == ToNumber(Or(Field(o, "totalPrice"), Some(Number(Zero))))
    ensures !("lines" in o && o["lines"].List? && o["lines"].elems != []) ==>
      if "price" in o && o["price"].Number? && "qty" in o && o["qty"].Number?
      then r == Mul(o["price"].n, o["qty"].n)
      else r == Zero
  {
    var hasLines := "lines" in o && o["lines"].List? && o["lines"].elems != [];
    if hasLines then ToNumber(Or(Field(o, "totalPrice"), Some(Number(Zero))))
    else if "price" in o && o["price"].Number? && "qty" in o && o["qty"].Number? then Mul(o["price"].n, o["qty"].n)
    else Zero
  }

  /** For an order with lines the display is the stored total, except that a falsy total (0 or NaN) shows as 0. */
  lemma DisplayTotalOfLines(o: Doc, total: Num)
    requires "lines" in o && o["lines"].List? && o["lines"].elems != []
    requires "totalPrice" in o && o["totalPrice"] == Number(total)
    ensures DisplayTotal(o) == NumOr(total, Zero)
    ensures !total.NaN? ==> DisplayTotal(o) == total
  {
  }

  /** The status the order lists print, `o.status || "pending"`: the stored value itself, not its label. */
  function ListedStatus(o: Doc): (r: Value)
    ensures Truthy(Field(o, "status")) ==> r == o["status"]
    ensures !Truthy(Field(o, "status")) ==> r == Str("pending")
  {
    Or(Field(o, "status"), Some(Str("pending"))).value
  }

  /** The statuses the tracking card names, `statusMap`. */
  const StatusNames: map<string, string> :=
    map["pending" := "Recebido", "preparing" := "Em preparo", "on_the_way" := "A caminho", "delivered" := "Entregue"]

  /** `statusMap[o.status || "pending"]`: `None` (nothing shown) for a status outside the map. */
  function StatusLabel(o: Doc): (r: Option<string>)
    ensures !Truthy(Field(o, "status")) ==> r == Some("Recebido")
    ensures "status" in o && o["status"].Str? && o["status"].s in StatusNames ==> r == Some(StatusNames[o["status"].s])
    ensures r.Some? ==> r.value in StatusNames.Values
  {
    var key := Or(Field(o, "status"), Some(Str("pending"))).value;
    if key.Str? && key.s in StatusNames then Some(StatusNames[key.s]) else None
  }

  /** Only the four known statuses, or a missing one, have a label. */
  lemma StatusLabelDefined(o: Doc)
    ensures StatusLabel(o).Some? <==>
      !Truthy(Field(o, "status")) || (o["status"].Str? && o["status"].s in StatusNames)
  {
  }
}
