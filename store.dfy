/**
 * The document store behind the storefront (one collection of it). Writes
 * are patches: each named field is set, deleted (`FieldValue.delete()`), or
 * set to the store's own clock (`serverTimestamp()`). The clock is an
 * abstract counter that every write advances.
 */
module Store {
  import opened Wrappers
  import opened Json

  /** The value written to one field. */
  datatype FieldWrite = Put(value: Value) | Delete | ServerTime

  type Patch = map<string, FieldWrite>

  /** The stored value of a non-delete write made at time `now`. */
  function Resolve(w: FieldWrite, now: int): (r: Value)
    requires !w.Delete?
    ensures w.Put? ==> r == w.value
    ensures w.ServerTime? ==> r == Timestamp(now)
  {
    if w.Put? then w.value else Timestamp(now)
  }

  /** The document after a patch: patched fields set or removed, every other field as it was. */
  function ApplyPatch(d: Doc, p: Patch, now: int): (r: Doc)
    ensures forall k :: k in p && !p[k].Delete? ==> k in r && r[k] == Resolve(p[k], now)
    ensures forall k :: k in p && p[k].Delete? ==> k !in r
    ensures forall k :: k !in p ==> (k in r <==> k in d)
    ensures forall k :: k !in p && k in d ==> r[k] == d[k]
  {
    map k | k in d.Keys + p.Keys && !(k in p && p[k].Delete?) ::
      if k in p then Resolve(p[k], now) else d[k]
  }

  /** Writes every field of `d` as it is. */
  function Puts(d: Doc): (r: Patch)
    ensures r.Keys == d.Keys
    ensures forall k :: k in d ==> r[k] == Put(d[k])
  {
    map k | k in d :: Put(d[k])
  }

  /** Writing a document's fields onto an empty document stores exactly that document. */
  lemma PutsStoresDoc(d: Doc, now: int)
    ensures ApplyPatch(map[], Puts(d), now) == d
  {
    var r := ApplyPatch(map[], Puts(d), now);
    assert r.Keys == d.Keys;
  }

  /**
   * A patch applied twice equals the same patch applied once, at the later
   * time: redelivering a write changes nothing but the timestamps it sets.
   */
  lemma PatchTwice(d: Doc, p: Patch, t1: int, t2: int)
    ensures ApplyPatch(ApplyPatch(d, p, t1), p, t2) == ApplyPatch(d, p, t2)
  {
    var once := ApplyPatch(d, p, t2);
    var twice := ApplyPatch(ApplyPatch(d, p, t1), p, t2);
    assert twice.Keys == once.Keys;
  }

  /** `ids` lists every document id of `docs` exactly once, in some order. */
  ghost predicate Listing(ids: seq<string>, docs: map<string, Doc>) {
    && (forall i, j :: 0 <= i < j < |ids| ==> ids[i] != ids[j])
    && (forall k :: k in docs <==> k in ids)
  }

  /** A listing has one id per document. */
  lemma ListingSize(ids: seq<string>, docs: map<string, Doc>)
    requires Listing(ids, docs)
    ensures |ids| == |docs|
  {
    DistinctSize(ids);
    assert (set k | k in ids) == docs.Keys;
  }

  /** A list without repeats has as many elements as its set. */
  lemma {:induction false} DistinctSize(ids: seq<string>)
    requires forall i, j :: 0 <= i < j < |ids| ==> ids[i] != ids[j]
    ensures |set k | k in ids| == |ids|
  {
    if ids != [] {
      var front := ids[..|ids| - 1];
      DistinctSize(front);
      assert (set k | k in ids) == (set k | k in front) + {ids[|ids| - 1]};
      assert ids[|ids| - 1] !in front;
    }
  }

  class Collection {
    var docs: map<string, Doc>
    var now: int

    constructor ()
      ensures docs == map[] && now == 0
    {
      docs := map[];
      now := 0;
    }

    /** The document with this id, if any (`ref.get()` and `snap.exists`). */
    function Get(id: string): (r: Option<Doc>)
      reads this
      ensures r.Some? <==> id in docs
      ensures r.Some? ==> r.value == docs[id]
    {
      if id in docs then Some(docs[id]) else None
    }

    /** An identifier no document has yet: longer than every existing one. */
    method NewId() returns (id: string)
      ensures id !in docs
    {
      var keys := docs.Keys;
      var longest: nat := 0;
      while keys != {}
        invariant keys <= docs.Keys
        invariant forall k :: k in docs && k !in keys ==> |k| <= longest
        decreases keys
      {
        var k :| k in keys;
        if |k| > longest {
          longest := |k|;
        }
        keys := keys - {k};
      }
      id := seq(longest + 1, _ => 'o');
    }

    /** `addDoc`: stores a new document under a fresh id. */
    method Add(fields: Patch) returns (id: string)
      modifies this
      ensures id !in old(docs)
      ensures docs == old(docs)[id := ApplyPatch(map[], fields, old(now))]
      ensures now == old(now) + 1
    {
      id := NewId();
      docs := docs[id := ApplyPatch(map[], fields, now)];
      now := now + 1;
    }

    /** `updateDoc` / `ref.update`: patches an existing document; fails when there is none. */
    method Update(id: string, p: Patch) returns (ok: bool)
      modifies this
      ensures ok <==> id in old(docs)
      ensures ok ==> docs == old(docs)[id := ApplyPatch(old(docs)[id], p, old(now))] && now == old(now) + 1
      ensures !ok ==> docs == old(docs) && now == old(now)
    {
      ok := id in docs;
      if ok {
        docs := docs[id := ApplyPatch(docs[id], p, now)];
        now := now + 1;
      }
    }

    /** The ids a query over the whole collection returns (`getDocs`), in the store's order. */
    method Ids() returns (ids: seq<string>)
      ensures Listing(ids, docs)
    {
      var rest := docs.Keys;
      ids := [];
      while rest != {}
        invariant rest <= docs.Keys
        invariant forall i, j :: 0 <= i < j < |ids| ==> ids[i] != ids[j]
        invariant forall k :: k in ids ==> k in docs && k !in rest
        invariant forall k :: k in docs ==> k in rest || k in ids
        decreases rest
      {
        var k :| k in rest;
        ids := ids + [k];
        rest := rest - {k};
      }
    }

    /** `where(field, "==", value).limit(1)`: some document whose field holds the value, if there is one. */
    method FindFirst(field: string, value: Value) returns (id: Option<string>)
      ensures id.Some? ==> id.value in docs && Field(docs[id.value], field) == Some(value)
      ensures id.None? ==> forall k :: k in docs ==> Field(docs[k], field) != Some(value)
    {
      if k :| k in docs && Field(docs[k], field) == Some(value) {
        id := Some(k);
      } else {
        id := None;
      }
    }
  }
}
