/** A repository whose documents carry their own key (the @Id field the
    caller fills in): the customer-mongo and demo CustomerRepo and the
    Account module's AccountRepo. `save` replaces the document with the
    same key or appends a new one; a null key cannot be saved (MongoDB cannot
    generate an Integer id, JPA requires an assigned one). */
module KeyedStores {
  import opened Common

  /** Index of the first document whose key is `id`, if any. */
  function Find<T>(docs: seq<T>, keyOf: T -> Option<int>, id: Option<int>): (r: Option<nat>)
    ensures r.Some? ==> r.value < |docs| && keyOf(docs[r.value]) == id
    ensures r.Some? ==> forall j :: 0 <= j < r.value ==> keyOf(docs[j]) != id
    ensures r.None? ==> forall j :: 0 <= j < |docs| ==> keyOf(docs[j]) != id
    decreases |docs|
  {
    if docs == [] then None
    else if keyOf(docs[0]) == id then Some(0)
    else match Find(docs[1..], keyOf, id)
      case None => None
      case Some(k) => Some(k + 1)
  }

  /** `findById`: the document stored under `id`, if any. */
  function Lookup<T>(docs: seq<T>, keyOf: T -> Option<int>, id: Option<int>): (r: Option<T>)
    ensures r.Some? ==> r.value in docs && keyOf(r.value) == id
    ensures r.None? ==> forall i :: 0 <= i < |docs| ==> keyOf(docs[i]) != id
  {
    match Find(docs, keyOf, id)
    case None => None
    case Some(i) => Some(docs[i])
  }

  /** Every stored document has a non-null key and no key occurs twice. */
  ghost predicate Keyed<T>(docs: seq<T>, keyOf: T -> Option<int>)
  {
    && (forall i :: 0 <= i < |docs| ==> keyOf(docs[i]).Some?)
    && (forall i, j :: 0 <= i < j < |docs| ==> keyOf(docs[i]) != keyOf(docs[j]))
  }

  /** The store after `save(d)`: d replaces the document with its key in
      place, or is appended when the key is new. */
  function Upsert<T>(docs: seq<T>, keyOf: T -> Option<int>, d: T): (r: seq<T>)
    ensures d in r && |docs| <= |r| <= |docs| + 1
    ensures forall i :: 0 <= i < |docs| && keyOf(docs[i]) != keyOf(d) ==> r[i] == docs[i]
  {
    match Find(docs, keyOf, keyOf(d))
    case Some(i) => assert docs[i := d][i] == d; docs[i := d]
    case None => docs + [d]
  }

  /** The keys present in the store. */
  ghost function Keys<T>(docs: seq<T>, keyOf: T -> Option<int>): set<Option<int>>
  {
    set i | 0 <= i < |docs| :: keyOf(docs[i])
  }

  /** A lookup finds a document exactly when one with that key is stored. */
  lemma LookupIffStored<T>(docs: seq<T>, keyOf: T -> Option<int>, id: Option<int>)
    ensures Lookup(docs, keyOf, id).Some? <==> id in Keys(docs, keyOf)
    ensures Lookup(docs, keyOf, id).Some? ==> keyOf(Lookup(docs, keyOf, id).value) == id
  {
    if id in Keys(docs, keyOf) {
      var i :| 0 <= i < |docs| && keyOf(docs[i]) == id;
    }
  }

  /** Saving keeps the keys unique and non-null, adds exactly the saved
      document's key, makes that key find the saved document and leaves every
      other key's document as it was. */
  lemma UpsertEffect<T>(docs: seq<T>, keyOf: T -> Option<int>, d: T, other: Option<int>)
    requires Keyed(docs, keyOf) && keyOf(d).Some?
    ensures Keyed(Upsert(docs, keyOf, d), keyOf)
    ensures Keys(Upsert(docs, keyOf, d), keyOf) == Keys(docs, keyOf) + {keyOf(d)}
    ensures Lookup(Upsert(docs, keyOf, d), keyOf, keyOf(d)) == Some(d)
    ensures other != keyOf(d) ==> Lookup(Upsert(docs, keyOf, d), keyOf, other) == Lookup(docs, keyOf, other)
  {
    var after := Upsert(docs, keyOf, d);
    var k := keyOf(d);
    match Find(docs, keyOf, k)
    case Some(i) =>
      assert forall j :: 0 <= j < |after| ==> keyOf(after[j]) == keyOf(docs[j]);
      assert Keys(after, keyOf) == Keys(docs, keyOf) by {
        forall x | x in Keys(docs, keyOf) ensures x in Keys(after, keyOf) {
          var j :| 0 <= j < |docs| && keyOf(docs[j]) == x;
          assert keyOf(after[j]) == x;
        }
      }
      LookupIffStored(docs, keyOf, k);
      UniqueIndex(after, keyOf, k, i);
      if other != k {
        match Find(docs, keyOf, other)
        case None =>
        case Some(j) => UniqueIndex(after, keyOf, other, j);
      }
    case None =>
      assert Keys(after, keyOf) == Keys(docs, keyOf) + {k} by {
        assert keyOf(after[|docs|]) == k;
        forall x | x in Keys(docs, keyOf) ensures x in Keys(after, keyOf) {
          var j :| 0 <= j < |docs| && keyOf(docs[j]) == x;
          assert keyOf(after[j]) == x;
        }
      }
      UniqueIndex(after, keyOf, k, |docs|);
      if other != k {
        match Find(docs, keyOf, other)
        case None =>
        case Some(j) => UniqueIndex(after, keyOf, other, j);
      }
  }

  /** In a keyed store the document at index i is the one found for its key. */
  lemma UniqueIndex<T>(docs: seq<T>, keyOf: T -> Option<int>, id: Option<int>, i: nat)
    requires Keyed(docs, keyOf) && i < |docs| && keyOf(docs[i]) == id
    ensures Find(docs, keyOf, id) == Some(i)
  {
  }

  class KeyedStore<T> {
    /** The @Id field of a document. */
    const keyOf: T -> Option<int>
    /** False models a store that throws on every call. */
    const reachable: bool
    /** The documents, in the order findAll returns them. */
    var docs: seq<T>

    ghost predicate Valid()
      reads this
    {
      Keyed(docs, keyOf)
    }

    constructor (keyOf: T -> Option<int>, reachable: bool)
      ensures Valid() && docs == [] && this.reachable == reachable
      ensures forall d :: this.keyOf(d) == keyOf(d)
    {
      this.keyOf := keyOf;
      this.reachable := reachable;
      docs := [];
    }

    /** The position of the document stored under `id`, if any. */
    method IndexOf(id: Option<int>) returns (r: Option<nat>)
      ensures r == Find(docs, keyOf, id)
    {
      var i := 0;
      while i < |docs|
        invariant 0 <= i <= |docs|
        invariant forall j :: 0 <= j < i ==> keyOf(docs[j]) != id
      {
        if keyOf(docs[i]) == id {
          return Some(i);
        }
        i := i + 1;
      }
      r := None;
    }

    /** `findByCustomerId` / `findByAccountId` on the @Id field. */
    method FindByKey(id: Option<int>) returns (r: Fallible<Option<T>>)
      ensures !reachable ==> r == Failed
      ensures reachable ==> r == Done(Lookup(docs, keyOf, id))
    {
      if !reachable {
        return Failed;
      }
      var i := IndexOf(id);
      match i
      case None => r := Done(None);
      case Some(k) => r := Done(Some(docs[k]));
    }

    /** `save(d)`: upsert by key; returns the saved document. */
    method Save(d: T) returns (r: Fallible<T>)
      requires Valid()
      modifies this`docs
      ensures Valid()
      ensures !reachable || keyOf(d).None? ==> r == Failed && docs == old(docs)
      ensures reachable && keyOf(d).Some? ==> r == Done(d) && docs == Upsert(old(docs), keyOf, d)
    {
      if !reachable || keyOf(d).None? {
        return Failed;
      }
      UpsertEffect(docs, keyOf, d, keyOf(d));
      var i := IndexOf(keyOf(d));
      match i {
        case None => docs := docs + [d];
        case Some(k) => docs := docs[k := d];
      }
      r := Done(d);
    }

    /** `findAll()`: every document, in store order. */
    method FindAll() returns (r: Fallible<seq<T>>)
      ensures r == if reachable then Done(docs) else Failed
    {
      if !reachable {
        return Failed;
      }
      r := Done(docs);
    }
  }
}
