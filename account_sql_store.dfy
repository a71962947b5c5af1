/** The account-sql AccountRepo: rows keyed by a generated accountNumber,
    queried by the owning customer's accountId. */
module AccountSqlStore {
  import opened Common
  import opened AccountSqlModel
  import KeyedStores

  /** The primary key of a row. */
  function Number(a: Account): Option<int>
  {
    a.accountNumber
  }

  /** `findAllByAccountId(id)`: the rows whose accountId equals id (a null
      id matches the rows with a null accountId), in store order. */
  function WithAccountId(rows: seq<Account>, id: Option<int>): (r: seq<Account>)
    ensures |r| <= |rows|
    ensures forall i :: 0 <= i < |r| ==> r[i].accountId == id
    decreases |rows|
  {
    if rows == [] then []
    else (if rows[0].accountId == id then [rows[0]] else []) + WithAccountId(rows[1..], id)
  }

  /** The query returns exactly the stored rows with that accountId. */
  lemma {:induction false} WithAccountIdExact(rows: seq<Account>, id: Option<int>)
    ensures forall a :: a in WithAccountId(rows, id) <==> a in rows && a.accountId == id
    ensures |WithAccountId(rows, id)| <= |rows|
    decreases |rows|
  {
    if rows != [] {
      WithAccountIdExact(rows[1..], id);
      assert rows == [rows[0]] + rows[1..];
    }
  }

  /** Querying a concatenation concatenates the answers, so the answer keeps
      the store's order. */
  lemma {:induction false} WithAccountIdAppend(xs: seq<Account>, ys: seq<Account>, id: Option<int>)
    ensures WithAccountId(xs + ys, id) == WithAccountId(xs, id) + WithAccountId(ys, id)
    decreases |xs|
  {
    if xs != [] {
      WithAccountIdAppend(xs[1..], ys, id);
      assert (xs + ys)[1..] == xs[1..] + ys;
    } else {
      assert xs + ys == ys;
    }
  }

  /** The query is empty exactly when no stored account has that id. */
  lemma {:induction false} WithAccountIdEmptyIff(rows: seq<Account>, id: Option<int>)
    ensures WithAccountId(rows, id) == [] <==> forall i :: 0 <= i < |rows| ==> rows[i].accountId != id
  {
    WithAccountIdExact(rows, id);
    if WithAccountId(rows, id) == [] {
      forall i | 0 <= i < |rows| ensures rows[i].accountId != id {
        assert rows[i] in rows;
      }
    } else {
      assert WithAccountId(rows, id)[0] in WithAccountId(rows, id);
    }
  }

  /** The record `save(a)` stores: a itself when its accountNumber names an
      existing row (JPA merges it), otherwise a with the next generated
      number (JPA persists a copy). */
  function SavedRecord(rows: seq<Account>, next: int, a: Account): Account
  {
    if Merges(rows, a) then a else a.(accountNumber := Some(next))
  }

  /** Whether `save(a)` updates an existing row rather than inserting one. */
  predicate Merges(rows: seq<Account>, a: Account)
  {
    a.accountNumber.Some? && KeyedStores.Find(rows, Number, a.accountNumber).Some?
  }

  /** Every row has a number, numbers are unique and below the next one. */
  ghost predicate Numbered(rows: seq<Account>, next: int)
  {
    KeyedStores.Keyed(rows, Number) && forall i :: 0 <= i < |rows| ==> rows[i].accountNumber.value < next
  }

  class AccountRepo {
    /** False models a database that throws on every call. */
    const reachable: bool
    /** The rows, in the order findAll returns them. */
    var rows: seq<Account>
    /** The next value of the key generator. */
    var nextNumber: int

    ghost predicate Valid()
      reads this
    {
      Numbered(rows, nextNumber)
    }

    constructor (reachable: bool)
      ensures Valid() && rows == [] && this.reachable == reachable
    {
      this.reachable := reachable;
      rows := [];
      nextNumber := 1;
    }

    /** `save(a)`: merge over the row with a's number, or insert under a
        fresh number; returns the stored record. */
    method Save(a: Account) returns (r: Fallible<Account>)
      requires Valid()
      modifies this`rows, this`nextNumber
      ensures Valid()
      ensures !reachable ==> r == Failed && rows == old(rows) && nextNumber == old(nextNumber)
      ensures reachable ==> var saved := SavedRecord(old(rows), old(nextNumber), a);
        && r == Done(saved)
        && rows == KeyedStores.Upsert(old(rows), Number, saved)
        && nextNumber == if Merges(old(rows), a) then old(nextNumber) else old(nextNumber) + 1
    {
      if !reachable {
        return Failed;
      }
      var saved := SavedRecord(rows, nextNumber, a);
      var before := rows;
      var merges := Merges(rows, a);
      assert saved.accountNumber.value <= nextNumber by {
        if merges {
          var i := KeyedStores.Find(rows, Number, a.accountNumber).value;
          assert rows[i].accountNumber == a.accountNumber;
        }
      }
      if !merges {
        nextNumber := nextNumber + 1;
      }
      KeyedStores.UpsertEffect(rows, Number, saved, saved.accountNumber);
      rows := KeyedStores.Upsert(rows, Number, saved);
      forall i | 0 <= i < |rows| ensures rows[i].accountNumber.value < nextNumber {
        assert Number(rows[i]) in KeyedStores.Keys(rows, Number);
        if Number(rows[i]) != Number(saved) {
          var j :| 0 <= j < |before| && Number(before[j]) == Number(rows[i]);
          assert before[j].accountNumber.value < old(nextNumber);
        } else if merges {
          assert saved.accountNumber.value < old(nextNumber) by {
            var k := KeyedStores.Find(before, Number, a.accountNumber).value;
            assert before[k].accountNumber == a.accountNumber;
          }
        }
      }
      r := Done(saved);
    }

    /** `findAll()`. */
    method FindAll() returns (r: Fallible<seq<Account>>)
      ensures r == if reachable then Done(rows) else Failed
    {
      if !reachable {
        return Failed;
      }
      r := Done(rows);
    }

    /** `findAllByAccountId(id)`. */
    method FindAllByAccountId(id: Option<int>) returns (r: Fallible<seq<Account>>)
      ensures r == if reachable then Done(WithAccountId(rows, id)) else Failed
    {
      if !reachable {
        return Failed;
      }
      var found := [];
      var i := 0;
      while i < |rows|
        invariant 0 <= i <= |rows|
        invariant found == WithAccountId(rows[..i], id)
      {
        WithAccountIdAppend(rows[..i], [rows[i]], id);
        assert rows[..i + 1] == rows[..i] + [rows[i]];
        if rows[i].accountId == id {
          found := found + [rows[i]];
        }
        i := i + 1;
      }
      assert rows[..i] == rows;
      r := Done(found);
    }
  }

  /** Saving a record without a number (what the services save) never
      overwrites: it appends one row with a number no row had before. */
  lemma SaveWithoutNumberAppends(rows: seq<Account>, next: int, a: Account)
    requires Numbered(rows, next) && a.accountNumber.None?
    ensures KeyedStores.Upsert(rows, Number, SavedRecord(rows, next, a)) == rows + [a.(accountNumber := Some(next))]
    ensures forall i :: 0 <= i < |rows| ==> rows[i].accountNumber != Some(next)
  {
    var saved := a.(accountNumber := Some(next));
    assert KeyedStores.Find(rows, Number, Number(saved)) == None;
  }
}
