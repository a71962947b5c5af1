/** The Account module's AccountController: accounts in a relational table
    keyed by the caller-assigned accountId, with no validation and no
    duplicate check. */
module LegacyAccount {
  import opened Common
  import opened KeyedStores

  /** The Account entity; accountId is the @Id, assigned by the caller. */
  datatype Account = Account(
    accountId: Option<int>,
    accountName: Option<string>,
    creationDate: Option<Date>,
    accountBalance: Option<real>)

  function AccountKey(a: Account): Option<int>
  {
    a.accountId
  }

  /** The exception getAccountById lets through when the store throws. */
  datatype Uncaught = RepositoryFailure

  class AccountController {
    const accountRepo: KeyedStore<Account>

    ghost predicate Valid()
      reads this, accountRepo
    {
      accountRepo.Valid() && forall a :: accountRepo.keyOf(a) == AccountKey(a)
    }

    constructor (accountRepo: KeyedStore<Account>)
      requires accountRepo.Valid() && forall a :: accountRepo.keyOf(a) == AccountKey(a)
      ensures Valid() && this.accountRepo == accountRepo
    {
      this.accountRepo := accountRepo;
    }

    /** `POST /account/create`: stores the request's id, name and balance
        dated `now` and answers 201 with it. An id already present is
        overwritten; a null id cannot be saved and, like a failing store,
        gives 500. */
    method CreateAccount(account: Account, now: Date) returns (r: Outcome<Account, Uncaught>)
      requires Valid()
      modifies accountRepo
      ensures Valid()
      ensures !accountRepo.reachable || account.accountId.None? ==>
        r == Response(INTERNAL_SERVER_ERROR, None) && accountRepo.docs == old(accountRepo.docs)
      ensures accountRepo.reachable && account.accountId.Some? ==>
        var saved := Account(account.accountId, account.accountName, Some(now), account.accountBalance);
        && r == Response(CREATED, Some(saved))
        && accountRepo.docs == Upsert(old(accountRepo.docs), AccountKey, saved)
        && Lookup(accountRepo.docs, AccountKey, account.accountId) == Some(saved)
        && Keys(accountRepo.docs, AccountKey) == Keys(old(accountRepo.docs), AccountKey) + {account.accountId}
        && forall id :: id != account.accountId ==>
             Lookup(accountRepo.docs, AccountKey, id) == Lookup(old(accountRepo.docs), AccountKey, id)
    {
      var saved := accountRepo.Save(Account(account.accountId, account.accountName, Some(now), account.accountBalance));
      if saved.Failed? {
        return Response(INTERNAL_SERVER_ERROR, None);
      }
      forall id | id != account.accountId
        ensures Lookup(accountRepo.docs, AccountKey, id) == Lookup(old(accountRepo.docs), AccountKey, id)
      {
        UpsertEffect(old(accountRepo.docs), AccountKey, saved.value, id);
      }
      UpsertEffect(old(accountRepo.docs), AccountKey, saved.value, account.accountId);
      r := Response(CREATED, Some(saved.value));
    }

    /** `GET /account/accounts`: every stored account, in store order; 204
        with no body when there is none. */
    method GetAllAccounts() returns (r: Outcome<seq<Account>, Uncaught>)
      ensures !accountRepo.reachable ==> r == Response(INTERNAL_SERVER_ERROR, None)
      ensures accountRepo.reachable && accountRepo.docs == [] ==> r == Response(NO_CONTENT, None)
      ensures accountRepo.reachable && accountRepo.docs != [] ==> r == Response(OK, Some(accountRepo.docs))
    {
      var all := accountRepo.FindAll();
      if all.Failed? {
        return Response(INTERNAL_SERVER_ERROR, None);
      }
      var accounts := [];
      for i := 0 to |all.value|
        invariant accounts == all.value[..i]
      {
        accounts := accounts + [all.value[i]];
      }
      assert all.value[..|all.value|] == all.value;
      if accounts == [] {
        return Response(NO_CONTENT, None);
      }
      r := Response(OK, Some(accounts));
    }

    /** `GET /account/accounts/{id}`: 200 with the stored account, 404 with
        no body; a failing store is not caught. */
    method GetAccountById(id: Option<int>) returns (r: Outcome<Account, Uncaught>)
      requires Valid()
      ensures !accountRepo.reachable ==> r.Raise?
      ensures accountRepo.reachable ==>
        r.Response? && (r.status == OK <==> id in Keys(accountRepo.docs, AccountKey))
      ensures accountRepo.reachable && r.status == OK ==>
        r.body.Some? && r.body.value.accountId == id && r.body.value in accountRepo.docs
      ensures accountRepo.reachable && r.status != OK ==> r == Response(NOT_FOUND, None)
    {
      var selected := accountRepo.FindByKey(id);
      if selected.Failed? {
        return Raise(RepositoryFailure, "");
      }
      LookupIffStored(accountRepo.docs, AccountKey, id);
      if selected.value.Some? {
        r := Response(OK, Some(selected.value.value));
      } else {
        r := Response(NOT_FOUND, None);
      }
    }
  }
}
