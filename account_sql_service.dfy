/** The account-sql AccountServiceImpl: create an account for an active
    customer, list all accounts, list the accounts of one customer. */
module AccountSqlService {
  import opened Common
  import opened AccountSqlModel
  import opened AccountSqlStore
  import KeyedStores

  class AccountServiceImpl {
    const accountRepo: AccountRepo

    ghost predicate Valid()
      reads this, accountRepo
    {
      accountRepo.Valid()
    }

    constructor (accountRepo: AccountRepo)
      requires accountRepo.Valid()
      ensures Valid() && this.accountRepo == accountRepo
    {
      this.accountRepo := accountRepo;
    }

    /** `createAccount(account)`: an inactive customer is refused with
        CustomerNotActive and nothing is stored; otherwise the account is
        stamped with `now`, saved, and its DTO returned with 201. Balance, name
        and type are not checked here. A null active flag (unboxing throws) or
        a failing store gives 500 with no body. */
    method CreateAccount(account: Account, now: Date) returns (r: Outcome<AccountDTO, AccountError>)
      requires Valid()
      modifies accountRepo
      ensures Valid()
      ensures account.isCustomerActive.None? ==> r == Response(INTERNAL_SERVER_ERROR, None) && unchanged(accountRepo)
      ensures account.isCustomerActive == Some(false) ==>
        r == Raise(CustomerNotActive, NOT_ACTIVE_MESSAGE) && unchanged(accountRepo)
      ensures account.isCustomerActive == Some(true) && !accountRepo.reachable ==>
        r == Response(INTERNAL_SERVER_ERROR, None) && unchanged(accountRepo)
      ensures account.isCustomerActive == Some(true) && accountRepo.reachable ==>
        var saved := SavedRecord(old(accountRepo.rows), old(accountRepo.nextNumber), account.(creationDate := Some(now)));
        && r == Response(CREATED, Some(ToDTO(saved)))
        && accountRepo.rows == KeyedStores.Upsert(old(accountRepo.rows), Number, saved)
        && accountRepo.nextNumber ==
             if Merges(old(accountRepo.rows), account.(creationDate := Some(now))) then old(accountRepo.nextNumber)
             else old(accountRepo.nextNumber) + 1
    {
      if account.isCustomerActive.None? {
        return Response(INTERNAL_SERVER_ERROR, None);
      }
      if !account.isCustomerActive.value {
        return Raise(CustomerNotActive, NOT_ACTIVE_MESSAGE);
      }
      var stamped := account.(creationDate := Some(now));
      var saved := accountRepo.Save(stamped);
      match saved {
        case Failed => r := Response(INTERNAL_SERVER_ERROR, None);
        case Done(a) => r := Response(CREATED, Some(ToDTO(a)));
      }
    }

    /** `getAllAccounts()`: 204 with no body on an empty store, otherwise 200
        with the DTO of every stored account in store order; 500 when the
        store fails. */
    method GetAllAccounts() returns (r: Outcome<seq<AccountDTO>, AccountError>)
      ensures !accountRepo.reachable ==> r == Response(INTERNAL_SERVER_ERROR, None)
      ensures accountRepo.reachable && accountRepo.rows == [] ==> r == Response(NO_CONTENT, None)
      ensures accountRepo.reachable && accountRepo.rows != [] ==>
        r.Response? && r.status == OK && r.body.Some? && MirrorsAll(r.body.value, accountRepo.rows)
    {
      var all := accountRepo.FindAll();
      if all.Failed? {
        return Response(INTERNAL_SERVER_ERROR, None);
      }
      var dtos := ToDTOs(all.value);
      if dtos == [] {
        return Response(NO_CONTENT, None);
      }
      r := Response(OK, Some(dtos));
    }

    /** `getAccountsById(id)`: the DTOs of exactly the accounts whose
        accountId is id, in store order, with 200; AccountNotFound when there
        are none; 500 when the store fails. */
    method GetAccountsById(id: Option<int>) returns (r: Outcome<seq<AccountDTO>, AccountError>)
      ensures !accountRepo.reachable ==> r == Response(INTERNAL_SERVER_ERROR, None)
      ensures accountRepo.reachable && WithAccountId(accountRepo.rows, id) == [] ==>
        r == Raise(AccountNotFound, NotFoundMessage(id))
      ensures accountRepo.reachable && WithAccountId(accountRepo.rows, id) != [] ==>
        r.Response? && r.status == OK && r.body.Some? && MirrorsAll(r.body.value, WithAccountId(accountRepo.rows, id))
    {
      var found := accountRepo.FindAllByAccountId(id);
      if found.Failed? {
        return Response(INTERNAL_SERVER_ERROR, None);
      }
      var dtos := ToDTOs(found.value);
      if dtos == [] {
        return Raise(AccountNotFound, NotFoundMessage(id));
      }
      r := Response(OK, Some(dtos));
    }
  }

  /** The loop shared by both listings: one DTO per account, appended in order. */
  method ToDTOs(accounts: seq<Account>) returns (dtos: seq<AccountDTO>)
    ensures MirrorsAll(dtos, accounts)
  {
    dtos := [];
    for i := 0 to |accounts|
      invariant MirrorsAll(dtos, accounts[..i])
    {
      dtos := dtos + [ToDTO(accounts[i])];
    }
  }
}
