/** The account-sql AccountController, which works on the repository directly
    and answers with the stored entities. */
module AccountSqlController {
  import opened Common
  import opened AccountSqlModel
  import opened AccountSqlStore

  class AccountController {
    const accountRepo: AccountRepo

    ghost predicate Valid()
      reads this, accountRepo
    {
      accountRepo.Valid()
    }

    constructor (accountRepo: AccountRepo)
      requires accountRepo.Valid()
      ensures Valid() && this.accountRepo == accountRepo
    {
      this.accountRepo := accountRepo;
    }

    /** `POST /account/create`: a body that breaks a constraint is rejected
        before the method runs; an inactive customer is refused with
        CustomerNotActive; in both cases nothing is stored. Otherwise a new
        record copying the request's id, name, type, active flag and balance,
        dated `now`, is appended under a fresh account number and returned
        with 201. The rejection's message is the framework's and is not
        modelled (left empty). */
    method CreateAccount(account: Account, now: Date) returns (r: Outcome<Account, AccountError>)
      requires Valid()
      modifies accountRepo
      ensures Valid()
      ensures AccountViolations(account) != [] ==>
        r == Raise(MethodArgumentNotValid(AccountViolations(account)), "") && unchanged(accountRepo)
      ensures AccountValid(account) && account.isCustomerActive == Some(false) ==>
        r == Raise(CustomerNotActive, NOT_ACTIVE_MESSAGE) && unchanged(accountRepo)
      ensures AccountValid(account) && account.isCustomerActive == Some(true) && !accountRepo.reachable ==>
        r == Response(INTERNAL_SERVER_ERROR, None) && unchanged(accountRepo)
      ensures AccountValid(account) && account.isCustomerActive == Some(true) && accountRepo.reachable ==>
        var saved := Account(account.accountId, Some(old(accountRepo.nextNumber)), account.accountName, Some(now),
                             account.accountType, account.isCustomerActive, account.accountBalance);
        && r == Response(CREATED, Some(saved))
        && accountRepo.rows == old(accountRepo.rows) + [saved]
        && accountRepo.nextNumber == old(accountRepo.nextNumber) + 1
    {
      var violations := AccountViolations(account);
      if violations != [] {
        return Raise(MethodArgumentNotValid(violations), "");
      }
      AccountValidIffNoViolations(account);
      if !account.isCustomerActive.value {
        return Raise(CustomerNotActive, NOT_ACTIVE_MESSAGE);
      }
      var record := NewAccount(account.accountId, account.accountName, Some(now),
                               account.accountType, account.isCustomerActive, account.accountBalance);
      SaveWithoutNumberAppends(accountRepo.rows, accountRepo.nextNumber, record);
      var saved := accountRepo.Save(record);
      match saved {
        case Failed => r := Response(INTERNAL_SERVER_ERROR, None);
        case Done(a) => r := Response(CREATED, Some(a));
      }
    }

    /** `GET /account/accounts`: 204 with no body on an empty store,
        otherwise 200 with every stored account in store order. */
    method GetAllAccounts() returns (r: Outcome<seq<Account>, AccountError>)
      ensures !accountRepo.reachable ==> r == Response(INTERNAL_SERVER_ERROR, None)
      ensures accountRepo.reachable && accountRepo.rows == [] ==> r == Response(NO_CONTENT, None)
      ensures accountRepo.reachable && accountRepo.rows != [] ==> r == Response(OK, Some(accountRepo.rows))
    {
      var all := accountRepo.FindAll();
      if all.Failed? {
        return Response(INTERNAL_SERVER_ERROR, None);
      }
      var accounts := [];
      for i := 0 to |all.value|
        invariant accounts == all.value[..i]
      {
        accounts := accounts + [all.value[i]];
      }
      assert all.value[..|all.value|] == all.value;
      if accounts == [] {
        return Response(NO_CONTENT, None);
      }
      r := Response(OK, Some(accounts));
    }

    /** `GET /account/accounts/{id}`: every account whose accountId is id,
        with 200; AccountNotFound when there is none. */
    method GetAccountsById(id: Option<int>) returns (r: Outcome<seq<Account>, AccountError>)
      ensures !accountRepo.reachable ==> r == Response(INTERNAL_SERVER_ERROR, None)
      ensures accountRepo.reachable && WithAccountId(accountRepo.rows, id) == [] ==>
        r == Raise(AccountNotFound, NotFoundMessage(id))
      ensures accountRepo.reachable && WithAccountId(accountRepo.rows, id) != [] ==>
        r == Response(OK, Some(WithAccountId(accountRepo.rows, id)))
    {
      var found := accountRepo.FindAllByAccountId(id);
      if found.Failed? {
        return Response(INTERNAL_SERVER_ERROR, None);
      }
      if found.value == [] {
        return Raise(AccountNotFound, NotFoundMessage(id));
      }
      r := Response(OK, Some(found.value));
    }
  }
}
