/** The customer service's declarative client for the Account service
    (customer-mongo AccountFeign). The remote service is an oracle: each
    answer is fixed by the request, and a ghost log records the calls made. */
module AccountFeignClient {
  import opened Common
  import opened CustomerMongoModel

  datatype Call = CreateAccountCall(account: Account) | GetAccountsByIdCall(id: Option<int>)

  class AccountFeign {
    /** The answer to `POST /account/create`, after any retries. */
    const createAnswer: Account -> Remote<Account>
    /** The answer to `GET /account/accounts/{id}`, after any retries. */
    const accountsAnswer: Option<int> -> Remote<seq<Account>>
    /** Every call made, oldest first. */
    ghost var calls: seq<Call>

    constructor (createAnswer: Account -> Remote<Account>, accountsAnswer: Option<int> -> Remote<seq<Account>>)
      ensures calls == []
      ensures forall a :: this.createAnswer(a) == createAnswer(a)
      ensures forall id :: this.accountsAnswer(id) == accountsAnswer(id)
    {
      this.createAnswer := createAnswer;
      this.accountsAnswer := accountsAnswer;
      calls := [];
    }

    method CreateAccount(account: Account) returns (r: Remote<Account>)
      modifies this`calls
      ensures r == createAnswer(account)
      ensures calls == old(calls) + [CreateAccountCall(account)]
    {
      calls := calls + [CreateAccountCall(account)];
      r := createAnswer(account);
    }

    method GetAccountsById(id: Option<int>) returns (r: Remote<seq<Account>>)
      modifies this`calls
      ensures r == accountsAnswer(id)
      ensures calls == old(calls) + [GetAccountsByIdCall(id)]
    {
      calls := calls + [GetAccountsByIdCall(id)];
      r := accountsAnswer(id);
    }
  }
}
