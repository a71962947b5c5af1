/** The customer-mongo CustomerServiceImpl: create a customer together with a
    cash account at the Account service, list customers, and look a customer
    up together with its accounts. */
module CustomerMongoService {
  import opened Common
  import opened CustomerMongoModel
  import opened KeyedStores
  import opened AccountFeignClient

  /** "customer not found for the id - " + id */
  function ServiceNotFoundMessage(id: Option<int>): string
  {
    "customer not found for the id - " + IdText(id)
  }

  class CustomerServiceImpl {
    const customerRepo: KeyedStore<Customer>
    const accountFeign: AccountFeign

    ghost predicate Valid()
      reads this, customerRepo
    {
      customerRepo.Valid() && forall c :: customerRepo.keyOf(c) == CustomerKey(c)
    }

    constructor (customerRepo: KeyedStore<Customer>, accountFeign: AccountFeign)
      requires customerRepo.Valid() && forall c :: customerRepo.keyOf(c) == CustomerKey(c)
      ensures Valid() && this.customerRepo == customerRepo && this.accountFeign == accountFeign
    {
      this.customerRepo := customerRepo;
      this.accountFeign := accountFeign;
    }

    /** `createCustomer(customer)`. An id already stored is refused with
        CustomerAlreadyExists before the active flag is looked at; an inactive
        new customer is refused with CustomerNotActive; in both cases nothing
        is stored and the Account service is not called. Otherwise the
        customer is stored as INDIVIDUAL dated `now` and a cash account is
        requested (dated `accountNow`); 201 with both when the Account service
        answers, 500 when it fails, and the customer then stays stored. */
    method CreateCustomer(customer: Customer, now: Date, accountNow: Date)
      returns (r: Outcome<CustomerAccountResponse<CustomerDTO>, CustomerError>)
      requires Valid()
      modifies customerRepo, accountFeign
      ensures Valid()
      ensures !customerRepo.reachable ==>
        r == Response(INTERNAL_SERVER_ERROR, None) && unchanged(customerRepo, accountFeign)
      ensures customerRepo.reachable && Lookup(old(customerRepo.docs), CustomerKey, customer.customerId).Some? ==>
        r == Raise(CustomerAlreadyExists, ALREADY_EXISTS_MESSAGE) && unchanged(customerRepo, accountFeign)
      ensures customerRepo.reachable && Lookup(old(customerRepo.docs), CustomerKey, customer.customerId).None?
              && !customer.isActive ==>
        r == Raise(CustomerNotActive, NOT_ACTIVE_MESSAGE) && unchanged(customerRepo, accountFeign)
      ensures customerRepo.reachable && customer.isActive && customer.customerId.None? ==>
        r == Response(INTERNAL_SERVER_ERROR, None) && unchanged(customerRepo, accountFeign)
      ensures customerRepo.reachable && Lookup(old(customerRepo.docs), CustomerKey, customer.customerId).None?
              && customer.isActive && customer.customerId.Some? ==>
        var stored := customer.(creationDate := Some(now), customerType := Some(INDIVIDUAL));
        var request := CompanionAccount(customer.customerId, customer.customerName, accountNow);
        && customerRepo.docs == old(customerRepo.docs) + [stored]
        && accountFeign.calls == old(accountFeign.calls) + [CreateAccountCall(request)]
        && (accountFeign.createAnswer(request).Ok? ==>
              r == Response(CREATED, Some(CustomerAccountResponse(ToDTO(stored), [accountFeign.createAnswer(request).value]))))
        && (!accountFeign.createAnswer(request).Ok? ==> r == Response(INTERNAL_SERVER_ERROR, None))
    {
      var found := customerRepo.FindByKey(customer.customerId);
      if found.Failed? {
        return Response(INTERNAL_SERVER_ERROR, None);
      }
      if found.value.Some? {
        return Raise(CustomerAlreadyExists, ALREADY_EXISTS_MESSAGE);
      }
      if !customer.isActive {
        return Raise(CustomerNotActive, NOT_ACTIVE_MESSAGE);
      }
      var stored := customer.(creationDate := Some(now), customerType := Some(INDIVIDUAL));
      assert Find(customerRepo.docs, customerRepo.keyOf, stored.customerId) == None;
      var saved := customerRepo.Save(stored);
      if saved.Failed? {
        return Response(INTERNAL_SERVER_ERROR, None);
      }
      var account := CreateAccountForCustomer(stored, accountNow);
      match account {
        case Ok(a) => r := Response(CREATED, Some(CustomerAccountResponse(ToDTO(saved.value), [a])));
        case _ => r := Response(INTERNAL_SERVER_ERROR, None);
      }
    }

    /** `getAllCustomers()`: 204 with no body on an empty store, otherwise 200
        with the DTO of every stored customer in store order. */
    method GetAllCustomers() returns (r: Outcome<seq<CustomerDTO>, CustomerError>)
      ensures !customerRepo.reachable ==> r == Response(INTERNAL_SERVER_ERROR, None)
      ensures customerRepo.reachable && customerRepo.docs == [] ==> r == Response(NO_CONTENT, None)
      ensures customerRepo.reachable && customerRepo.docs != [] ==>
        r.Response? && r.status == OK && r.body.Some? && |r.body.value| == |customerRepo.docs|
        && forall i :: 0 <= i < |customerRepo.docs| ==> r.body.value[i] == ToDTO(customerRepo.docs[i])
    {
      var all := customerRepo.FindAll();
      if all.Failed? {
        return Response(INTERNAL_SERVER_ERROR, None);
      }
      var customers := [];
      for i := 0 to |all.value|
        invariant |customers| == i
        invariant forall k :: 0 <= k < i ==> customers[k] == ToDTO(all.value[k])
      {
        customers := customers + [ToDTO(all.value[i])];
      }
      if customers == [] {
        return Response(NO_CONTENT, None);
      }
      r := Response(OK, Some(customers));
    }

    /** `getCustomerById(id)`: CustomerNotFound for an id not stored, without
        calling the Account service; otherwise the customer's accounts are
        fetched: 200 with both, CustomerNotFound when the Account service
        answers 404, 500 on any other failure. */
    method GetCustomerById(id: Option<int>) returns (r: Outcome<CustomerAccountResponse<CustomerDTO>, CustomerError>)
      requires Valid()
      modifies accountFeign
      ensures !customerRepo.reachable ==>
        r == Response(INTERNAL_SERVER_ERROR, None) && accountFeign.calls == old(accountFeign.calls)
      ensures customerRepo.reachable && Lookup(customerRepo.docs, CustomerKey, id).None? ==>
        r == Raise(CustomerNotFound, ServiceNotFoundMessage(id)) && accountFeign.calls == old(accountFeign.calls)
      ensures customerRepo.reachable && Lookup(customerRepo.docs, CustomerKey, id).Some? ==>
        var c := Lookup(customerRepo.docs, CustomerKey, id).value;
        var answer := accountFeign.accountsAnswer(id);
        && accountFeign.calls == old(accountFeign.calls) + [GetAccountsByIdCall(id)]
        && (answer.Ok? ==> r == Response(OK, Some(CustomerAccountResponse(ToDTO(c), answer.value))))
        && (answer == FeignError(NOT_FOUND) ==> r == Raise(CustomerNotFound, ACCOUNT_NOT_FOUND_MESSAGE))
        && (!answer.Ok? && answer != FeignError(NOT_FOUND) ==> r == Response(INTERNAL_SERVER_ERROR, None))
    {
      var selected := customerRepo.FindByKey(id);
      if selected.Failed? {
        return Response(INTERNAL_SERVER_ERROR, None);
      }
      if selected.value.None? {
        return Raise(CustomerNotFound, ServiceNotFoundMessage(id));
      }
      var accounts := GetAccountsByCustomerId(id);
      match accounts {
        case Value(list) => r := Response(OK, Some(CustomerAccountResponse(ToDTO(selected.value.value), list)));
        case Throw(e, message) => r := Raise(e, message);
        case Unexpected => r := Response(INTERNAL_SERVER_ERROR, None);
      }
    }

    /** `createAccountForCustomer(customer)`: asks the Account service for
        the customer's cash account, dated `date`, and passes its answer on. */
    method CreateAccountForCustomer(customer: Customer, date: Date) returns (r: Remote<Account>)
      modifies accountFeign
      ensures r == accountFeign.createAnswer(CompanionAccount(customer.customerId, customer.customerName, date))
      ensures accountFeign.calls ==
        old(accountFeign.calls) + [CreateAccountCall(CompanionAccount(customer.customerId, customer.customerName, date))]
    {
      r := accountFeign.CreateAccount(CompanionAccount(customer.customerId, customer.customerName, date));
    }

    /** `getAccountsByCustomerId(id)`: the Account service's list; its 404 is
        turned into CustomerNotFound, any other failure is passed on. */
    method GetAccountsByCustomerId(id: Option<int>) returns (r: Try<seq<Account>, CustomerError>)
      modifies accountFeign
      ensures accountFeign.calls == old(accountFeign.calls) + [GetAccountsByIdCall(id)]
      ensures accountFeign.accountsAnswer(id).Ok? ==> r == Value(accountFeign.accountsAnswer(id).value)
      ensures accountFeign.accountsAnswer(id) == FeignError(NOT_FOUND) ==> r == Throw(CustomerNotFound, ACCOUNT_NOT_FOUND_MESSAGE)
      ensures !accountFeign.accountsAnswer(id).Ok? && accountFeign.accountsAnswer(id) != FeignError(NOT_FOUND) ==> r == Unexpected
    {
      var answer := accountFeign.GetAccountsById(id);
      match answer {
        case Ok(list) => r := Value(list);
        case FeignError(status) =>
          if status == NOT_FOUND {
            r := Throw(CustomerNotFound, ACCOUNT_NOT_FOUND_MESSAGE);
          } else {
            r := Unexpected;
          }
        case OtherError => r := Unexpected;
      }
    }
  }
}
