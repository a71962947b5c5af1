/** The customer-mongo CustomerController, which talks to the repository and
    the Account client itself: it answers with the stored document rather
    than its DTO, dates the companion account with the customer's own
    creation date, and asks for the accounts before checking the customer. */
module CustomerMongoController {
  import opened Common
  import opened CustomerMongoModel
  import opened KeyedStores
  import opened AccountFeignClient

  /** "customer not found for the id " + id (no dash, unlike the service). */
  function ControllerNotFoundMessage(id: Option<int>): string
  {
    "customer not found for the id " + IdText(id)
  }

  class CustomerController {
    const customerRepo: KeyedStore<Customer>
    const accountFeign: AccountFeign

    ghost predicate Valid()
      reads this, customerRepo
    {
      customerRepo.Valid() && forall c :: customerRepo.keyOf(c) == CustomerKey(c)
    }

    constructor (customerRepo: KeyedStore<Customer>, accountFeign: AccountFeign)
      requires customerRepo.Valid() && forall c :: customerRepo.keyOf(c) == CustomerKey(c)
      ensures Valid() && this.customerRepo == customerRepo && this.accountFeign == accountFeign
    {
      this.customerRepo := customerRepo;
      this.accountFeign := accountFeign;
    }

    /** `POST /customer/create`. Same decisions as the service: an existing id
        is CustomerAlreadyExists, an inactive customer CustomerNotActive, both
        without storing or calling out. A new active customer is stored as
        INDIVIDUAL dated `now`, and its cash account is requested with the
        same date; 201 with the stored document and the account, or 500 when
        the Account service fails (the customer stays stored). */
    method CreateCustomer(customer: Customer, now: Date)
      returns (r: Outcome<CustomerAccountResponse<Customer>, CustomerError>)
      requires Valid()
      modifies customerRepo, accountFeign
      ensures Valid()
      ensures !customerRepo.reachable ==>
        r == Response(INTERNAL_SERVER_ERROR, None) && unchanged(customerRepo, accountFeign)
      ensures customerRepo.reachable && Lookup(old(customerRepo.docs), CustomerKey, customer.customerId).Some? ==>
        r == Raise(CustomerAlreadyExists, ALREADY_EXISTS_MESSAGE) && unchanged(customerRepo, accountFeign)
      ensures customerRepo.reachable && Lookup(old(customerRepo.docs), CustomerKey, customer.customerId).None?
              && !customer.isActive ==>
        r == Raise(CustomerNotActive, NOT_ACTIVE_MESSAGE) && unchanged(customerRepo, accountFeign)
      ensures customerRepo.reachable && customer.isActive && customer.customerId.None? ==>
        r == Response(INTERNAL_SERVER_ERROR, None) && unchanged(customerRepo, accountFeign)
      ensures customerRepo.reachable && Lookup(old(customerRepo.docs), CustomerKey, customer.customerId).None?
              && customer.isActive && customer.customerId.Some? ==>
        var saved := Customer(customer.customerId, customer.customerName, Some(now), Some(INDIVIDUAL), customer.isActive);
        var request := CompanionAccount(customer.customerId, customer.customerName, now);
        && customerRepo.docs == old(customerRepo.docs) + [saved]
        && accountFeign.calls == old(accountFeign.calls) + [CreateAccountCall(request)]
        && (accountFeign.createAnswer(request).Ok? ==>
              r == Response(CREATED, Some(CustomerAccountResponse(saved, [accountFeign.createAnswer(request).value]))))
        && (!accountFeign.createAnswer(request).Ok? ==> r == Response(INTERNAL_SERVER_ERROR, None))
    {
      var found := customerRepo.FindByKey(customer.customerId);
      if found.Failed? {
        return Response(INTERNAL_SERVER_ERROR, None);
      }
      if found.value.Some? {
        return Raise(CustomerAlreadyExists, ALREADY_EXISTS_MESSAGE);
      }
      if !customer.isActive {
        return Raise(CustomerNotActive, NOT_ACTIVE_MESSAGE);
      }
      var currentDate := now;
      var saved := customerRepo.Save(Customer(customer.customerId, customer.customerName, Some(currentDate), Some(INDIVIDUAL), customer.isActive));
      if saved.Failed? {
        return Response(INTERNAL_SERVER_ERROR, None);
      }
      var newAccount := accountFeign.CreateAccount(CompanionAccount(customer.customerId, customer.customerName, currentDate));
      match newAccount {
        case Ok(a) => r := Response(CREATED, Some(CustomerAccountResponse(saved.value, [a])));
        case _ => r := Response(INTERNAL_SERVER_ERROR, None);
      }
    }

    /** `GET /customer/customers`: every stored document, in store order;
        204 with no body when there is none. */
    method GetAllCustomers() returns (r: Outcome<seq<Customer>, CustomerError>)
      ensures !customerRepo.reachable ==> r == Response(INTERNAL_SERVER_ERROR, None)
      ensures customerRepo.reachable && customerRepo.docs == [] ==> r == Response(NO_CONTENT, None)
      ensures customerRepo.reachable && customerRepo.docs != [] ==> r == Response(OK, Some(customerRepo.docs))
    {
      var all := customerRepo.FindAll();
      if all.Failed? {
        return Response(INTERNAL_SERVER_ERROR, None);
      }
      var customers := [];
      for i := 0 to |all.value|
        invariant customers == all.value[..i]
      {
        customers := customers + [all.value[i]];
      }
      assert all.value[..|all.value|] == all.value;
      if customers == [] {
        return Response(NO_CONTENT, None);
      }
      r := Response(OK, Some(customers));
    }

    /** `GET /customer/customers/{id}`: the accounts are asked for before the
        customer is checked, so a 404 from the Account service wins over a
        missing customer; 200 with the document and its accounts, 500 on any
        other failure. */
    method GetCustomerById(id: Option<int>) returns (r: Outcome<CustomerAccountResponse<Customer>, CustomerError>)
      requires Valid()
      modifies accountFeign
      ensures !customerRepo.reachable ==>
        r == Response(INTERNAL_SERVER_ERROR, None) && accountFeign.calls == old(accountFeign.calls)
      ensures customerRepo.reachable ==>
        var selected := Lookup(customerRepo.docs, CustomerKey, id);
        var answer := accountFeign.accountsAnswer(id);
        && accountFeign.calls == old(accountFeign.calls) + [GetAccountsByIdCall(id)]
        && (answer.Ok? && selected.Some? ==> r == Response(OK, Some(CustomerAccountResponse(selected.value, answer.value))))
        && (answer.Ok? && selected.None? ==> r == Raise(CustomerNotFound, ControllerNotFoundMessage(id)))
        && (answer == FeignError(NOT_FOUND) ==> r == Raise(CustomerNotFound, ACCOUNT_NOT_FOUND_MESSAGE))
        && (!answer.Ok? && answer != FeignError(NOT_FOUND) ==> r == Response(INTERNAL_SERVER_ERROR, None))
    {
      var selected := customerRepo.FindByKey(id);
      if selected.Failed? {
        return Response(INTERNAL_SERVER_ERROR, None);
      }
      var accountResponse := accountFeign.GetAccountsById(id);
      match accountResponse {
        case Ok(accounts) =>
          if selected.value.Some? {
            r := Response(OK, Some(CustomerAccountResponse(selected.value.value, accounts)));
          } else {
            r := Raise(CustomerNotFound, ControllerNotFoundMessage(id));
          }
        case FeignError(status) =>
          if status == NOT_FOUND {
            r := Raise(CustomerNotFound, ACCOUNT_NOT_FOUND_MESSAGE);
          } else {
            r := Response(INTERNAL_SERVER_ERROR, None);
          }
        case OtherError => r := Response(INTERNAL_SERVER_ERROR, None);
      }
    }
  }
}
