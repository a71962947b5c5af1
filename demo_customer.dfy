/** The demo service's CustomerController: customers in a document store,
    and a customer counts as existing when it is stored locally or when the
    account service answers 200 for the accounts under its id. */
module DemoCustomer {
  import opened Common
  import opened KeyedStores

  /** The demo Customer document, keyed by customerId; it has no type. */
  datatype Customer = Customer(
    customerId: Option<int>,
    customerName: Option<string>,
    creationDate: Option<Date>,
    isActive: bool)

  function CustomerKey(c: Customer): Option<int>
  {
    c.customerId
  }

  /** The URL of the account lookup: the id is appended as Java prints it. */
  function AccountsUrl(id: Option<int>): string
  {
    "http://account-sql/account/accounts/" + IdText(id)
  }

  /** What `restTemplate.exchange` does: answer with a status (RestTemplate
      answers this way for statuses below 400), throw an
      HttpClientErrorException carrying a 4xx status, or throw anything else
      (a 5xx, an unreachable host). */
  datatype Exchange = Answered(status: int) | ClientError(status: int) | OtherFailure

  /** The RestTemplate, as an oracle answering by URL. */
  class RestTemplate {
    const answer: string -> Exchange
    /** The URLs requested, oldest first. */
    ghost var calls: seq<string>

    constructor (answer: string -> Exchange)
      ensures calls == [] && forall url :: this.answer(url) == answer(url)
    {
      this.answer := answer;
      calls := [];
    }

    /** `exchange(url, GET, ...)`. */
    method Get(url: string) returns (r: Exchange)
      modifies this`calls
      ensures r == answer(url) && calls == old(calls) + [url]
    {
      calls := calls + [url];
      r := answer(url);
    }
  }

  /** The remote verdict on whether a customer exists: only a 200 answer says
      it does; every client error, a 404 or not, says it does not. */
  function RemoteSaysExists(e: Exchange): (exists_: bool)
    requires !e.OtherFailure?
    ensures exists_ <==> e == Answered(OK)
  {
    match e
    case Answered(status) => status == OK
    case ClientError(_) => false
  }

  /** The exception getCustomerById lets through when the store throws. */
  datatype Uncaught = RepositoryFailure

  class CustomerController {
    const customerRepo: KeyedStore<Customer>
    const restTemplate: RestTemplate

    ghost predicate Valid()
      reads this, customerRepo
    {
      customerRepo.Valid() && forall c :: customerRepo.keyOf(c) == CustomerKey(c)
    }

    constructor (customerRepo: KeyedStore<Customer>, restTemplate: RestTemplate)
      requires customerRepo.Valid() && forall c :: customerRepo.keyOf(c) == CustomerKey(c)
      ensures Valid() && this.customerRepo == customerRepo && this.restTemplate == restTemplate
    {
      this.customerRepo := customerRepo;
      this.restTemplate := restTemplate;
    }

    /** `POST /customer/create`. A customer stored locally is 208 without a
        remote call; otherwise the account service is asked, and a 200 there
        is 208 too. Only when neither knows the customer is it stored, dated
        `now`, and returned with 201; the active flag is not checked. Any
        failure of the store or of the remote call other than a client
        error is 500. */
    method CreateCustomer(customer: Customer, now: Date) returns (r: Outcome<Customer, Uncaught>)
      requires Valid()
      modifies customerRepo, restTemplate
      ensures Valid()
      ensures r.Response?
      ensures r.status == CREATED <==>
        && customerRepo.reachable && customer.customerId.Some?
        && Lookup(old(customerRepo.docs), CustomerKey, customer.customerId).None?
        && !old(restTemplate.answer(AccountsUrl(customer.customerId))).OtherFailure?
        && !RemoteSaysExists(old(restTemplate.answer(AccountsUrl(customer.customerId))))
      ensures r.status == CREATED ==>
        var saved := Customer(customer.customerId, customer.customerName, Some(now), customer.isActive);
        && r.body == Some(saved)
        && customerRepo.docs == old(customerRepo.docs) + [saved]
        && Lookup(customerRepo.docs, CustomerKey, customer.customerId) == Some(saved)
      ensures r.status != CREATED ==> customerRepo.docs == old(customerRepo.docs) && r.body == None
      ensures r.status in {CREATED, ALREADY_REPORTED, INTERNAL_SERVER_ERROR}
      ensures r.status == ALREADY_REPORTED <==>
        && customerRepo.reachable
        && (|| Lookup(old(customerRepo.docs), CustomerKey, customer.customerId).Some?
            || old(restTemplate.answer(AccountsUrl(customer.customerId))) == Answered(OK))
      ensures customerRepo.reachable && Lookup(old(customerRepo.docs), CustomerKey, customer.customerId).None? ==>
        restTemplate.calls == old(restTemplate.calls) + [AccountsUrl(customer.customerId)]
      ensures !customerRepo.reachable || Lookup(old(customerRepo.docs), CustomerKey, customer.customerId).Some? ==>
        restTemplate.calls == old(restTemplate.calls)
    {
      var found := customerRepo.FindByKey(customer.customerId);
      if found.Failed? {
        return Response(INTERNAL_SERVER_ERROR, None);
      }
      var customerExists := found.value.Some?;
      if !customerExists {
        var response := restTemplate.Get(AccountsUrl(customer.customerId));
        match response {
          case Answered(status) =>
            if status == OK {
              customerExists := true;
            }
          case ClientError(status) =>
            if status == NOT_FOUND {
              customerExists := false;
            }
          case OtherFailure =>
            return Response(INTERNAL_SERVER_ERROR, None);
        }
      }
      if !customerExists {
        var saved := customerRepo.Save(Customer(customer.customerId, customer.customerName, Some(now), customer.isActive));
        if saved.Failed? {
          return Response(INTERNAL_SERVER_ERROR, None);
        }
        UpsertEffect(old(customerRepo.docs), customerRepo.keyOf, saved.value, customer.customerId);
        r := Response(CREATED, Some(saved.value));
      } else {
        r := Response(ALREADY_REPORTED, None);
      }
    }

    /** `GET /customer/customers`: every stored customer, in store order; 204
        with no body when there is none. */
    method GetAllCustomers() returns (r: Outcome<seq<Customer>, Uncaught>)
      ensures !customerRepo.reachable ==> r == Response(INTERNAL_SERVER_ERROR, None)
      ensures customerRepo.reachable && customerRepo.docs == [] ==> r == Response(NO_CONTENT, None)
      ensures customerRepo.reachable && customerRepo.docs != [] ==> r == Response(OK, Some(customerRepo.docs))
    {
      var all := customerRepo.FindAll();
      if all.Failed? {
        return Response(INTERNAL_SERVER_ERROR, None);
      }
      var customers := [];
      for i := 0 to |all.value|
        invariant customers == all.value[..i]
      {
        customers := customers + [all.value[i]];
      }
      assert all.value[..|all.value|] == all.value;
      if customers == [] {
        return Response(NO_CONTENT, None);
      }
      r := Response(OK, Some(customers));
    }

    /** `GET /customer/customers/{id}`: 200 with the stored customer, 404
        with no body; a failing store is not caught. */
    method GetCustomerById(id: Option<int>) returns (r: Outcome<Customer, Uncaught>)
      requires Valid()
      ensures !customerRepo.reachable ==> r.Raise?
      ensures customerRepo.reachable ==>
        r.Response? && (r.status == OK <==> id in Keys(customerRepo.docs, CustomerKey))
      ensures customerRepo.reachable && r.status == OK ==>
        r.body.Some? && r.body.value.customerId == id && r.body.value in customerRepo.docs
      ensures customerRepo.reachable && r.status != OK ==> r == Response(NOT_FOUND, None)
    {
      var selected := customerRepo.FindByKey(id);
      if selected.Failed? {
        return Raise(RepositoryFailure, "");
      }
      LookupIffStored(customerRepo.docs, CustomerKey, id);
      if selected.value.Some? {
        r := Response(OK, Some(selected.value.value));
      } else {
        r := Response(NOT_FOUND, None);
      }
    }
  }
}
