/** The customer-mongo records: the Customer document (keyed by customerId),
    the CustomerDTO with its Bean Validation constraints, the Account record
    the service exchanges with the Account service, and the combined
    customer-with-accounts answer. */
module CustomerMongoModel {
  import opened Common
  import AccountSqlModel

  const CUSTOMER_ID_NULL := "customer id cannot be null"
  const CUSTOMER_NAME_BLANK := "customer name cannot be empty"
  const CUSTOMER_TYPE_NULL := "customer type cannot be null"

  /** The customer service's domain exceptions. */
  datatype CustomerError = CustomerNotFound | CustomerAlreadyExists | CustomerNotActive

  const ALREADY_EXISTS_MESSAGE := "customer already exists with given customer id"
  const NOT_ACTIVE_MESSAGE := "cannot create customer that is not active"
  const ACCOUNT_NOT_FOUND_MESSAGE := "account not found for the customer"

  /** The stored document; it carries no validation constraints. */
  datatype Customer = Customer(
    customerId: Option<int>,
    customerName: Option<string>,
    creationDate: Option<Date>,
    customerType: Option<CustomerType>,
    isActive: bool)

  datatype CustomerDTO = CustomerDTO(
    customerId: Option<int>,
    customerName: Option<string>,
    creationDate: Option<Date>,
    customerType: Option<CustomerType>,
    isActive: bool)

  /** The account as the customer service sees it on the wire (the same
      seven fields as the Account service's record). */
  datatype Account = Account(
    accountId: Option<int>,
    accountNumber: Option<int>,
    accountName: Option<string>,
    creationDate: Option<Date>,
    accountType: Option<AccountType>,
    isCustomerActive: Option<bool>,
    accountBalance: Option<real>)

  /** A customer together with its accounts; the service answers with the
      DTO of the customer, the controller with the document itself. */
  datatype CustomerAccountResponse<C> = CustomerAccountResponse(customer: C, accounts: seq<Account>)

  /** The @Id of the document. */
  function CustomerKey(c: Customer): Option<int>
  {
    c.customerId
  }

  /** `new CustomerDTO(customer)`. */
  function ToDTO(c: Customer): (d: CustomerDTO)
    ensures FromDTO(d) == c
  {
    CustomerDTO(c.customerId, c.customerName, c.creationDate, c.customerType, c.isActive)
  }

  /** `new Customer(customerDTO)`. */
  function FromDTO(d: CustomerDTO): (c: Customer)
    ensures CustomerKey(c) == d.customerId && c.isActive == d.isActive
  {
    Customer(d.customerId, d.customerName, d.creationDate, d.customerType, d.isActive)
  }

  /** The CustomerDTO constraints: id and type not null, name not blank;
      isActive is a primitive and cannot be missing. */
  predicate CustomerDTOValid(d: CustomerDTO)
  {
    d.customerId.Some? && NotBlank(d.customerName) && d.customerType.Some?
  }

  /** The violations the validator reports for a CustomerDTO, in declaration order. */
  function CustomerDTOViolations(d: CustomerDTO): seq<FieldError>
  {
    (if d.customerId.None? then [FieldError("customerId", Some(CUSTOMER_ID_NULL))] else [])
    + (if !NotBlank(d.customerName) then [FieldError("customerName", Some(CUSTOMER_NAME_BLANK))] else [])
    + (if d.customerType.None? then [FieldError("customerType", Some(CUSTOMER_TYPE_NULL))] else [])
  }

  /** The account the customer service asks the Account service to open with
      a new customer: same id, the name with "-account-cash" appended, CASH,
      active, balance 5000. */
  function CompanionAccount(customerId: Option<int>, customerName: Option<string>, date: Date): (a: Account)
    ensures a.accountId == customerId && a.accountNumber.None? && a.creationDate == Some(date)
    ensures a.accountName.Some? && |a.accountName.value| == |StrText(customerName)| + 13
    ensures a.accountName.value[..|StrText(customerName)|] == StrText(customerName)
    ensures a.accountType == Some(CASH) && a.isCustomerActive == Some(true) && a.accountBalance == Some(5000.0)
  {
    Account(customerId, None, Some(StrText(customerName) + "-account-cash"), Some(date), Some(CASH), Some(true), Some(5000.0))
  }

  /** The same JSON body read by the Account service as its own Account. */
  function OnAccountService(a: Account): AccountSqlModel.Account
  {
    AccountSqlModel.Account(a.accountId, a.accountNumber, a.accountName, a.creationDate, a.accountType, a.isCustomerActive, a.accountBalance)
  }

  /** Round trip: a customer converted to a DTO and back is unchanged. */
  lemma CustomerRoundTrip(c: Customer)
    ensures FromDTO(ToDTO(c)) == c
  {
  }

  /** Round trip: a DTO converted to a customer and back is unchanged. */
  lemma CustomerDTORoundTrip(d: CustomerDTO)
    ensures ToDTO(FromDTO(d)) == d
  {
  }

  /** A DTO is valid exactly when the validator reports nothing, and every
      reported field is one of the three constrained ones. */
  lemma CustomerDTOValidIffNoViolations(d: CustomerDTO)
    ensures CustomerDTOValid(d) <==> CustomerDTOViolations(d) == []
    ensures |CustomerDTOViolations(d)| <= 3
  {
  }

  /** The invalid request of the customer controller's tests (id 40, empty
      name, null type) draws exactly two violations. */
  lemma BlankNameAndNullTypeViolations(d: CustomerDTO)
    requires d == CustomerDTO(Some(40), Some(""), None, None, true)
    ensures CustomerDTOViolations(d) ==
      [FieldError("customerName", Some(CUSTOMER_NAME_BLANK)), FieldError("customerType", Some(CUSTOMER_TYPE_NULL))]
  {
  }

  /** The companion account always passes the Account service's validation
      when the customer has an id, whatever the customer's name. */
  lemma {:induction false} CompanionAccountIsValid(customerId: Option<int>, customerName: Option<string>, date: Date)
    requires customerId.Some?
    ensures AccountSqlModel.AccountValid(OnAccountService(CompanionAccount(customerId, customerName, date)))
  {
    var name := StrText(customerName) + "-account-cash";
    assert name[|StrText(customerName)| + 1] == 'a';
  }
}
