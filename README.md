# CustomerAccount — a verified model of the services' decision logic

This project models the request handling of the CustomerAccount microservices in Dafny:

- **customer-mongo** (the customer service):
  - the retry policy and error decoder of its client for the Account service;
  - `CustomerServiceImpl`, which creates a customer together with a companion cash account, lists customers, and looks a customer up with its accounts;
  - the `CustomerController` variant that does the same work inline;
  - the exception handler that turns domain exceptions and validation failures into `ApiError` bodies;
  - the `Customer` / `CustomerDTO` conversions and the DTO's validation constraints.
- **account-sql** (the account service):
  - `AccountServiceImpl` and `AccountController`: create an account for an active customer, list all accounts, list one customer's accounts;
  - the `Account` entity and the `AccountDTO`, with their constraints;
  - the repository, whose primary key is a generated account number.
- **demo** and **Account**: the two older controllers. They keep their own rules and are modelled separately.

How the model represents the system:

- A nullable Java field is an `Option`.
- Repositories are classes holding a sequence of records, in the order `findAll` returns them.
  - A `reachable` flag stands for a database that throws on every call. This yields the "500 on any other exception" paths.
  - The customer documents and the older services' records are keyed by a caller-assigned `@Id` (`KeyedStores`).
  - account-sql rows are keyed by a generated number. `save` persists when the number is null or unknown and merges otherwise (`AccountSqlStore`).
- The remote Account service (`AccountFeign`) and the demo's `RestTemplate` are oracle classes.
  - Each answer is fixed by the request.
  - A ghost log records the calls made, so "the service was not called" can be stated.
- A handler's result is `Response(status, body)` or `Raise(error, message)`. A `Raise` is an exception that the framework hands to the exception handler.
- Clock readings (`new Date()`, `LocalDateTime.now()`) are parameters.

Where the source files do not agree with each other, the model follows the code that runs:

- The customer-mongo `CustomerController` builds `new Customer(id, name, date, type, active)`. `Customer.java` declares no such constructor. The model treats that call as a record with those five fields.
- `CustomerAccountResponse` declares a `Customer` and `Account`s, but the service fills it with a `CustomerDTO` and `AccountDTO`s. The model makes the response generic in the customer type and uses one account record for both.
- The customer controller tests mock `CustomerService`, so their expectations are stated about the service and the exception handler, not about the inline controller.
- The retry counter is post-incremented on every call, the rethrowing call included, and not only after a wait.

## Model

| member | source | states |
|---|---|---|
| Retryer.CustomerFeignClientRetryer.Default | customer-mongo/src/main/java/com/example/demo/config/CustomerFeignClientRetryer.java:19-21 | a new default retryer waits 10000 ms, allows 6 attempts and starts its counter at 1 with no decision taken |
| Retryer.CustomerFeignClientRetryer.constructor | customer-mongo/src/main/java/com/example/demo/config/CustomerFeignClientRetryer.java:23-27 | the retryer keeps the given interval and maximum and starts its counter at 1 |
| Retryer.CustomerFeignClientRetryer.ContinueOrPropagate | customer-mongo/src/main/java/com/example/demo/config/CustomerFeignClientRetryer.java:31-46 | takes the retryable exception the error decoder produced; rethrows that very exception iff the counter before the call had reached the maximum, and otherwise retries after exactly one wait; the counter goes up by one (as a Java int) on every call, the rethrowing one included; interval and maximum cannot change; the decision log stays equal to the schedule `Outcomes` |
| Retryer.CustomerFeignClientRetryer.Clone | customer-mongo/src/main/java/com/example/demo/config/CustomerFeignClientRetryer.java:48-51 | the clone is a new object with the same interval and maximum and its counter back at 1, whatever the original's counter; the original is not modified |
| Retryer.Incremented | customer-mongo/src/main/java/com/example/demo/config/CustomerFeignClientRetryer.java:34 | `attempt++` adds one below INT_MAX and wraps to INT_MIN at INT_MAX |
| Retryer.OutcomesExtend | customer-mongo/src/main/java/com/example/demo/config/CustomerFeignClientRetryer.java:34-37 | one more call appends the decision taken at the counter reached so far |
| Retryer.OutcomesAt | customer-mongo/src/main/java/com/example/demo/config/CustomerFeignClientRetryer.java:34-37 | call i rethrows exactly when the counter after i increments has reached the maximum |
| Retryer.AttemptAfterWithoutWrap | customer-mongo/src/main/java/com/example/demo/config/CustomerFeignClientRetryer.java:34 | until INT_MAX is passed, n calls add exactly n to the counter |
| Retryer.FreshRetryerSchedule | customer-mongo/src/main/java/com/example/demo/config/CustomerFeignClientRetryer.java:23-37 | a fresh retryer with maximum m retries exactly max(m - 1, 0) times and rethrows on the next call |
| Retryer.DefaultRetryerSchedule | customer-mongo/src/main/java/com/example/demo/config/CustomerFeignClientRetryer.java:19-37 | with the defaults, calls 1 to 5 retry and the 6th rethrows |
| Retryer.CounterWrapsAfterRethrowAtIntMax | customer-mongo/src/main/java/com/example/demo/config/CustomerFeignClientRetryer.java:34-37 | with maximum INT_MAX, the rethrowing call wraps the counter to INT_MIN, so a later call on the same retryer would retry again |
| ErrorDecoder.Decode | customer-mongo/src/main/java/com/example/demo/config/FeignErrorDecoder.java:17-32 | an already retryable default result is returned unchanged; otherwise a 503 becomes a new retryable "503 error" with the request's method and request; otherwise the default result is returned unchanged |
| ErrorDecoder.DecodeRetryableIff | customer-mongo/src/main/java/com/example/demo/config/FeignErrorDecoder.java:19-31 | the result is retryable iff the default decoder's result was retryable or the status is 503 |
| ErrorDecoder.DecodeKeepsStatus | customer-mongo/src/main/java/com/example/demo/config/FeignErrorDecoder.java:25-29 | decoding never changes the status the exception reports |
| AccountSqlModel.NewAccount | account-sql/src/main/java/com/example/demo/model/Account.java:40-48 | the six-argument constructor leaves accountNumber null, and the record it builds breaks exactly the constraints its arguments break |
| AccountSqlModel.AccountValidIffNoViolations | account-sql/src/main/java/com/example/demo/model/Account.java:18-38 | an account is valid (id, type and active flag not null, name not blank, balance null or at least 2000) exactly when the validator reports no violation |
| AccountSqlModel.AccountDTOValidIffNoViolations | account-sql/src/main/java/com/example/demo/model/AccountDTO.java:14-31 | the DTO carries the same constraints: valid exactly when no violation is reported |
| AccountSqlModel.ToDTOCopiesAndKeepsValidity | account-sql/src/main/java/com/example/demo/model/AccountDTO.java:33-41 | the DTO copies all seven fields, and it is valid, with the same violations, exactly when the account is |
| AccountSqlModel.ToDTOInjective | account-sql/src/main/java/com/example/demo/model/AccountDTO.java:33-41 | different accounts give different DTOs |
| AccountSqlModel.AccountNumberUnconstrained | account-sql/src/main/java/com/example/demo/model/AccountDTO.java:17 | changing accountNumber never changes a DTO's validity |
| AccountSqlModel.ConstraintExamples | account-sql/src/main/java/com/example/demo/model/Account.java:25-38 | 1999.99 breaks @Min(2000), 2000 and null pass; empty, all-space and null names are blank and " a " is not, in agreement with their trimmed lengths |
| Common.TrimLeft | account-sql/src/main/java/com/example/demo/model/Account.java:25-26 | drops exactly the leading characters up to ' ' (code points at most 32), as `String.trim` does, leaving a suffix that is empty or starts above ' ' |
| Common.TrimRight | account-sql/src/main/java/com/example/demo/model/Account.java:25-26 | drops exactly the trailing characters up to ' ', leaving a prefix that is empty or ends above ' ' |
| Common.NotBlankIffTrimmedNonEmpty | account-sql/src/main/java/com/example/demo/model/Account.java:25-26 | for every string, @NotBlank holds exactly when `trim().length() > 0`, the definition Hibernate Validator's NotBlank uses |
| AccountSqlModel.ToDTO | account-sql/src/main/java/com/example/demo/model/AccountDTO.java:33-41 | the DTO built from an account reports exactly the account's violations |
| AccountSqlStore.WithAccountId | account-sql/src/main/java/com/example/demo/repo/AccountRepo.java:10 | the rows found are no more than the rows stored and all carry the queried accountId |
| AccountSqlStore.WithAccountIdExact | account-sql/src/main/java/com/example/demo/repo/AccountRepo.java:10 | `findAllByAccountId` returns exactly the stored rows with that accountId, never more rows than are stored |
| AccountSqlStore.WithAccountIdAppend | account-sql/src/main/java/com/example/demo/repo/AccountRepo.java:10 | querying a concatenation concatenates the answers, so results keep store order |
| AccountSqlStore.WithAccountIdEmptyIff | account-sql/src/main/java/com/example/demo/repo/AccountRepo.java:10 | the query is empty iff no stored row has that accountId |
| AccountSqlStore.AccountRepo.Save | account-sql/src/main/java/com/example/demo/model/Account.java:21-23 | save merges over the row with the record's number, or inserts the record under the next generated number, which then advances; numbers stay unique and below the next one |
| AccountSqlStore.AccountRepo.FindAll | account-sql/src/main/java/com/example/demo/repo/AccountRepo.java:8 | all rows in store order, or a failure when the database is down |
| AccountSqlStore.AccountRepo.FindAllByAccountId | account-sql/src/main/java/com/example/demo/repo/AccountRepo.java:10 | the loop returns exactly `WithAccountId` of the rows |
| AccountSqlStore.SaveWithoutNumberAppends | account-sql/src/main/java/com/example/demo/model/Account.java:18-23 | saving a record without a number appends one row under a number no row had, so several rows may share one accountId |
| AccountSqlService.AccountServiceImpl.CreateAccount | account-sql/src/main/java/com/example/demo/service/AccountServiceImpl.java:27-48 | an inactive customer raises CustomerNotActive with its message and stores nothing; an active one is stamped with the date, saved, and answered 201 with the DTO of the saved record; the generated number stays on a merge and advances by one on an insert; a null flag or a failing store gives 500 with no body; balance, name and type are not checked |
| AccountSqlService.AccountServiceImpl.GetAllAccounts | account-sql/src/main/java/com/example/demo/service/AccountServiceImpl.java:51-70 | 204 with no body on an empty store; otherwise 200 with one DTO per stored account, in store order; 500 when the store fails |
| AccountSqlService.AccountServiceImpl.GetAccountsById | account-sql/src/main/java/com/example/demo/service/AccountServiceImpl.java:73-94 | 200 with the DTOs of exactly the accounts with that accountId, in store order; AccountNotFound with "no account found for id - " and the id when there are none; 500 when the store fails |
| AccountSqlService.ToDTOs | account-sql/src/main/java/com/example/demo/service/AccountServiceImpl.java:54-57 | the loop yields one DTO per account, in order |
| AccountSqlController.AccountController.CreateAccount | account-sql/src/main/java/com/example/demo/controller/AccountController.java:27-51 | a body that breaks a constraint is rejected with its violations; an inactive customer raises CustomerNotActive; both store nothing; otherwise one row copying id, name, type, flag and balance, with the new date and the next account number, is appended and answered 201 |
| AccountSqlController.AccountController.GetAllAccounts | account-sql/src/main/java/com/example/demo/controller/AccountController.java:54-72 | 204 with no body on an empty store; otherwise 200 with every stored account in store order; 500 when the store fails |
| AccountSqlController.AccountController.GetAccountsById | account-sql/src/main/java/com/example/demo/controller/AccountController.java:75-94 | 200 with exactly the accounts with that accountId; AccountNotFound when there are none; 500 when the store fails |
| CustomerMongoModel.CustomerRoundTrip | customer-mongo/src/main/java/com/example/demo/model/Customer.java:23-29 | a customer converted to its DTO and back is unchanged |
| CustomerMongoModel.CustomerDTORoundTrip | customer-mongo/src/main/java/com/example/demo/model/CustomerDTO.java:26-32 | a DTO converted to a customer and back is unchanged |
| CustomerMongoModel.CustomerDTOValidIffNoViolations | customer-mongo/src/main/java/com/example/demo/model/CustomerDTO.java:13-24 | a DTO is valid (id and type not null, name not blank; isActive unconstrained) exactly when no violation is reported, and at most three are |
| CustomerMongoModel.BlankNameAndNullTypeViolations | customer-mongo/src/test/java/com/example/demo/controller/CustomerControllerTest.java:98-113 | the test's request with an empty name and a null type draws exactly two violations |
| CustomerMongoModel.ToDTO | customer-mongo/src/main/java/com/example/demo/model/CustomerDTO.java:26-32 | converting a customer to its DTO loses nothing: converting back gives the same customer |
| CustomerMongoModel.FromDTO | customer-mongo/src/main/java/com/example/demo/model/Customer.java:23-29 | the customer built from a DTO keeps its key and its active flag |
| CustomerMongoModel.CompanionAccount | customer-mongo/src/main/java/com/example/demo/service/CustomerServiceImpl.java:117-123 | the cash account requested for a customer: its accountId is the customer's id, its number is null, its date is the one given, its name is the customer's name followed by "-account-cash" (13 characters), type CASH, active, balance 5000 |
| CustomerMongoModel.CompanionAccountIsValid | customer-mongo/src/main/java/com/example/demo/service/CustomerServiceImpl.java:117-123 | the companion cash account of a customer with an id passes every constraint of the Account service |
| KeyedStores.Find | customer-mongo/src/main/java/com/example/demo/repo/CustomerRepo.java:9 | the index found holds a document with that key and is the first such; no index means no document has the key |
| KeyedStores.Lookup | customer-mongo/src/main/java/com/example/demo/repo/CustomerRepo.java:9 | a document found is stored and carries the key; nothing found means no stored document carries it |
| KeyedStores.Upsert | customer-mongo/src/main/java/com/example/demo/repo/CustomerRepo.java:8 | the saved document is in the result, which has at most one more document, and every document under another key stays at its place |
| KeyedStores.LookupIffStored | customer-mongo/src/main/java/com/example/demo/repo/CustomerRepo.java:9 | a lookup finds a document exactly when that key is stored, and the document found carries the key |
| KeyedStores.UpsertEffect | customer-mongo/src/main/java/com/example/demo/model/Customer.java:16-17 | saving keeps keys unique and non-null, adds exactly the saved key, makes it find the saved document, and leaves every other key's document as it was |
| KeyedStores.KeyedStore.IndexOf | customer-mongo/src/main/java/com/example/demo/repo/CustomerRepo.java:9 | the loop finds the same index as `Find` |
| KeyedStores.KeyedStore.FindByKey | customer-mongo/src/main/java/com/example/demo/repo/CustomerRepo.java:9 | the stored document under the id, none, or a failure when the store is down |
| KeyedStores.KeyedStore.Save | customer-mongo/src/main/java/com/example/demo/repo/CustomerRepo.java:8 | save upserts by key and returns the saved document; a null key or a store that is down fails and changes nothing |
| KeyedStores.KeyedStore.FindAll | customer-mongo/src/main/java/com/example/demo/repo/CustomerRepo.java:8 | all documents in store order, or a failure |
| AccountFeignClient.AccountFeign.CreateAccount | customer-mongo/src/main/java/com/example/demo/feign/AccountFeign.java:19-20 | the answer is the Account service's answer to that request, and the call is logged |
| AccountFeignClient.AccountFeign.GetAccountsById | customer-mongo/src/main/java/com/example/demo/feign/AccountFeign.java:16-17 | the answer is the Account service's answer for that id, and the call is logged |
| CustomerMongoService.CustomerServiceImpl.CreateCustomer | customer-mongo/src/main/java/com/example/demo/service/CustomerServiceImpl.java:30-65 | an existing id raises CustomerAlreadyExists, even for an inactive customer; a new inactive one raises CustomerNotActive; neither stores anything or calls out; otherwise the customer is stored once as INDIVIDUAL with the date and the companion cash account is requested; 201 with the customer's DTO and the one account, or 500 with the customer still stored (no rollback) |
| CustomerMongoService.CustomerServiceImpl.GetAllCustomers | customer-mongo/src/main/java/com/example/demo/service/CustomerServiceImpl.java:67-87 | 204 with no body on an empty store; otherwise 200 with one DTO per stored customer, in order; 500 when the store fails |
| CustomerMongoService.CustomerServiceImpl.GetCustomerById | customer-mongo/src/main/java/com/example/demo/service/CustomerServiceImpl.java:89-115 | an unknown id raises CustomerNotFound ("customer not found for the id - " and the id) without calling the Account service; otherwise one call: 200 with the DTO and the accounts, CustomerNotFound on a remote 404, 500 on any other failure |
| CustomerMongoService.CustomerServiceImpl.CreateAccountForCustomer | customer-mongo/src/main/java/com/example/demo/service/CustomerServiceImpl.java:117-132 | requests exactly the companion account (the customer's id, name + "-account-cash", CASH, active, 5000) and passes the answer on |
| CustomerMongoService.CustomerServiceImpl.GetAccountsByCustomerId | customer-mongo/src/main/java/com/example/demo/service/CustomerServiceImpl.java:134-146 | the remote list, CustomerNotFound ("account not found for the customer") on a remote 404, any other failure passed on |
| CustomerMongoController.CustomerController.CreateCustomer | customer-mongo/src/main/java/com/example/demo/controller/CustomerController.java:30-80 | same decisions as the service; the stored record is (id, name, date, INDIVIDUAL, active), the cash account carries the same date, and 201 answers with the stored record itself; an account failure gives 500 with the customer kept |
| CustomerMongoController.CustomerController.GetAllCustomers | customer-mongo/src/main/java/com/example/demo/controller/CustomerController.java:82-100 | 204 on an empty store; otherwise 200 with every stored customer in order; 500 when the store fails |
| CustomerMongoController.CustomerController.GetCustomerById | customer-mongo/src/main/java/com/example/demo/controller/CustomerController.java:102-138 | the Account service is called before the presence check; a remote 404 raises CustomerNotFound even for a stored customer; a successful call with an unknown id raises CustomerNotFound ("customer not found for the id " and the id); other failures give 500 |
| ExceptionHandler.Description | customer-mongo/src/main/java/com/example/demo/exception/CustomerServiceExceptionHandler.java:29 | `getDescription(false)` is "uri=" followed by the request URI |
| ExceptionHandler.Handle | customer-mongo/src/main/java/com/example/demo/exception/CustomerServiceExceptionHandler.java:23-54 | the shared body of the three domain handlers: a status among 404, 208 and 417, repeated in the ApiError, the exception's message as message and only error, the request description as path, the clock reading as timestamp, no headers |
| ExceptionHandler.CustomerNotFoundHandler | customer-mongo/src/main/java/com/example/demo/exception/CustomerServiceExceptionHandler.java:23-32 | answers 404 with an ApiError of status 404 whose message is the exception's message and whose only error is that message |
| ExceptionHandler.CustomerAlreadyExistsHandler | customer-mongo/src/main/java/com/example/demo/exception/CustomerServiceExceptionHandler.java:34-43 | answers 208 with the same body shape |
| ExceptionHandler.CustomerNotActiveHandler | customer-mongo/src/main/java/com/example/demo/exception/CustomerServiceExceptionHandler.java:45-54 | answers 417 with the same body shape |
| ExceptionHandler.HandleAnswersWithItsStatus | customer-mongo/src/main/java/com/example/demo/exception/CustomerServiceExceptionHandler.java:23-54 | every domain exception is answered with the status of its handler, which the ApiError repeats, with the message as the only error; different exceptions get different client-side statuses |
| ExceptionHandler.FieldErrorText | customer-mongo/src/main/java/com/example/demo/exception/CustomerServiceExceptionHandler.java:62 | the text is the field name, then " : ", then the default message (or "null" when there is none) |
| ExceptionHandler.ValidationErrors | customer-mongo/src/main/java/com/example/demo/exception/CustomerServiceExceptionHandler.java:60-63 | exactly one text per field error, in order |
| ExceptionHandler.HandleMethodArgumentNotValid | customer-mongo/src/main/java/com/example/demo/exception/CustomerServiceExceptionHandler.java:56-71 | answers 400 with an ApiError of status 400, no message, the incoming headers, and the loop's texts equal to `ValidationErrors` of the field errors |
| ExceptionHandler.CustomerValidationErrorsIff | customer-mongo/src/main/java/com/example/demo/exception/CustomerServiceExceptionHandler.java:56-71 | a CustomerDTO request draws validation errors exactly when it is invalid, at most three |
| ExceptionHandler.InvalidFieldsRequestErrors | customer-mongo/src/test/java/com/example/demo/controller/CustomerControllerTest.java:98-113 | the test's invalid request is answered with exactly the two texts for the name and the type |
| DemoCustomer.RemoteSaysExists | demo/src/main/java/com/example/demo/controller/CustomerController.java:33-47 | the remote lookup marks the customer as existing iff it answered 200; a 404 or any other client error does not |
| DemoCustomer.RestTemplate.Get | demo/src/main/java/com/example/demo/controller/CustomerController.java:34-38 | the answer is the account service's answer for that URL, and the call is logged |
| DemoCustomer.CustomerController.CreateCustomer | demo/src/main/java/com/example/demo/controller/CustomerController.java:26-62 | 201 iff the store works, the id is new locally, and the remote lookup did not fail and did not answer 200; the saved (id, name, date, active) customer is then appended and found by its id; 208 with no body iff the id is known locally or remotely; a local hit skips the remote call; nothing is saved unless 201; no active check; otherwise 500 |
| DemoCustomer.CustomerController.GetAllCustomers | demo/src/main/java/com/example/demo/controller/CustomerController.java:64-78 | 204 on an empty store; otherwise 200 with every stored customer; 500 when the store fails |
| DemoCustomer.CustomerController.GetCustomerById | demo/src/main/java/com/example/demo/controller/CustomerController.java:80-88 | 200 with a stored customer carrying that id iff the id is stored, else 404 with no body; a failing store is not caught |
| LegacyAccount.AccountController.CreateAccount | Account/src/main/java/com/example/demo/controller/AccountController.java:21-31 | saves (id, name, date, balance) with no validation or active check and answers 201 with it; an existing id is overwritten, other ids keep their accounts; a null id or a failing store gives 500 and changes nothing |
| LegacyAccount.AccountController.GetAllAccounts | Account/src/main/java/com/example/demo/controller/AccountController.java:33-47 | 204 on an empty store; otherwise 200 with every stored account; 500 when the store fails |
| LegacyAccount.AccountController.GetAccountById | Account/src/main/java/com/example/demo/controller/AccountController.java:49-57 | 200 with the stored account carrying that id iff the id is stored, else 404 with no body; a failing store is not caught |

## Left out

- Waiting: `Thread.sleep`, the interrupted-wait path (sleep again, restore the interrupt flag) and the exception a negative interval would cause are not modelled. Each wait is a ghost count.
- Feign's own retry loop, which calls the client again until the retryer rethrows, is library code and not part of this model. The client's answers are taken as final, after any retries.
- The Hystrix fallback factory (which returns null), Spring wiring and configuration, the gateway route table, logging and the logging aspect are not modelled. A null body from the remote service is not distinguished from a list.
- Floating point: balances are reals. `@Min(2000)` is compared exactly.
- The Bean Validation engine and JSON binding: only the constraint predicates are modelled, with violations in field declaration order, which Bean Validation does not guarantee.
- JPA's own validation of entities before insert is not modelled, so `AccountSqlService.AccountServiceImpl.CreateAccount` stores an account breaking a constraint as the service code itself would.
- `findAll` and the derived queries return records in insertion order. The databases promise no order.
- customer-mongo `CreateCustomer` updates the request object in place before saving it. The model saves an updated copy, because the caller does not use the object afterwards.
- AccountSqlController.AccountController.CreateAccount: the message of the framework's validation exception is not modelled (left empty). The account service's own exception handler is not part of this model.
- customer-mongo's `AccountDTO.java` is not part of this model. The account the customer service exchanges is modelled with the same seven fields as the Account service's record.
- Concurrency: each operation runs alone. Two concurrent creates of the same id are not modelled.
