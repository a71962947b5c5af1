/** The account-sql records: the Account entity (a row keyed by a generated
    accountNumber, owned by the customer named by accountId) and the
    AccountDTO the service returns, with their Bean Validation constraints. */
module AccountSqlModel {
  import opened Common

  const MIN_BALANCE: real := 2000.0

  const ACCOUNT_ID_NULL := "account id cannot be null"
  const ACCOUNT_NAME_BLANK := "account name cannot be empty"
  const ACCOUNT_TYPE_NULL := "account type cannot be null"
  const ACTIVE_UNKNOWN := "customer active status should be known"
  const BALANCE_TOO_LOW := "must be greater than or equal to 2000"

  /** The account service's domain exceptions, and the framework's
      rejection of a request body that fails its @Valid check (with the
      violations found). */
  datatype AccountError = AccountNotFound | CustomerNotActive | MethodArgumentNotValid(fieldErrors: seq<FieldError>)

  const NOT_ACTIVE_MESSAGE := "customer not active for the account"

  /** "no account found for id - " + id */
  function NotFoundMessage(id: Option<int>): string
  {
    "no account found for id - " + IdText(id)
  }

  datatype Account = Account(
    accountId: Option<int>,
    accountNumber: Option<int>,
    accountName: Option<string>,
    creationDate: Option<Date>,
    accountType: Option<AccountType>,
    isCustomerActive: Option<bool>,
    accountBalance: Option<real>)

  datatype AccountDTO = AccountDTO(
    accountId: Option<int>,
    accountNumber: Option<int>,
    accountName: Option<string>,
    creationDate: Option<Date>,
    accountType: Option<AccountType>,
    isCustomerActive: Option<bool>,
    accountBalance: Option<real>)

  /** @Min(2000): a null balance passes, as Bean Validation's @Min lets null through. */
  predicate BalanceOk(balance: Option<real>)
  {
    balance.None? || balance.value >= MIN_BALANCE
  }

  /** The constraint violations of the five constrained fields, in
      declaration order; accountNumber and creationDate are unconstrained. */
  function Violations(accountId: Option<int>, accountName: Option<string>, accountType: Option<AccountType>,
                      isCustomerActive: Option<bool>, accountBalance: Option<real>): seq<FieldError>
  {
    (if accountId.None? then [FieldError("accountId", Some(ACCOUNT_ID_NULL))] else [])
    + (if !NotBlank(accountName) then [FieldError("accountName", Some(ACCOUNT_NAME_BLANK))] else [])
    + (if accountType.None? then [FieldError("accountType", Some(ACCOUNT_TYPE_NULL))] else [])
    + (if isCustomerActive.None? then [FieldError("isCustomerActive", Some(ACTIVE_UNKNOWN))] else [])
    + (if !BalanceOk(accountBalance) then [FieldError("accountBalance", Some(BALANCE_TOO_LOW))] else [])
  }

  function AccountViolations(a: Account): seq<FieldError>
  {
    Violations(a.accountId, a.accountName, a.accountType, a.isCustomerActive, a.accountBalance)
  }

  function AccountDTOViolations(d: AccountDTO): seq<FieldError>
  {
    Violations(d.accountId, d.accountName, d.accountType, d.isCustomerActive, d.accountBalance)
  }

  /** The Account constraints: id, type and active flag not null, name not
      blank, balance at least 2000. */
  predicate AccountValid(a: Account)
  {
    && a.accountId.Some?
    && NotBlank(a.accountName)
    && a.accountType.Some?
    && a.isCustomerActive.Some?
    && BalanceOk(a.accountBalance)
  }

  /** The AccountDTO carries the same constraints as Account. */
  predicate AccountDTOValid(d: AccountDTO)
  {
    && d.accountId.Some?
    && NotBlank(d.accountName)
    && d.accountType.Some?
    && d.isCustomerActive.Some?
    && BalanceOk(d.accountBalance)
  }

  /** The six-argument constructor; accountNumber stays null until the store
      assigns one. */
  function NewAccount(accountId: Option<int>, accountName: Option<string>, creationDate: Option<Date>,
                      accountType: Option<AccountType>, isCustomerActive: Option<bool>, accountBalance: Option<real>): (a: Account)
    ensures a.accountNumber.None?
    ensures AccountViolations(a) == Violations(accountId, accountName, accountType, isCustomerActive, accountBalance)
  {
    Account(accountId, None, accountName, creationDate, accountType, isCustomerActive, accountBalance)
  }

  /** `new AccountDTO(account)`. */
  function ToDTO(a: Account): (d: AccountDTO)
    ensures AccountDTOViolations(d) == AccountViolations(a)
  {
    AccountDTO(a.accountId, a.accountNumber, a.accountName, a.creationDate, a.accountType, a.isCustomerActive, a.accountBalance)
  }

  /** `ds` holds the DTO of each account of `xs`, in the same order. */
  predicate MirrorsAll(ds: seq<AccountDTO>, xs: seq<Account>)
  {
    |ds| == |xs| && forall i :: 0 <= i < |xs| ==> ds[i] == ToDTO(xs[i])
  }

  /** An account is valid exactly when the validator finds nothing to report. */
  lemma AccountValidIffNoViolations(a: Account)
    ensures AccountValid(a) <==> AccountViolations(a) == []
  {
  }

  /** The same holds of the DTO. */
  lemma AccountDTOValidIffNoViolations(d: AccountDTO)
    ensures AccountDTOValid(d) <==> AccountDTOViolations(d) == []
  {
  }

  /** The DTO of an account is an exact copy: every field reads back, and
      the DTO is valid (with the same violations) exactly when the account is. */
  lemma ToDTOCopiesAndKeepsValidity(a: Account)
    ensures var d := ToDTO(a);
      && d.accountId == a.accountId && d.accountNumber == a.accountNumber
      && d.accountName == a.accountName && d.creationDate == a.creationDate
      && d.accountType == a.accountType && d.isCustomerActive == a.isCustomerActive
      && d.accountBalance == a.accountBalance
    ensures AccountDTOValid(ToDTO(a)) <==> AccountValid(a)
    ensures AccountDTOViolations(ToDTO(a)) == AccountViolations(a)
  {
  }

  /** Converting is injective: different accounts give different DTOs. */
  lemma ToDTOInjective(a: Account, b: Account)
    requires ToDTO(a) == ToDTO(b)
    ensures a == b
  {
  }

  /** accountNumber is not constrained on the DTO. */
  lemma AccountNumberUnconstrained(d: AccountDTO, n: Option<int>)
    ensures AccountDTOValid(d.(accountNumber := n)) <==> AccountDTOValid(d)
  {
  }

  /** Each constraint on its own: a balance of 1999.99 fails, 2000 passes,
      and a name of spaces is blank, its trimmed form being empty. */
  lemma ConstraintExamples()
    ensures !BalanceOk(Some(1999.99)) && BalanceOk(Some(2000.0)) && BalanceOk(None)
    ensures !NotBlank(Some("   ")) && !NotBlank(Some("")) && !NotBlank(None) && NotBlank(Some(" a "))
    ensures |Trim("   ")| == 0 && |Trim(" a ")| > 0
  {
    assert " a "[1] > ' ';
    NotBlankIffTrimmedNonEmpty("   ");
    NotBlankIffTrimmedNonEmpty(" a ");
  }
}
