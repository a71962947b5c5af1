/** The customer-mongo CustomerServiceExceptionHandler: turns the service's
    domain exceptions and failed request validation into an ApiError body. */
module ExceptionHandler {
  import opened Common
  import opened CustomerMongoModel

  /** The error body: HTTP status, message (absent for validation
      failures), one text per error, the request description and a time. */
  datatype ApiError = ApiError(
    status: int,
    message: Option<string>,
    errors: seq<string>,
    path: string,
    timestamp: LocalDateTime)

  type Header = (string, string)

  /** A ResponseEntity carrying an ApiError. */
  datatype ErrorResponse = ErrorResponse(body: ApiError, headers: seq<Header>, status: int)

  /** `request.getDescription(false)` of a servlet request: "uri=" and the URI. */
  function Description(uri: string): (d: string)
    ensures |d| == |uri| + 4 && d[4..] == uri
  {
    "uri=" + uri
  }

  /** The body every domain-exception handler builds: the given status, the
      exception's message both as the message and as the only error. */
  function DomainError(status: int, message: string, uri: string, now: LocalDateTime): ErrorResponse
  {
    ErrorResponse(ApiError(status, Some(message), [message], Description(uri), now), [], status)
  }

  /** `customerNotFoundHandler`: 404. */
  function CustomerNotFoundHandler(message: string, uri: string, now: LocalDateTime): (r: ErrorResponse)
    ensures r.status == NOT_FOUND && r.body.status == NOT_FOUND
    ensures r.body.message == Some(message) && r.body.errors == [message]
    ensures r.body.path == Description(uri) && r.body.timestamp == now && r.headers == []
  {
    DomainError(NOT_FOUND, message, uri, now)
  }

  /** `customerAlreadyExistsHandler`: 208. */
  function CustomerAlreadyExistsHandler(message: string, uri: string, now: LocalDateTime): (r: ErrorResponse)
    ensures r.status == ALREADY_REPORTED && r.body.status == ALREADY_REPORTED
    ensures r.body.message == Some(message) && r.body.errors == [message]
    ensures r.body.path == Description(uri) && r.body.timestamp == now && r.headers == []
  {
    DomainError(ALREADY_REPORTED, message, uri, now)
  }

  /** `customerNotActiveHandler`: 417. */
  function CustomerNotActiveHandler(message: string, uri: string, now: LocalDateTime): (r: ErrorResponse)
    ensures r.status == EXPECTATION_FAILED && r.body.status == EXPECTATION_FAILED
    ensures r.body.message == Some(message) && r.body.errors == [message]
    ensures r.body.path == Description(uri) && r.body.timestamp == now && r.headers == []
  {
    DomainError(EXPECTATION_FAILED, message, uri, now)
  }

  /** The framework's choice of handler by exception class. */
  function Handle(error: CustomerError, message: string, uri: string, now: LocalDateTime): (r: ErrorResponse)
    ensures r.status == r.body.status && r.status in {NOT_FOUND, ALREADY_REPORTED, EXPECTATION_FAILED}
    ensures r.body.message == Some(message) && r.body.errors == [message]
    ensures r.body.path == Description(uri) && r.body.timestamp == now && r.headers == []
  {
    match error
    case CustomerNotFound => CustomerNotFoundHandler(message, uri, now)
    case CustomerAlreadyExists => CustomerAlreadyExistsHandler(message, uri, now)
    case CustomerNotActive => CustomerNotActiveHandler(message, uri, now)
  }

  /** The status each domain exception is answered with. */
  function StatusOf(error: CustomerError): int
  {
    match error
    case CustomerNotFound => NOT_FOUND
    case CustomerAlreadyExists => ALREADY_REPORTED
    case CustomerNotActive => EXPECTATION_FAILED
  }

  /** Every domain exception is answered with its own status, recorded also
      in the body, with the message as the only error; different exceptions
      get different statuses, none of them a success or a server error. */
  lemma HandleAnswersWithItsStatus(error: CustomerError, other: CustomerError, message: string, uri: string, now: LocalDateTime)
    ensures Handle(error, message, uri, now).status == StatusOf(error) == Handle(error, message, uri, now).body.status
    ensures Handle(error, message, uri, now).body.errors == [message]
    ensures Handle(error, message, uri, now).body.message == Some(message)
    ensures error != other ==> StatusOf(error) != StatusOf(other)
    ensures 200 <= StatusOf(error) < 500 && StatusOf(error) != OK && StatusOf(error) != CREATED
  {
  }

  /** The text of one field error: "field : default message". */
  function FieldErrorText(e: FieldError): (t: string)
    ensures |t| == |e.field| + 3 + |StrText(e.defaultMessage)|
    ensures t[..|e.field|] == e.field && t[|e.field|..|e.field| + 3] == " : "
    ensures t[|e.field| + 3..] == StrText(e.defaultMessage)
  {
    e.field + " : " + StrText(e.defaultMessage)
  }

  /** The errors list of a failed validation: one text per field error, in order. */
  function ValidationErrors(fieldErrors: seq<FieldError>): (errors: seq<string>)
    ensures |errors| == |fieldErrors|
    ensures forall i :: 0 <= i < |fieldErrors| ==> errors[i] == FieldErrorText(fieldErrors[i])
  {
    seq(|fieldErrors|, i requires 0 <= i < |fieldErrors| => FieldErrorText(fieldErrors[i]))
  }

  /** `handleMethodArgumentNotValid`: 400 with no message, the caller's
      headers, and the field errors as texts. */
  method HandleMethodArgumentNotValid(fieldErrors: seq<FieldError>, headers: seq<Header>, uri: string, now: LocalDateTime)
    returns (r: ErrorResponse)
    ensures r.status == BAD_REQUEST && r.body.status == BAD_REQUEST && r.body.message == None
    ensures r.headers == headers && r.body.path == Description(uri) && r.body.timestamp == now
    ensures r.body.errors == ValidationErrors(fieldErrors)
  {
    var errors: seq<string> := [];
    for i := 0 to |fieldErrors|
      invariant errors == ValidationErrors(fieldErrors[..i])
    {
      errors := errors + [FieldErrorText(fieldErrors[i])];
      assert fieldErrors[..i + 1] == fieldErrors[..i] + [fieldErrors[i]];
    }
    assert fieldErrors[..|fieldErrors|] == fieldErrors;
    r := ErrorResponse(ApiError(BAD_REQUEST, None, errors, Description(uri), now), headers, BAD_REQUEST);
  }

  /** A CustomerDTO request is answered with validation errors exactly when it
      is invalid, and with at most one error per constrained field. */
  lemma CustomerValidationErrorsIff(d: CustomerDTO)
    ensures ValidationErrors(CustomerDTOViolations(d)) == [] <==> CustomerDTOValid(d)
    ensures |ValidationErrors(CustomerDTOViolations(d))| <= 3
  {
    CustomerDTOValidIffNoViolations(d);
  }

  /** The invalid request of the controller tests (empty name, null type)
      is answered with exactly these two errors. */
  lemma InvalidFieldsRequestErrors(d: CustomerDTO)
    requires d == CustomerDTO(Some(40), Some(""), None, None, true)
    ensures ValidationErrors(CustomerDTOViolations(d)) ==
      ["customerName : customer name cannot be empty", "customerType : customer type cannot be null"]
  {
    BlankNameAndNullTypeViolations(d);
    ConstraintTexts();
  }

  /** The texts of the two violations a blank name and a null type draw. */
  lemma ConstraintTexts()
    ensures ValidationErrors([FieldError("customerName", Some(CUSTOMER_NAME_BLANK)), FieldError("customerType", Some(CUSTOMER_TYPE_NULL))])
      == ["customerName : customer name cannot be empty", "customerType : customer type cannot be null"]
  {
    var name := FieldError("customerName", Some(CUSTOMER_NAME_BLANK));
    var kind := FieldError("customerType", Some(CUSTOMER_TYPE_NULL));
    assert ValidationErrors([name, kind]) == [FieldErrorText(name), FieldErrorText(kind)];
    NameErrorText();
    TypeErrorText();
  }

  lemma NameErrorText()
    ensures FieldErrorText(FieldError("customerName", Some(CUSTOMER_NAME_BLANK))) == "customerName : customer name cannot be empty"
  {
  }

  lemma TypeErrorText()
    ensures FieldErrorText(FieldError("customerType", Some(CUSTOMER_TYPE_NULL))) == "customerType : customer type cannot be null"
  {
  }
}
