// The order endpoints (OrderController.java). Each handler reads the bearer
// token from the Authorization header, resolves it to a user, calls the order
// service for that user and turns the outcome into an HTTP status and body.
// Token decoding with the user lookup, and the order service, are
// collaborators passed in as functions: each gives a result or the message
// of the exception it throws.

module OrderEndpoints {
  import opened Outcomes
  import Text

  const BEARER_PREFIX: string := "Bearer "
  const NO_VALID_TOKEN: string := "No valid token found"
  const USER_NOT_FOUND: string := "User not found"
  const ORDER_NOT_FOUND: string := "Order not found or access denied"

  const OK: int := 200
  const CREATED: int := 201
  const BAD_REQUEST: int := 400
  const UNAUTHORIZED: int := 401
  const NOT_FOUND: int := 404
  const INTERNAL_SERVER_ERROR: int := 500

  /** `extractTokenFromRequest`: the header after a case-sensitive
      `"Bearer "` prefix; a missing header or any other prefix throws. */
  function ExtractToken(header: Option<string>): (r: Result<string, string>)
    ensures r.Success? <==> header.Some? && Text.StartsWith(header.value, BEARER_PREFIX)
    ensures r.Success? ==> header.value == BEARER_PREFIX + r.value
    ensures r.Failure? ==> r.error == NO_VALID_TOKEN
  {
    if header.Some? && Text.StartsWith(header.value, BEARER_PREFIX) then
      assert header.value == BEARER_PREFIX + header.value[|BEARER_PREFIX|..];
      Success(header.value[|BEARER_PREFIX|..])
    else Failure(NO_VALID_TOKEN)
  }

  /** The header the front end sends, `"Bearer " + token`, gives the token back. */
  lemma ExtractTokenRoundTrip(token: string)
    ensures ExtractToken(Some(BEARER_PREFIX + token)) == Success(token)
  {
    var header := BEARER_PREFIX + token;
    assert header[..|BEARER_PREFIX|] == BEARER_PREFIX;
    assert header[|BEARER_PREFIX|..] == token;
  }

  /** The prefix is matched case-sensitively: a lower-case scheme is refused. */
  lemma LowerCaseSchemeRefused(token: string)
    ensures ExtractToken(Some("bearer " + token)) == Failure(NO_VALID_TOKEN)
  {
    assert ("bearer " + token)[0] == 'b';
  }

  /** A response body: the service's value, or an `ErrorResponse` message. */
  datatype Body<+T> = Payload(value: T) | ErrorResponse(message: string)

  /** The response, and the user the order service was called for, if it was. */
  datatype Reply<+T> = Reply(status: int, body: Body<T>, serviceCalledFor: Option<int>)

  /** The handlers' common shape: the token, the user (unknown gives 401
      without calling the service), the service call, and the handler's own
      mapping of any exception on the way to a status and a message. */
  function Handle<T>(header: Option<string>, findUser: string -> Result<Option<int>, string>,
                     service: int -> Result<T, string>, okStatus: int,
                     onError: string -> (int, string)): Reply<T>
  {
    var token := ExtractToken(header);
    if token.Failure? then
      Reply(onError(token.error).0, ErrorResponse(onError(token.error).1), None)
    else
      match findUser(token.value)
      case Failure(m) => Reply(onError(m).0, ErrorResponse(onError(m).1), None)
      case Success(None) => Reply(UNAUTHORIZED, ErrorResponse(USER_NOT_FOUND), None)
      case Success(Some(userId)) =>
        match service(userId)
        case Success(v) => Reply(okStatus, Payload(v), Some(userId))
        case Failure(m) => Reply(onError(m).0, ErrorResponse(onError(m).1), Some(userId))
  }

  /** The user a request resolves to, when its token is valid and known. */
  function Caller(header: Option<string>, findUser: string -> Result<Option<int>, string>): Option<int> {
    var token := ExtractToken(header);
    if token.Success? && findUser(token.value).Success? then findUser(token.value).value else None
  }

  /** `createOrder`: 201 with the new order; 401 for an unknown user, with
      no order created; 500 with "Failed to create order: " and the message
      for any exception, a missing token included. */
  function CreateOrder<T>(header: Option<string>, findUser: string -> Result<Option<int>, string>,
                          createOrder: int -> Result<T, string>): (r: Reply<T>)
    ensures r.serviceCalledFor.Some? <==> Caller(header, findUser).Some?
    ensures r.serviceCalledFor.Some? ==> r.serviceCalledFor == Caller(header, findUser)
    ensures r.status == CREATED <==>
              Caller(header, findUser).Some? && createOrder(Caller(header, findUser).value).Success?
    ensures r.status == CREATED ==> r.body == Payload(createOrder(Caller(header, findUser).value).value)
    ensures r.status == UNAUTHORIZED <==>
              ExtractToken(header).Success? && findUser(ExtractToken(header).value) == Success(None)
    ensures r.status == UNAUTHORIZED ==> r == Reply(UNAUTHORIZED, ErrorResponse(USER_NOT_FOUND), None)
    ensures ExtractToken(header).Failure? ==>
              r == Reply(INTERNAL_SERVER_ERROR, ErrorResponse("Failed to create order: " + NO_VALID_TOKEN), None)
    ensures ExtractToken(header).Success? && findUser(ExtractToken(header).value).Failure? ==>
              r == Reply(INTERNAL_SERVER_ERROR,
                         ErrorResponse("Failed to create order: " + findUser(ExtractToken(header).value).error), None)
    ensures Caller(header, findUser).Some? && createOrder(Caller(header, findUser).value).Failure? ==>
              r == Reply(INTERNAL_SERVER_ERROR,
                         ErrorResponse("Failed to create order: " + createOrder(Caller(header, findUser).value).error),
                         Caller(header, findUser))
    ensures r.status != CREATED && r.status != UNAUTHORIZED ==>
              r.status == INTERNAL_SERVER_ERROR && r.body.ErrorResponse?
              && Text.StartsWith(r.body.message, "Failed to create order: ")
  {
    Handle(header, findUser, createOrder, CREATED, m => (INTERNAL_SERVER_ERROR, "Failed to create order: " + m))
  }

  /** `getUserOrders`: 200 with the orders, 401 for an unknown user, and 500
      with "Failed to fetch orders: " and the message for any exception. */
  function GetUserOrders<T>(header: Option<string>, findUser: string -> Result<Option<int>, string>,
                            getUserOrders: int -> Result<T, string>): (r: Reply<T>)
    ensures r.serviceCalledFor == Caller(header, findUser)
    ensures r.status == OK <==>
              Caller(header, findUser).Some? && getUserOrders(Caller(header, findUser).value).Success?
    ensures r.status == OK ==> r.body == Payload(getUserOrders(Caller(header, findUser).value).value)
    ensures r.status == UNAUTHORIZED <==>
              ExtractToken(header).Success? && findUser(ExtractToken(header).value) == Success(None)
    ensures r.status == UNAUTHORIZED ==> r == Reply(UNAUTHORIZED, ErrorResponse(USER_NOT_FOUND), None)
    ensures ExtractToken(header).Failure? ==>
              r == Reply(INTERNAL_SERVER_ERROR, ErrorResponse("Failed to fetch orders: " + NO_VALID_TOKEN), None)
    ensures ExtractToken(header).Success? && findUser(ExtractToken(header).value).Failure? ==>
              r == Reply(INTERNAL_SERVER_ERROR,
                         ErrorResponse("Failed to fetch orders: " + findUser(ExtractToken(header).value).error), None)
    ensures Caller(header, findUser).Some? && getUserOrders(Caller(header, findUser).value).Failure? ==>
              r == Reply(INTERNAL_SERVER_ERROR,
                         ErrorResponse("Failed to fetch orders: " + getUserOrders(Caller(header, findUser).value).error),
                         Caller(header, findUser))
    ensures r.status != OK && r.status != UNAUTHORIZED ==>
              r.status == INTERNAL_SERVER_ERROR && r.body.ErrorResponse?
              && Text.StartsWith(r.body.message, "Failed to fetch orders: ")
  {
    Handle(header, findUser, getUserOrders, OK, m => (INTERNAL_SERVER_ERROR, "Failed to fetch orders: " + m))
  }

  /** `getOrderDetails`: 200 with the order, 401 for an unknown user, and
      404 with one fixed message whatever else goes wrong. */
  function GetOrderDetails<T>(header: Option<string>, findUser: string -> Result<Option<int>, string>,
                              getOrderById: int -> Result<T, string>): (r: Reply<T>)
    ensures r.serviceCalledFor == Caller(header, findUser)
    ensures r.status == OK <==>
              Caller(header, findUser).Some? && getOrderById(Caller(header, findUser).value).Success?
    ensures r.status == OK ==> r.body == Payload(getOrderById(Caller(header, findUser).value).value)
    ensures r.status == UNAUTHORIZED <==>
              ExtractToken(header).Success? && findUser(ExtractToken(header).value) == Success(None)
    ensures r.status == UNAUTHORIZED ==> r == Reply(UNAUTHORIZED, ErrorResponse(USER_NOT_FOUND), None)
    ensures ExtractToken(header).Failure? ==> r == Reply(NOT_FOUND, ErrorResponse(ORDER_NOT_FOUND), None)
    ensures ExtractToken(header).Success? && findUser(ExtractToken(header).value).Failure? ==>
              r == Reply(NOT_FOUND, ErrorResponse(ORDER_NOT_FOUND), None)
    ensures r.status != OK && r.status != UNAUTHORIZED ==> r.status == NOT_FOUND && r.body == ErrorResponse(ORDER_NOT_FOUND)
  {
    Handle(header, findUser, getOrderById, OK, m => (NOT_FOUND, ORDER_NOT_FOUND))
  }

  /** `markOrderAsReceived`: 200 with the order, 401 for an unknown user, and
      400 carrying the exception's own message for any other failure. */
  function MarkOrderAsReceived<T>(header: Option<string>, findUser: string -> Result<Option<int>, string>,
                                  markReceived: int -> Result<T, string>): (r: Reply<T>)
    ensures r.serviceCalledFor == Caller(header, findUser)
    ensures r.status == OK <==>
              Caller(header, findUser).Some? && markReceived(Caller(header, findUser).value).Success?
    ensures r.status == OK ==> r.body == Payload(markReceived(Caller(header, findUser).value).value)
    ensures r.status == UNAUTHORIZED <==>
              ExtractToken(header).Success? && findUser(ExtractToken(header).value) == Success(None)
    ensures r.status == UNAUTHORIZED ==> r == Reply(UNAUTHORIZED, ErrorResponse(USER_NOT_FOUND), None)
    ensures ExtractToken(header).Failure? ==> r == Reply(BAD_REQUEST, ErrorResponse(NO_VALID_TOKEN), None)
    ensures ExtractToken(header).Success? && findUser(ExtractToken(header).value).Failure? ==>
              r == Reply(BAD_REQUEST, ErrorResponse(findUser(ExtractToken(header).value).error), None)
    ensures Caller(header, findUser).Some? && markReceived(Caller(header, findUser).value).Failure? ==>
              r == Reply(BAD_REQUEST, ErrorResponse(markReceived(Caller(header, findUser).value).error),
                         Caller(header, findUser))
  {
    Handle(header, findUser, markReceived, OK, m => (BAD_REQUEST, m))
  }
}
