/** The HTTP side of server.js: the JSON bodies the handlers answer with,
    and the error-handling middleware every `next(error)` ends up in. */
module Http {
  import opened Js
  import opened Models

  const OK: int := 200
  const CREATED: int := 201
  const UNAUTHORIZED: int := 401
  const FORBIDDEN: int := 403
  const NOT_FOUND_STATUS: int := 404
  const INTERNAL_ERROR: int := 500

  /** The JSON bodies the modelled handlers send. */
  datatype Body =
    | ErrorBody(error: string)                                   // { error }
    | ErrorDetails(error: string)                                // { error: err.message, stack }
    | Received                                                   // { received: true }
    | SubscriptionList(subscriptions: seq<Subscription>)         // { data: [...] }
    | SubscriptionDetail(subscription: Subscription, entitlements: seq<string>)
    | SubscriptionData(subscription: Subscription)               // { data: subscription }
    | PaymentList(payments: seq<Payment>)                        // { data: history }
    | PaymentData(payment: Payment)                              // { data: payment }

  datatype Response = Response(status: int, body: Body)

  /** What a route handler does: answer itself, or pass a thrown error to
      `next(error)`. */
  datatype Reply = Respond(response: Response) | Forward(error: Error)

  /** The 404 the handlers answer for an unknown subscription id. */
  const NOT_FOUND_RESPONSE: Response := Response(NOT_FOUND_STATUS, ErrorBody("Subscription not found"))

  const PRODUCTION_MESSAGE: string := "Internal server error"

  /** The error middleware as server.js writes it: 500 for every error,
      whatever `statusCode` the error carries; details are hidden in
      production. */
  function ErrorHandler(err: Error, production: bool): (r: Response)
    ensures r.status == INTERNAL_ERROR
    ensures production ==> r.body == ErrorBody(PRODUCTION_MESSAGE)
    ensures !production ==> r.body == ErrorDetails(err.message)
  {
    Response(INTERNAL_ERROR, if production then ErrorBody(PRODUCTION_MESSAGE) else ErrorDetails(err.message))
  }

  /** The error middleware as the validators' `statusCode = 400` means it:
      an error that carries a status code is answered with it, any other
      error with 500. */
  function ErrorHandlerIntended(err: Error, production: bool): (r: Response)
    ensures err.statusCode.Some? ==> r.status == err.statusCode.value
    ensures err.statusCode.None? ==> r.status == INTERNAL_ERROR
    ensures r.body == ErrorHandler(err, production).body
  {
    Response(err.statusCode.GetOr(INTERNAL_ERROR), ErrorHandler(err, production).body)
  }

  /** The two agree exactly on errors without a status code. */
  lemma HandlersAgreeWithoutStatusCode(err: Error, production: bool)
    ensures ErrorHandler(err, production) == ErrorHandlerIntended(err, production) <==>
      (err.statusCode.None? || err.statusCode == Some(INTERNAL_ERROR))
  {
  }

  /** The response a client finally sees for a handler's reply. */
  function Finish(reply: Reply, production: bool): (r: Response)
    ensures reply.Respond? ==> r == reply.response
    ensures reply.Forward? ==> r == ErrorHandlerIntended(reply.error, production)
  {
    match reply
    case Respond(response) => response
    case Forward(err) => ErrorHandlerIntended(err, production)
  }

  /** The same, through the error middleware as written. */
  function FinishAsWritten(reply: Reply, production: bool): (r: Response)
    ensures reply.Respond? ==> r == reply.response
    ensures reply.Forward? ==> r.status == INTERNAL_ERROR
  {
    match reply
    case Respond(response) => response
    case Forward(err) => ErrorHandler(err, production)
  }
}
