/** middleware/auth.js: the API-key checks. A key is any string of ten or
    more characters; an admin key is one that starts with "admin_". */
module Auth {
  import opened Js
  import opened Http

  const MIN_KEY_LENGTH: nat := 10
  const ADMIN_PREFIX: string := "admin_"

  /** What a middleware does: call `next`, or answer itself. */
  datatype Gate = Next | Reject(response: Response)

  const KEY_REQUIRED: Response := Response(UNAUTHORIZED, ErrorBody("API key required"))
  const KEY_INVALID: Response := Response(UNAUTHORIZED, ErrorBody("Invalid API key"))
  const ADMIN_REQUIRED: Response := Response(FORBIDDEN, ErrorBody("Admin access required"))

  /** The check `authenticateRequest` makes on the `x-api-key` header
      (`None` when the header is absent). */
  function CheckApiKey(header: Option<string>): (g: Gate)
    ensures (header.None? || header.value == "") <==> g == Reject(KEY_REQUIRED)
    ensures header.Some? && 0 < |header.value| < MIN_KEY_LENGTH <==> g == Reject(KEY_INVALID)
    ensures g.Next? <==> header.Some? && |header.value| >= MIN_KEY_LENGTH
  {
    if header.None? || header.value == "" then Reject(KEY_REQUIRED)
    else if |header.value| < MIN_KEY_LENGTH then Reject(KEY_INVALID)
    else Next
  }

  /** `requireAdmin`: only a key that starts with "admin_" passes. */
  function RequireAdmin(apiKey: Option<string>): (g: Gate)
    ensures g.Next? <==> apiKey.Some? && StartsWith(apiKey.value, ADMIN_PREFIX)
    ensures g.Reject? ==> g.response == ADMIN_REQUIRED
  {
    if apiKey.None? || apiKey.value == "" || !StartsWith(apiKey.value, ADMIN_PREFIX) then Reject(ADMIN_REQUIRED)
    else Next
  }

  /** The request object the middleware sees. */
  class Request {
    const header: Option<string>
    var apiKey: Option<string>

    constructor (header: Option<string>)
      ensures this.header == header && apiKey.None?
    {
      this.header := header;
      apiKey := None;
    }
  }

  /** `authenticateRequest(req, res, next)`: on success `req.apiKey` holds
      the key and `next` is called; on failure the request is left alone. */
  method AuthenticateRequest(req: Request) returns (g: Gate)
    modifies req
    ensures g == CheckApiKey(req.header)
    ensures g.Next? ==> req.apiKey == req.header
    ensures g.Reject? ==> req.apiKey == old(req.apiKey)
  {
    g := CheckApiKey(req.header);
    if g.Next? {
      req.apiKey := req.header;
    }
  }

  /** A key that gets past both checks is at least ten characters long
      and starts with "admin_". */
  lemma AdminKeyShape(header: Option<string>)
    requires CheckApiKey(header).Next? && RequireAdmin(header).Next?
    ensures |header.value| >= MIN_KEY_LENGTH && header.value[..6] == "admin_"
  {
  }

  /** "admin_" alone is not enough: an admin key shorter than ten
      characters passes the prefix check but not the length check. */
  lemma ShortAdminKeyRejected(key: string)
    requires StartsWith(key, ADMIN_PREFIX) && |key| < MIN_KEY_LENGTH
    ensures RequireAdmin(Some(key)).Next?
    ensures CheckApiKey(Some(key)) == Reject(KEY_INVALID)
  {
  }
}
