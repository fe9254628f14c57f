/** The same-origin endpoint `POST /api/verify-recaptcha`: it forwards the
    client's token to the reCAPTCHA verifier and relays the verdict. The
    request body and the verifier's answer are inputs; nothing is kept
    between requests, so the handler is a function of those two inputs. */
module VerifyRelay {
  import opened Wrappers

  /** The JSON values the handler looks at, as far as JavaScript truthiness
      can tell them apart; `Absent` is a missing member (`undefined`) and
      `Composite` any object or array. */
  datatype JsonValue = Absent | Null | Bool(b: bool) | Number(x: real) | Str(s: string) | Composite

  /** The value is truthy, so `!v` is false. */
  predicate Truthy(v: JsonValue): (r: bool)
    ensures !r <==> v in {Absent, Null, Bool(false), Number(0.0), Str("")}
  {
    match v
    case Absent => false
    case Null => false
    case Bool(b) => b
    case Number(x) => x != 0.0
    case Str(s) => s != ""
    case Composite => true
  }

  /** `await request.json()` followed by `const { token } = ...`: either it
      throws (a body that is not JSON, or JSON `null`), or it yields the
      `token` member. */
  datatype RequestBody = Unreadable | Body(token: JsonValue)

  /** The call to the verifier and `await response.json()`: the fetch throws,
      the reply cannot be read (not JSON, or JSON `null`), or it yields the
      reply's `success` member. */
  datatype Upstream = FetchFails | MalformedReply | Answered(success: JsonValue)

  /** The JSON payload `{ success, message? }`. */
  datatype Payload = Payload(success: bool, message: Option<string>)

  datatype Reply = Reply(status: int, payload: Payload)

  /** What one request does: the tokens it forwarded to the verifier, in
      order, and the reply it sends back. */
  datatype Exchange = Exchange(forwarded: seq<JsonValue>, reply: Reply)

  const TokenRequired := "Token is required"
  const InvalidToken := "Invalid reCAPTCHA token"
  const VerifyError := "Error verifying reCAPTCHA"

  /** The handler `POST`. Every path ends in a reply, exceptions included; at
      most one call reaches the verifier, and only with a truthy token; the
      only way to status 200 (the only status carrying `success: true`) is a
      truthy token and a truthy verdict. */
  function Post(request: RequestBody, upstream: Upstream): (r: Exchange)
    ensures r.reply.status == 200 || r.reply.status == 400 || r.reply.status == 500
    ensures r.reply.payload.success <==> r.reply.status == 200
    ensures r.reply.payload.message.None? <==> r.reply.status == 200
    ensures r.reply.status == 200 <==>
      request.Body? && Truthy(request.token) && upstream.Answered? && Truthy(upstream.success)
    ensures r.reply.status == 500 <==>
      request.Unreadable? || (Truthy(request.token) && !upstream.Answered?)
    ensures |r.forwarded| <= 1
    ensures r.forwarded != [] <==> request.Body? && Truthy(request.token)
    ensures r.forwarded != [] ==> r.forwarded == [request.token]
  {
    match request
    case Unreadable =>
      Exchange([], Reply(500, Payload(false, Some(VerifyError))))
    case Body(token) =>
      if !Truthy(token) then
        Exchange([], Reply(400, Payload(false, Some(TokenRequired))))
      else
        var reply :=
          match upstream
          case FetchFails => Reply(500, Payload(false, Some(VerifyError)))
          case MalformedReply => Reply(500, Payload(false, Some(VerifyError)))
          case Answered(success) =>
            if !Truthy(success) then Reply(400, Payload(false, Some(InvalidToken)))
            else Reply(200, Payload(true, None));
        Exchange([token], reply)
  }

  /** A missing, null or empty token is refused with 400 and the verifier is
      not called, whatever it would have said. */
  lemma MissingTokenRefused(token: JsonValue, upstream: Upstream)
    requires !Truthy(token)
    ensures Post(Body(token), upstream)
      == Exchange([], Reply(400, Payload(false, Some(TokenRequired))))
  {
  }

  /** A falsy verdict is refused with 400. */
  lemma FalsyVerdictRefused(token: JsonValue, success: JsonValue)
    requires Truthy(token) && !Truthy(success)
    ensures Post(Body(token), Answered(success)).reply
      == Reply(400, Payload(false, Some(InvalidToken)))
  {
  }

  /** A truthy verdict is accepted with 200 and `{ success: true }`. */
  lemma TruthyVerdictAccepted(token: JsonValue, success: JsonValue)
    requires Truthy(token) && Truthy(success)
    ensures Post(Body(token), Answered(success)).reply == Reply(200, Payload(true, None))
  {
  }

  /** A thrown exception (reading the request, calling the verifier or reading
      its reply) becomes a 500 with a generic message. */
  lemma FaultsBecomeServerError(request: RequestBody, upstream: Upstream)
    requires request.Unreadable? || (Truthy(request.token) && !upstream.Answered?)
    ensures Post(request, upstream).reply == Reply(500, Payload(false, Some(VerifyError)))
  {
  }

  /** The reply depends on the token only through its truthiness, and on the
      verifier only when the token is truthy. */
  lemma ReplyDependsOnlyOnVerdict(t1: JsonValue, t2: JsonValue, u1: Upstream, u2: Upstream)
    requires Truthy(t1) == Truthy(t2)
    requires Truthy(t1) ==> u1 == u2
    ensures Post(Body(t1), u1).reply == Post(Body(t2), u2).reply
  {
  }
}
