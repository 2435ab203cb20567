/** The token gate in front of the search route
    (backend/middleware/auth.js): reject a request without a token with
    401, reject a token that does not verify with 403, otherwise attach
    the decoded claims to the request and pass control on. */
module Auth {
  import opened Wrappers
  import opened JsLogic
  import opened Http

  const NoTokenMessage := "No token provided, authorization denied."
  const InvalidTokenMessage := "Token is not valid or expired."

  /** `jwt.verify(token, secret)`: the decoded claims, or `None` when it
      throws (bad signature, expired).  The secret and the clock are part
      of this function and are not modelled. */
  type Verifier = string -> Option<Claims>

  /** The effects of `verifyToken` on a request whose `x-access-token`
      header is `header` (`None` when the header is missing). */
  function VerifyToken(header: Option<string>, verify: Verifier): (trace: seq<Effect>)
    // missing or empty token: one 401 response, and neither verification nor next()
    ensures !Truthy(header) ==>
              Responses(trace) == [Response(401, MessageBody(NoTokenMessage))]
              && NextCalls(trace) == 0 && !CallsVerify(trace)
    // a token is present: it is verified, and nothing else is verified
    ensures Truthy(header) ==>
              CallsVerify(trace) && forall e :: e in trace && e.VerifyCall? ==> e.token == header.value
    // accepted: claims attached, then next() exactly once, no response, nothing after next()
    ensures Truthy(header) && verify(header.value).Some? ==>
              Responses(trace) == [] && NextCalls(trace) == 1
              && SetUser(verify(header.value).value) in trace
              && trace[|trace| - 1] == CallNext
    // rejected: one 403 response and no next()
    ensures Truthy(header) && verify(header.value).None? ==>
              Responses(trace) == [Response(403, MessageBody(InvalidTokenMessage))]
              && NextCalls(trace) == 0
  {
    if !Truthy(header) then
      [Send(Response(401, MessageBody(NoTokenMessage)))]
    else
      var token := header.value;
      match verify(token)
      case Some(decoded) => [VerifyCall(token), SetUser(decoded), CallNext]
      case None => [VerifyCall(token), Send(Response(403, MessageBody(InvalidTokenMessage)))]
  }

  /** Whether the gate let the request through. */
  predicate Passed(trace: seq<Effect>)
  {
    NextCalls(trace) > 0
  }

  /** For every request exactly one of three things happens: a 401, a 403,
      or a single call of next() with no response sent. */
  lemma ExactlyOneOutcome(header: Option<string>, verify: Verifier)
    ensures var trace := VerifyToken(header, verify);
            var rejected401 := Responses(trace) == [Response(401, MessageBody(NoTokenMessage))];
            var rejected403 := Responses(trace) == [Response(403, MessageBody(InvalidTokenMessage))];
            var passed := NextCalls(trace) == 1 && Responses(trace) == [];
            (rejected401 || rejected403 || passed)
            && !(rejected401 && rejected403) && !(rejected401 && passed) && !(rejected403 && passed)
  {
  }

  /** The missing-token check comes before verification: without a token
      the outcome does not depend on the verifier at all. */
  lemma MissingTokenPrecedesVerification(header: Option<string>, v1: Verifier, v2: Verifier)
    requires !Truthy(header)
    ensures VerifyToken(header, v1) == VerifyToken(header, v2)
  {
  }

  /** The gate passes exactly when a token is present and verifies. */
  lemma PassedIff(header: Option<string>, verify: Verifier)
    ensures Passed(VerifyToken(header, verify)) <==> Truthy(header) && verify(header.value).Some?
  {
  }
}
