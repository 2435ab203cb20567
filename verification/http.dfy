/** The observable side effects of an Express request handler, recorded
    in the order they happen.  A handler's behaviour on one request is
    the trace of effects it produces. */
module Http {
  import opened Wrappers
  import opened Items

  /** The decoded payload of a verified token (the `purpose` claim and
      the issue and expiry times). */
  datatype Claims = Claims(purpose: string, issuedAt: int, expiresAt: int)

  /** A JSON response body: `{ message }` or an array of items. */
  datatype Body = MessageBody(message: string) | ItemsBody(items: seq<Item>)

  datatype Response = Response(status: int, body: Body)

  datatype Effect =
    | VerifyCall(token: string)           // jwt.verify invoked on a token
    | SetUser(claims: Claims)             // req.user assigned
    | CallNext                            // next() invoked
    | UpstreamCall(term: Option<string>, media: Option<string>, limit: int)
    | Send(response: Response)            // res.json / res.status(..).json

  /** The responses a trace sends, in order. */
  function Responses(trace: seq<Effect>): (rs: seq<Response>)
    ensures |rs| <= |trace|
    ensures forall r :: r in rs <==> Send(r) in trace
    ensures (forall i :: 0 <= i < |trace| ==> !trace[i].Send?) ==> rs == []
  {
    if trace == [] then []
    else (if trace[0].Send? then [trace[0].response] else []) + Responses(trace[1..])
  }

  /** How many times a trace calls `next()`. */
  function NextCalls(trace: seq<Effect>): (n: nat)
    ensures n <= |trace|
    ensures n == 0 <==> CallNext !in trace
  {
    if trace == [] then 0
    else (if trace[0] == CallNext then 1 else 0) + NextCalls(trace[1..])
  }

  /** Whether a trace contacts the upstream catalogue. */
  predicate CallsUpstream(trace: seq<Effect>)
  {
    exists i :: 0 <= i < |trace| && trace[i].UpstreamCall?
  }

  /** Whether a trace invokes token verification. */
  predicate CallsVerify(trace: seq<Effect>)
  {
    exists i :: 0 <= i < |trace| && trace[i].VerifyCall?
  }

  lemma {:induction false} ResponsesAppend(a: seq<Effect>, b: seq<Effect>)
    ensures Responses(a + b) == Responses(a) + Responses(b)
    decreases |a|
  {
    if a == [] {
      assert a + b == b;
    } else {
      assert (a + b)[1..] == a[1..] + b;
      ResponsesAppend(a[1..], b);
    }
  }

  lemma {:induction false} NextCallsAppend(a: seq<Effect>, b: seq<Effect>)
    ensures NextCalls(a + b) == NextCalls(a) + NextCalls(b)
    decreases |a|
  {
    if a == [] {
      assert a + b == b;
    } else {
      assert (a + b)[1..] == a[1..] + b;
      NextCallsAppend(a[1..], b);
    }
  }
}
