/**
 * The request retry policy of els_cli.go (tryRequest and doRequest): up to
 * MaxAPITries attempts, stopping at the first attempt that gets a response
 * whose status is not 429. A transport failure does not stop the loop.
 */
module RequestRetry {
  import opened Wrappers
  import opened Errors

  const StatusTooManyRequests: int := 429

  /** A response body: readable content, or a stream whose reading fails. */
  datatype Content = Content(data: string) | Unreadable(cause: GoError)

  /** An HTTP response; a None body is Go's nil Body. */
  datatype Response = Response(statusCode: int, body: Option<Content>)

  /** What the transport (apiCaller.Do) gives one attempt. */
  datatype Attempt = Unreachable | Answered(rep: Response)

  /** The transport's answer to each attempt of one request, by attempt number. */
  type Transport = nat -> Attempt

  /** Go's (rep *http.Response, err error) pair. */
  datatype Reply = Reply(rep: Option<Response>, err: Option<Error>)

  /** The reply of a request together with the number of attempts made. */
  datatype Outcome = Outcome(tries: nat, reply: Reply)

  /** tryRequest: any transport error is replaced by ErrAPIUnreachable. */
  function TryRequest(a: Attempt): (r: Reply)
    ensures r.rep.Some? != r.err.Some?
    ensures r.err.Some? ==> a.Unreachable? && r.err == Some(APIUnreachable)
    ensures r.rep.Some? ==> a.Answered? && r.rep == Some(a.rep)
  {
    match a
    case Unreachable => Reply(None, Some(APIUnreachable))
    case Answered(rep) => Reply(Some(rep), None)
  }

  /** An attempt that ends the loop: a response other than 429. */
  predicate Stops(a: Attempt) {
    a.Answered? && a.rep.statusCode != StatusTooManyRequests
  }

  /** The answers the attempts of a request can receive: none when maxTries <= 0. */
  function Answers(transport: Transport, maxTries: int): (s: seq<Attempt>)
    ensures |s| == if maxTries <= 0 then 0 else maxTries
    ensures forall t :: 0 <= t < |s| ==> s[t] == transport(t)
  {
    seq(if maxTries <= 0 then 0 else maxTries, t requires 0 <= t => transport(t))
  }

  /**
   * doRequest over the answers its attempts would receive. The loop makes
   * attempts until one stops it or none are left; the reply is the last
   * attempt's, or (nil, nil) if no attempt was allowed.
   */
  function Retry(answers: seq<Attempt>): (o: Outcome)
    ensures o.tries <= |answers|
    ensures o.tries == 0 <==> answers == []
    ensures answers == [] ==> o.reply == Reply(None, None)
    ensures answers != [] ==> o.reply == TryRequest(answers[o.tries - 1])
    ensures forall t :: 0 <= t < o.tries - 1 ==> !Stops(answers[t])
    ensures 0 < o.tries < |answers| ==> Stops(answers[o.tries - 1])
  {
    if answers == [] then Outcome(0, Reply(None, None))
    else if Stops(answers[0]) || |answers| == 1 then Outcome(1, TryRequest(answers[0]))
    else
      var rest := Retry(answers[1..]);
      Outcome(rest.tries + 1, rest.reply)
  }

  /**
   * The first attempt that gets a non-429 response ends the loop, and that
   * response is returned with no error.
   */
  lemma RetryStopsAtFirstResponse(answers: seq<Attempt>, k: nat)
    requires k < |answers| && Stops(answers[k])
    requires forall t :: 0 <= t < k ==> !Stops(answers[t])
    ensures Retry(answers) == Outcome(k + 1, Reply(Some(answers[k].rep), None))
  {
  }

  /**
   * With no stopping answer every allowed attempt is made: a run of 429s
   * returns the last 429 with no error, and a final transport failure
   * returns ErrAPIUnreachable.
   */
  lemma RetryExhausted(answers: seq<Attempt>)
    requires answers != []
    requires forall t :: 0 <= t < |answers| ==> !Stops(answers[t])
    ensures Retry(answers).tries == |answers|
    ensures answers[|answers| - 1].Unreachable? ==> Retry(answers).reply == Reply(None, Some(APIUnreachable))
    ensures answers[|answers| - 1].Answered? ==>
      Retry(answers).reply == Reply(Some(answers[|answers| - 1].rep), None) &&
      answers[|answers| - 1].rep.statusCode == StatusTooManyRequests
  {
  }

  /**
   * The reply is an error only when the last attempt made could not reach
   * the API, and a 429 is returned only when every allowed attempt was made.
   */
  lemma RetryReplyShape(answers: seq<Attempt>)
    ensures Retry(answers).reply.err.Some? ==> Retry(answers).reply.err == Some(APIUnreachable)
    ensures Retry(answers).reply.rep.Some? && Retry(answers).reply.rep.value.statusCode == StatusTooManyRequests ==>
      Retry(answers).tries == |answers|
    ensures answers != [] ==> Retry(answers).reply.rep.Some? != Retry(answers).reply.err.Some?
  {
  }
}
