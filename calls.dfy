/**
 * getInputData and doCall of els_cli.go: where a request body comes from,
 * which methods need one, and how the request then goes through the retry
 * loop. The app's collaborators are given as an Env value.
 */
module Calls {
  import opened Wrappers
  import opened Errors
  import opened RequestRetry
  import opened Reports

  /**
   * What the app's collaborators answer: the piped input (pipe.Reader), the
   * file system (fs.Open), http.NewRequest's verdict on a verb and URL,
   * json.Indent and json.Unmarshal of a report page.
   */
  datatype Env = Env(
    pipe: Result<string, GoError>,
    files: string -> Result<string, GoError>,
    newRequest: (string, string) -> Option<GoError>,
    indent: string -> Result<string, GoError>,
    unmarshal: string -> Result<InfringementsPage, GoError>)

  /** A built request: verb, URL relative to the API root, and body (nil when None). */
  datatype Request = Request(verb: string, url: string, body: Option<string>)

  /** What doCall did: the request it built (None if it stopped before), the attempts, the reply. */
  datatype CallOutcome = CallOutcome(request: Option<Request>, tries: nat, reply: Reply)

  /** getInputData: an empty file name selects the pipe, any other name opens that file. */
  function InputData(env: Env, srcFile: string): (r: Result<string, Error>)
    ensures srcFile == "" ==> r == env.pipe
    ensures srcFile != "" ==> r == env.files(srcFile)
  {
    if srcFile == "" then env.pipe else env.files(srcFile)
  }

  /** Methods whose body source must be available. */
  predicate NeedsBody(verb: string) {
    verb == "POST" || verb == "PUT"
  }

  /** Methods that consult the body source at all. */
  predicate ReadsBody(verb: string) {
    NeedsBody(verb) || verb == "PATCH"
  }

  /** The body doCall sends, or the input error that stops it. */
  function RequestBody(verb: string, srcFile: string, env: Env): Result<Option<string>, Error>
  {
    if !ReadsBody(verb) then Success(None)
    else match InputData(env, srcFile)
      case Success(body) => Success(Some(body))
      case Failure(e) => if verb == "PATCH" then Success(None) else Failure(e)
  }

  /** Building a request with a body and running the retry loop on it. */
  function Send(verb: string, url: string, body: Option<string>, env: Env, maxTries: int, transport: Transport): CallOutcome
  {
    match env.newRequest(verb, url)
    case Some(e) => CallOutcome(None, 0, Reply(None, Some(e)))
    case None =>
      var o := Retry(Answers(transport, maxTries));
      CallOutcome(Some(Request(verb, url, body)), o.tries, o.reply)
  }

  /**
   * doCall: a request is built only when its body source allows and
   * http.NewRequest accepts it, and only a built request is attempted;
   * otherwise the error that stopped it is returned.
   */
  function CallSpec(verb: string, url: string, srcFile: string, env: Env, maxTries: int, transport: Transport): (o: CallOutcome)
    ensures o.request.Some? <==> RequestBody(verb, srcFile, env).Success? && env.newRequest(verb, url).None?
    ensures o.request.Some? ==> o.request.value == Request(verb, url, RequestBody(verb, srcFile, env).value)
    ensures o.request.Some? ==> o == CallOutcome(o.request, Retry(Answers(transport, maxTries)).tries, Retry(Answers(transport, maxTries)).reply)
    ensures RequestBody(verb, srcFile, env).Failure? ==> o == CallOutcome(None, 0, Reply(None, Some(RequestBody(verb, srcFile, env).error)))
    ensures RequestBody(verb, srcFile, env).Success? && env.newRequest(verb, url).Some? ==>
      o == CallOutcome(None, 0, Reply(None, env.newRequest(verb, url)))
  {
    match RequestBody(verb, srcFile, env)
    case Failure(e) => CallOutcome(None, 0, Reply(None, Some(e)))
    case Success(body) => Send(verb, url, body, env, maxTries, transport)
  }

  /** POST and PUT: an unavailable body source is returned as the error and nothing is sent. */
  lemma BodyRequired(verb: string, url: string, srcFile: string, env: Env, maxTries: int, transport: Transport)
    requires NeedsBody(verb)
    ensures InputData(env, srcFile).Failure? ==>
      CallSpec(verb, url, srcFile, env, maxTries, transport) ==
        CallOutcome(None, 0, Reply(None, Some(InputData(env, srcFile).error)))
    ensures InputData(env, srcFile).Success? ==>
      CallSpec(verb, url, srcFile, env, maxTries, transport) ==
        Send(verb, url, Some(InputData(env, srcFile).value), env, maxTries, transport)
  {
  }

  /** PATCH: an unavailable body source is ignored and the request is sent with no body. */
  lemma PatchBodyOptional(url: string, srcFile: string, env: Env, maxTries: int, transport: Transport)
    ensures CallSpec("PATCH", url, srcFile, env, maxTries, transport) ==
      Send("PATCH", url, if InputData(env, srcFile).Success? then Some(InputData(env, srcFile).value) else None,
           env, maxTries, transport)
  {
  }

  /**
   * GET, DELETE and every other verb never consult the body source: the
   * outcome does not depend on the file name, the pipe or the files.
   */
  lemma NoBodyIgnoresSource(verb: string, url: string, srcFile: string, srcFile': string, env: Env,
                            pipe': Result<string, GoError>, files': string -> Result<string, GoError>,
                            maxTries: int, transport: Transport)
    requires !ReadsBody(verb)
    ensures CallSpec(verb, url, srcFile, env, maxTries, transport) ==
      CallSpec(verb, url, srcFile', env.(pipe := pipe', files := files'), maxTries, transport)
    ensures CallSpec(verb, url, srcFile, env, maxTries, transport) == Send(verb, url, None, env, maxTries, transport)
  {
  }

  /**
   * doCall returns a nil response with a nil error exactly when it built a
   * request but MaxAPITries allowed no attempt.
   */
  lemma NilReplyIffNoAttempt(verb: string, url: string, srcFile: string, env: Env, maxTries: int, transport: Transport)
    ensures CallSpec(verb, url, srcFile, env, maxTries, transport).reply == Reply(None, None) <==>
      CallSpec(verb, url, srcFile, env, maxTries, transport).request.Some? && maxTries <= 0
  {
    var o := CallSpec(verb, url, srcFile, env, maxTries, transport);
    if o.request.Some? && maxTries > 0 {
      var answers := Answers(transport, maxTries);
      assert o.reply == Retry(answers).reply;
      assert Retry(answers).reply == TryRequest(answers[Retry(answers).tries - 1]);
    }
  }
}
