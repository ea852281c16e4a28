/**
 * The ELSCLI app of els_cli.go: its active profile, its output stream and
 * its fatal error are state that its methods update. Requests go through
 * the retry loop, responses through writeResponse, and the infringement
 * report through the cursor-following export loop.
 */
module ElsCli {
  import opened Wrappers
  import opened Errors
  import opened RequestRetry
  import opened Profiles
  import opened ResponseFormat
  import opened Infringements
  import opened Reports
  import opened Calls
  import opened Commands
  import opened ExportRun

  /** What reaches the output stream: one fmt.Fprintln line, or one CSV document. */
  datatype Written = Line(text: string) | Csv(records: seq<seq<string>>)

  /** The lines of a response as they are written. */
  function Lines(ls: seq<OutLine>): (ws: seq<Written>)
    ensures |ws| == |ls|
    ensures forall k :: 0 <= k < |ls| ==> ws[k] == Line(Text(ls[k]))
  {
    seq(|ls|, k requires 0 <= k < |ls| => Line(Text(ls[k])))
  }

  /**
   * doCallAndRep after doCall: a call error is returned, a nil response is
   * dereferenced by writeResponse, and any other response is formatted.
   */
  function Report(reply: Reply, mode: string, indent: string -> Result<string, GoError>): (r: Result<seq<OutLine>, Error>)
    ensures reply.err.Some? ==> r == Failure(reply.err.value)
    ensures reply.err.None? && reply.rep.None? ==> r == Failure(NilDereference)
    ensures r.Success? ==> reply.rep.Some?
    ensures reply.err.None? && reply.rep.Some? ==> r == ResponseLines(mode, reply.rep.value, indent)
  {
    if reply.err.Some? then Failure(reply.err.value)
    else if reply.rep.None? then Failure(NilDereference)
    else ResponseLines(mode, reply.rep.value, indent)
  }

  /**
   * A command call panics exactly when doCall returned a nil response with a
   * nil error: every error a collaborator or the retry loop returns is an
   * ordinary Go error, handed on to fatalError.
   */
  lemma CallPanicsOnlyOnNilReply(verb: string, url: string, srcFile: string, env: Env, maxTries: int,
                                 transport: Transport, mode: string)
    ensures Report(CallSpec(verb, url, srcFile, env, maxTries, transport).reply, mode, env.indent) == Failure(NilDereference)
      <==> CallSpec(verb, url, srcFile, env, maxTries, transport).reply == Reply(None, None)
  {
    var o := CallSpec(verb, url, srcFile, env, maxTries, transport);
    if o.request.Some? && maxTries > 0 {
      RetryReplyShape(Answers(transport, maxTries));
    }
  }

  /**
   * The inner loops of the export: one record per infringement, customer by
   * customer, appended to the records gathered so far.
   */
  method AppendPageRecords(records: seq<seq<string>>, page: InfringementsPage) returns (result: seq<seq<string>>)
    ensures result == records + PageRecords(page)
  {
    result := records;
    var cs := page.customerInfringements;
    var c := 0;
    while c < |cs|
      invariant 0 <= c <= |cs|
      invariant result == records + CustomersRecords(cs[..c])
    {
      var ci := cs[c];
      ghost var before := result;
      var i := 0;
      while i < |ci.infringements|
        invariant 0 <= i <= |ci.infringements|
        invariant result == before + CustomerRecords(ci)[..i]
      {
        result := result + [Record(ci, ci.infringements[i])];
        CustomerRecordsNext(before, ci, i);
        i := i + 1;
      }
      assert CustomerRecords(ci)[..i] == CustomerRecords(ci);
      CustomersRecordsNext(records, cs, c);
      c := c + 1;
    }
    assert cs[..|cs|] == cs;
  }

  class App {
    const config: Config
    const env: Env
    /** The profile whose settings govern calls; set by InitProfile. */
    var profile: Profile?
    var output: seq<Written>
    /** The error lines written to the error stream. */
    var errorOutput: seq<Error>
    /** The error Run returns once the command has finished. */
    var fatalErr: Option<Error>
    /**
     * Whether a nil dereference panicked: the process stops there, so
     * fatalError is never reached and nothing reaches the error stream.
     */
    var panicked: bool

    constructor (config: Config, env: Env)
      ensures this.config == config && this.env == env
      ensures profile == null && output == [] && errorOutput == [] && fatalErr == None && !panicked
    {
      this.config := config;
      this.env := env;
      profile := null;
      output := [];
      errorOutput := [];
      fatalErr := None;
      panicked := false;
    }

    /** fatalError: records the error for Run to return and writes it to the error stream. */
    method FatalError(err: Error)
      modifies this`fatalErr, this`errorOutput
      ensures fatalErr == Some(err) && errorOutput == old(errorOutput) + [err]
    {
      fatalErr := Some(err);
      errorOutput := errorOutput + [err];
    }

    /**
     * initProfile: selects the profile named p. A missing profile is an
     * error unless it is "default"; a non-empty o then overrides the output
     * mode. A stored profile is shared with the configuration, so the
     * override changes the stored profile too.
     */
    method InitProfile(p: string, o: string) returns (err: Option<Error>)
      modifies this`profile, config.profiles.Values
      ensures profile != null
      ensures p in config.profiles ==>
        profile == config.profiles[p] && err == None &&
        profile.Value() == (if o != "" then old(config.profiles[p].Value()).(output := o) else old(config.profiles[p].Value()))
      ensures p !in config.profiles && p != "default" ==>
        fresh(profile) && err == Some(ProfileNotFound) && profile.Value() == WithDefaults(ZeroSettings)
      ensures p !in config.profiles && p == "default" ==>
        fresh(profile) && err == None &&
        profile.Value() == (if o != "" then WithDefaults(ZeroSettings).(output := o) else WithDefaults(ZeroSettings))
      ensures forall q :: q in config.profiles.Values && q != profile ==> q.Value() == old(q.Value())
    {
      var found, lookupErr := config.Profile(p);
      profile := found;
      if lookupErr.Some? && p != "default" {
        return Some(ProfileNotFound);
      }
      if o != "" {
        found.output := o;
      }
      err := None;
    }

    /**
     * doRequest: attempts the request until an attempt gets a response
     * other than 429 or MaxAPITries attempts have been made.
     */
    method DoRequest(transport: Transport) returns (o: Outcome)
      requires profile != null
      ensures o == Retry(Answers(transport, profile.maxAPITries))
    {
      ghost var answers := Answers(transport, profile.maxAPITries);
      var reply := Reply(None, None);
      var t := 0;
      while t < profile.maxAPITries
        invariant 0 <= t <= |answers|
        invariant forall j :: 0 <= j < t ==> !Stops(answers[j])
        invariant t == 0 ==> reply == Reply(None, None)
        invariant t > 0 ==> reply == TryRequest(answers[t - 1])
      {
        reply := TryRequest(transport(t));
        t := t + 1;
        if reply.err.None? && reply.rep.value.statusCode != StatusTooManyRequests {
          break;
        }
      }
      o := Outcome(t, reply);
      if t > 0 && Stops(answers[t - 1]) {
        RetryStopsAtFirstResponse(answers, t - 1);
      } else if answers != [] {
        RetryExhausted(answers);
      }
    }

    /**
     * doCall: POST and PUT need their body source, PATCH does without it,
     * other methods never consult it; then the request is built and sent.
     */
    method DoCall(verb: string, url: string, srcFile: string, transport: Transport) returns (out: CallOutcome)
      requires profile != null
      ensures out == CallSpec(verb, url, srcFile, env, profile.maxAPITries, transport)
    {
      var body: Option<string> := None;
      if verb == "POST" || verb == "PUT" {
        var input := InputData(env, srcFile);
        if input.Failure? {
          return CallOutcome(None, 0, Reply(None, Some(input.error)));
        }
        body := Some(input.value);
      }
      if verb == "PATCH" {
        // an empty PATCH body is valid for some endpoints
        var input := InputData(env, srcFile);
        body := if input.Success? then Some(input.value) else None;
      }
      var requestErr := env.newRequest(verb, url);
      if requestErr.Some? {
        return CallOutcome(None, 0, Reply(None, requestErr));
      }
      var o := DoRequest(transport);
      out := CallOutcome(Some(Request(verb, url, body)), o.tries, o.reply);
    }

    /**
     * writeResponse: the body is read and indented first; only then are the
     * status line and the body line written, as the output mode selects.
     */
    method WriteResponse(rep: Response) returns (err: Option<Error>)
      requires profile != null
      modifies this`output
      ensures ResponseLines(profile.output, rep, env.indent).Success? ==>
        err == None && output == old(output) + Lines(ResponseLines(profile.output, rep, env.indent).value)
      ensures ResponseLines(profile.output, rep, env.indent).Failure? ==>
        err == Some(ResponseLines(profile.output, rep, env.indent).error) && output == old(output)
    {
      var getBody := profile.output != OutputStatusCodeOnly && rep.body.Some? && rep.statusCode != StatusNoContent;
      var pretty := "";
      if getBody {
        match rep.body.value
        case Unreadable(e) =>
          return Some(e);
        case Content(data) =>
          var indented := env.indent(data);
          if indented.Failure? {
            return Some(indented.error);
          }
          pretty := indented.value;
      }
      ghost var lines: seq<OutLine> := [];
      if profile.output != OutputBodyOnly {
        output := output + [Line(Text(StatusLine(rep.statusCode)))];
        lines := lines + [StatusLine(rep.statusCode)];
      }
      if profile.output != OutputStatusCodeOnly && |pretty| > 0 {
        output := output + [Line(pretty)];
        lines := lines + [BodyLine(pretty)];
      }
      assert output == old(output) + Lines(lines);
      err := None;
    }

    /** doCallAndRep: one call, then its response written to the output stream. */
    method DoCallAndRep(verb: string, url: string, srcFile: string, transport: Transport) returns (err: Option<Error>)
      requires profile != null
      modifies this`output
      ensures Report(CallSpec(verb, url, srcFile, env, profile.maxAPITries, transport).reply, profile.output, env.indent).Success? ==>
        err == None &&
        output == old(output) + Lines(Report(CallSpec(verb, url, srcFile, env, profile.maxAPITries, transport).reply, profile.output, env.indent).value)
      ensures Report(CallSpec(verb, url, srcFile, env, profile.maxAPITries, transport).reply, profile.output, env.indent).Failure? ==>
        err == Some(Report(CallSpec(verb, url, srcFile, env, profile.maxAPITries, transport).reply, profile.output, env.indent).error) &&
        output == old(output)
    {
      var out := DoCall(verb, url, srcFile, transport);
      if out.reply.err.Some? {
        return out.reply.err;
      }
      if out.reply.rep.None? {
        // writeResponse reads the Body field of a nil response
        return Some(NilDereference);
      }
      err := WriteResponse(out.reply.rep.value);
    }

    /**
     * A command handler (putVendor, getVendor, ..., doCommand): the call its
     * route names is made and written out; a failure becomes the fatal
     * error, except a nil dereference, which panics before the handler can
     * report anything.
     */
    method Execute(cmd: Command, transport: Transport)
      requires profile != null
      modifies this`output, this`fatalErr, this`errorOutput, this`panicked
      ensures var r := Report(CallSpec(Route(cmd).verb, Route(cmd).url, Route(cmd).srcFile, env, profile.maxAPITries, transport).reply,
                              profile.output, env.indent);
        && (r.Success? ==>
              && output == old(output) + Lines(r.value)
              && fatalErr == old(fatalErr) && errorOutput == old(errorOutput) && panicked == old(panicked))
        && (r == Failure(NilDereference) ==>
              output == old(output) && fatalErr == old(fatalErr) && errorOutput == old(errorOutput) && panicked)
        && (r.Failure? && r.error != NilDereference ==>
              && output == old(output) && fatalErr == Some(r.error) && errorOutput == old(errorOutput) + [r.error]
              && panicked == old(panicked))
    {
      var call := Route(cmd);
      var err := DoCallAndRep(call.verb, call.url, call.srcFile, transport);
      if err == Some(NilDereference) {
        panicked := true;
      } else if err.Some? {
        FatalError(err.value);
      }
    }

    /** getInfringementPage: one page, starting at the cursor (the first page when it is ""). */
    method GetInfringementPage(path: string, cursor: string, transport: Transport) returns (page: Result<InfringementsPage, Error>)
      requires profile != null
      ensures page == FetchPage(env, profile.maxAPITries, transport, PageURL(path, cursor))
    {
      var url := path;
      if cursor != "" {
        url := url + "?cursor=" + cursor;
      }
      var out := DoCall("GET", url, "", transport);
      NoBodyIgnoresSource("GET", url, "", "", env, env.pipe, env.files, profile.maxAPITries, transport);
      if out.reply.err.Some? {
        return Failure(out.reply.err.value);
      }
      if out.reply.rep.None? {
        return Failure(NilDereference);
      }
      var rep := out.reply.rep.value;
      if rep.statusCode != StatusOK {
        return Failure(UnexpectedResponse);
      }
      match rep.body
      case None =>
        return Failure(NilDereference);
      case Some(Unreadable(e)) =>
        return Failure(e);
      case Some(Content(data)) =>
        page := env.unmarshal(data);
    }

    /**
     * doGetEULALicenseInfringements: fetches pages, following each page's
     * cursor, until a page has an empty cursor, then writes the header and
     * every record as one CSV document. Any failed fetch returns its error
     * and writes nothing. The k-th page request uses network(k); the
     * requirement says the service ends the pagination at some request.
     */
    method ExportInfringements(vendorID: string, year: int, month: int, network: nat -> Transport)
      returns (err: Option<Error>, fetched: seq<Result<InfringementsPage, Error>>, urls: seq<string>)
      requires profile != null
      requires exists n: nat :: EndsAt(env, profile.maxAPITries, network, n)
      modifies this`output
      ensures Trace(fetched) && |urls| == |fetched|
      ensures fetched == Fetches(env, profile.maxAPITries, network, urls)
      ensures FollowsCursors(InfringementsPath(vendorID, year, month), fetched, urls)
      ensures Export(fetched).Success? ==> err == None && output == old(output) + [Csv(Export(fetched).value)]
      ensures Export(fetched).Failure? ==> err == Some(Export(fetched).error) && output == old(output)
    {
      var path := InfringementsPath(vendorID, year, month);
      var tries := profile.maxAPITries;
      var records := [Header];
      var cursor := "";
      fetched, urls := [], [];
      ghost var n: nat :| EndsAt(env, tries, network, n);
      while true
        invariant Progress(env, tries, network, path, fetched, urls, records)
        invariant cursor == NextCursor(fetched)
        invariant |fetched| <= n
        invariant output == old(output)
        decreases n - |fetched|
      {
        var page := GetInfringementPage(path, cursor, network(|fetched|));
        if |fetched| == n {
          assert Final(FetchPage(env, tries, network(n), PageURL(path, cursor)));
        }
        var url := PageURL(path, cursor);
        if page.Failure? {
          RunFails(env, tries, network, path, fetched, urls, records, page);
          return Some(page.error), fetched + [page], urls + [url];
        }
        var more := AppendPageRecords(records, page.value);
        RunStep(env, tries, network, path, fetched, urls, records, page, more);
        fetched, urls, records := fetched + [page], urls + [url], more;
        cursor := page.value.cursor;
        if cursor == "" {
          break;
        }
      }
      output := output + [Csv(records)];
      err := None;
    }

    /**
     * getEULALicenseInfringements: the export, with a failure becoming the
     * fatal error, except a nil dereference, which panics inside the export.
     */
    method GetEULALicenseInfringements(vendorID: string, year: int, month: int, network: nat -> Transport)
      returns (ghost fetched: seq<Result<InfringementsPage, Error>>, ghost urls: seq<string>)
      requires profile != null
      requires exists n: nat :: EndsAt(env, profile.maxAPITries, network, n)
      modifies this`output, this`fatalErr, this`errorOutput, this`panicked
      ensures Trace(fetched) && |urls| == |fetched|
      ensures fetched == Fetches(env, profile.maxAPITries, network, urls)
      ensures FollowsCursors(InfringementsPath(vendorID, year, month), fetched, urls)
      ensures Export(fetched).Success? ==>
        && output == old(output) + [Csv(Export(fetched).value)]
        && fatalErr == old(fatalErr) && errorOutput == old(errorOutput) && panicked == old(panicked)
      ensures Export(fetched) == Failure(NilDereference) ==>
        output == old(output) && fatalErr == old(fatalErr) && errorOutput == old(errorOutput) && panicked
      ensures Export(fetched).Failure? && Export(fetched).error != NilDereference ==>
        && output == old(output) && fatalErr == Some(Export(fetched).error)
        && errorOutput == old(errorOutput) + [Export(fetched).error] && panicked == old(panicked)
    {
      var err, pages, requested := ExportInfringements(vendorID, year, month, network);
      fetched, urls := pages, requested;
      if err == Some(NilDereference) {
        panicked := true;
      } else if err.Some? {
        FatalError(err.value);
      }
    }
  }
}
