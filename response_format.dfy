/**
 * writeResponse of els_cli.go: which lines a response produces under each
 * output mode. The body is read and pretty-printed before anything is
 * written, so a read or indentation failure writes nothing.
 */
module ResponseFormat {
  import opened Wrappers
  import opened Errors
  import opened Decimal
  import opened RequestRetry
  import opened Profiles

  const StatusNoContent: int := 204

  /** A line written to the output stream: the status code, or the indented body. */
  datatype OutLine = StatusLine(code: int) | BodyLine(text: string)

  /** The text fmt.Fprintln writes for a line, without its newline. */
  function Text(l: OutLine): string {
    match l
    case StatusLine(code) => Itoa(code)
    case BodyLine(text) => text
  }

  /** getBody: the body is read only outside statusCodeOnly, when present, and not for 204. */
  predicate GetsBody(mode: string, rep: Response) {
    mode != OutputStatusCodeOnly && rep.body.Some? && rep.statusCode != StatusNoContent
  }

  /** The pretty-printed body: read it, then indent it; "" when the body is not read. */
  function PrettyBody(mode: string, rep: Response, indent: string -> Result<string, GoError>): (r: Result<string, Error>)
    ensures !GetsBody(mode, rep) ==> r == Success("")
    ensures GetsBody(mode, rep) && rep.body.value.Unreadable? ==> r == Failure(rep.body.value.cause)
    ensures GetsBody(mode, rep) && rep.body.value.Content? ==> r == indent(rep.body.value.data)
  {
    if !GetsBody(mode, rep) then Success("")
    else match rep.body.value
      case Unreadable(e) => Failure(e)
      case Content(data) => indent(data)
  }

  /** The lines writeResponse writes for a response, or the error it returns instead. */
  function ResponseLines(mode: string, rep: Response, indent: string -> Result<string, GoError>): (r: Result<seq<OutLine>, Error>)
    ensures r.Failure? <==> PrettyBody(mode, rep, indent).Failure?
    ensures r.Failure? ==> r.error == PrettyBody(mode, rep, indent).error
    ensures r.Success? ==> |r.value| <= 2
    ensures r.Success? ==> (StatusLine(rep.statusCode) in r.value <==> mode != OutputBodyOnly)
    ensures r.Success? ==> forall k :: 0 <= k < |r.value| && r.value[k].StatusLine? ==> k == 0
    ensures r.Success? ==> forall k :: 0 <= k < |r.value| && r.value[k].BodyLine? ==>
      k == |r.value| - 1 && GetsBody(mode, rep) && r.value[k].text == PrettyBody(mode, rep, indent).value != ""
    ensures r.Success? && mode != OutputStatusCodeOnly && PrettyBody(mode, rep, indent).value != "" ==>
      BodyLine(PrettyBody(mode, rep, indent).value) in r.value
  {
    match PrettyBody(mode, rep, indent)
    case Failure(e) => Failure(e)
    case Success(pretty) =>
      var status := if mode != OutputBodyOnly then [StatusLine(rep.statusCode)] else [];
      var body := if mode != OutputStatusCodeOnly && |pretty| > 0 then [BodyLine(pretty)] else [];
      Success(status + body)
  }

  /** statusCodeOnly writes the status line alone, for every response, and never fails. */
  lemma StatusCodeOnlyWritesStatus(rep: Response, indent: string -> Result<string, GoError>)
    ensures ResponseLines(OutputStatusCodeOnly, rep, indent) == Success([StatusLine(rep.statusCode)])
  {
    assert OutputStatusCodeOnly[0] != OutputBodyOnly[0];
    assert [StatusLine(rep.statusCode)] + [] == [StatusLine(rep.statusCode)];
  }

  /** bodyOnly never writes a status line. */
  lemma BodyOnlyWritesNoStatus(rep: Response, indent: string -> Result<string, GoError>)
    ensures ResponseLines(OutputBodyOnly, rep, indent).Success? ==>
      forall l :: l in ResponseLines(OutputBodyOnly, rep, indent).value ==> l.BodyLine?
  {
  }

  /** An output mode other than bodyOnly and statusCodeOnly behaves as wholeResponse. */
  lemma UnknownModeIsWhole(mode: string, rep: Response, indent: string -> Result<string, GoError>)
    requires mode != OutputBodyOnly && mode != OutputStatusCodeOnly
    ensures ResponseLines(mode, rep, indent) == ResponseLines(OutputWhole, rep, indent)
  {
  }

  /** A 204 response writes at most its status line and cannot fail. */
  lemma NoContentWritesNoBody(mode: string, rep: Response, indent: string -> Result<string, GoError>)
    requires rep.statusCode == StatusNoContent
    ensures ResponseLines(mode, rep, indent) ==
      Success(if mode == OutputBodyOnly then [] else [StatusLine(StatusNoContent)])
  {
    assert [StatusLine(StatusNoContent)] + [] == [StatusLine(StatusNoContent)];
  }
}
