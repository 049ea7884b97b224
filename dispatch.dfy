/** The call-tool handler: resolve the tool name, validate the arguments,
    run `npm search <query>`, and turn whatever happened into exactly one
    response. The external command is not run here; its outcome is an input,
    and the result reports whether (and with which command line) it was
    requested, so that "the command is never run" can be stated. */
module Dispatch {
  import opened Json
  import opened SearchArgs
  import opened Tools

  /** Protocol error codes. The handler itself only produces the first three,
      whose JSON-RPC numbers are -32601, -32602 and -32603. `OtherCode` stands
      for any other code an already-built protocol error may carry when it
      passes through the catch block unchanged; it never holds one of those
      three numbers, so each wire code has exactly one value here. */
  datatype ErrorCode = MethodNotFound | InvalidParams | InternalError | OtherCode(value: OtherCodeValue)

  type OtherCodeValue = n: int | n != -32601 && n != -32602 && n != -32603

  /** A value thrown inside the try block: a protocol error, a JavaScript
      `Error` with its message, or anything else that can be thrown. */
  datatype Exception =
    | McpError(code: ErrorCode, message: string)
    | JsError(message: string)
    | NonErrorValue

  /** What running the search command produced: its two captured output
      streams, or a thrown value. */
  datatype Outcome = Completed(stdout: string, stderr: string) | Raised(error: Exception)

  /** A content block of a success response; `kind` is the block's `type`. */
  datatype ContentBlock = ContentBlock(kind: string, text: string)

  datatype Response = Success(content: seq<ContentBlock>) | Failure(code: ErrorCode, message: string)

  /** The response together with the command line that was handed to the
      shell, if any was. */
  datatype Handled = Handled(response: Response, command: Option<string>)

  /** The fixed parts of the handler's messages. */
  const UnknownToolPrefix: string := "Unknown tool: "
  const InvalidArgumentsMessage: string := "Invalid search arguments"
  const SearchErrorPrefix: string := "npm search error: "
  const UnexpectedErrorPrefix: string := "Unexpected error: "
  const UnexpectedNonErrorMessage: string := "Unexpected error occurred"

  /** The result of the try block: a returned response or a raised value. */
  datatype TryResult = Returned(response: Response) | Thrown(exception: Exception)

  /** The shell command for a query: the query is spliced in as it is. */
  function SearchCommand(query: string): (c: string)
    ensures |c| == |"npm search "| + |query|
    ensures c[..|"npm search "|] == "npm search " && c[|"npm search "|..] == query
  {
    "npm search " + query
  }

  /** The try block, given what the command produced. Any diagnostic output
      on standard error is a failure, whatever standard output holds. */
  function TryBlock(outcome: Outcome): (r: TryResult)
    ensures r.Returned? <==> outcome.Completed? && outcome.stderr == ""
    ensures r.Returned? ==> r.response == Success([ContentBlock("text", outcome.stdout)])
    ensures outcome.Raised? ==> r == Thrown(outcome.error)
    ensures outcome.Completed? && outcome.stderr != "" ==>
      r == Thrown(McpError(InternalError, SearchErrorPrefix + outcome.stderr))
  {
    match outcome
    case Completed(stdout, stderr) =>
      if stderr != "" then Thrown(McpError(InternalError, SearchErrorPrefix + stderr))
      else Returned(Success([ContentBlock("text", stdout)]))
    case Raised(e) => Thrown(e)
  }

  /** The catch block: protocol errors are rethrown as they are, a JavaScript
      `Error` becomes an internal error quoting its message, and anything
      else an internal error with a fixed message. */
  function Catch(e: Exception): (r: Exception)
    ensures r.McpError?
    ensures e.McpError? ==> r == e
    ensures e.JsError? ==> r == McpError(InternalError, UnexpectedErrorPrefix + e.message)
    ensures e.NonErrorValue? ==> r == McpError(InternalError, UnexpectedNonErrorMessage)
  {
    match e
    case McpError(_, _) => e
    case JsError(message) => McpError(InternalError, UnexpectedErrorPrefix + message)
    case NonErrorValue => McpError(InternalError, UnexpectedNonErrorMessage)
  }

  /** The call-tool handler. The name is checked first, the arguments second,
      and only then is the command requested; the outcome is only consulted
      when the command was requested. */
  function CallTool(name: string, args: Slot, outcome: Outcome): (h: Handled)
    ensures h.command.Some? <==> name == SearchToolName && IsValidSearchArgs(args)
    ensures h.command.Some? ==> h.command.value == SearchCommand(Query(args))
  {
    if name != SearchToolName then
      Handled(Failure(MethodNotFound, UnknownToolPrefix + name), None)
    else if !IsValidSearchArgs(args) then
      Handled(Failure(InvalidParams, InvalidArgumentsMessage), None)
    else
      var command := SearchCommand(Query(args));
      match TryBlock(outcome)
      case Returned(response) => Handled(response, Some(command))
      case Thrown(e) =>
        var error := Catch(e);
        Handled(Failure(error.code, error.message), Some(command))
  }

  // ---------------------------------------------------------------------
  // Properties of the call-tool handler

  /** An unknown tool name is rejected with `MethodNotFound` naming it, before
      the arguments are looked at and without running anything. */
  lemma UnknownToolRejected(name: string, args: Slot, outcome: Outcome)
    requires name != SearchToolName
    ensures CallTool(name, args, outcome) == Handled(Failure(MethodNotFound, UnknownToolPrefix + name), None)
  {
  }

  /** With the right name, arguments that are not an object with a string
      `query` are rejected with `InvalidParams` without running anything. */
  lemma InvalidArgumentsRejected(args: Slot, outcome: Outcome)
    requires !(args.Some? && args.value.JObject? && "query" in args.value.fields
               && args.value.fields["query"].JString?)
    ensures CallTool(SearchToolName, args, outcome)
            == Handled(Failure(InvalidParams, InvalidArgumentsMessage), None)
  {
  }

  /** With the right name and a string `query`, the command requested is
      `npm search ` followed by the query exactly as given. */
  lemma CommandIsQueryVerbatim(fields: map<string, Value>, query: string, outcome: Outcome)
    requires "query" in fields && fields["query"] == JString(query)
    ensures CallTool(SearchToolName, Some(JObject(fields)), outcome).command == Some("npm search " + query)
  {
  }

  /** When no command is requested, the response cannot depend on the
      outcome of one. */
  lemma NoCommandNoDependence(name: string, args: Slot, outcome: Outcome, other: Outcome)
    requires CallTool(name, args, outcome).command.None?
    ensures CallTool(name, args, other) == CallTool(name, args, outcome)
  {
  }

  /** Non-empty standard error is an internal error quoting it, whatever
      standard output holds; it is not re-wrapped as an unexpected error. */
  lemma StderrIsInternalError(args: Slot, stdout: string, stderr: string)
    requires IsValidSearchArgs(args) && stderr != ""
    ensures CallTool(SearchToolName, args, Completed(stdout, stderr)).response
            == Failure(InternalError, SearchErrorPrefix + stderr)
  {
  }

  /** Empty standard error is a success with one text block holding standard
      output verbatim. */
  lemma StdoutIsTheResult(args: Slot, stdout: string)
    requires IsValidSearchArgs(args)
    ensures CallTool(SearchToolName, args, Completed(stdout, "")).response
            == Success([ContentBlock("text", stdout)])
  {
  }

  /** A success response happens exactly when the name is right, the
      arguments are valid and the command completed with nothing on standard
      error; and then it is the single text block of standard output. */
  lemma SuccessExactly(name: string, args: Slot, outcome: Outcome)
    ensures CallTool(name, args, outcome).response.Success? <==>
      name == SearchToolName && IsValidSearchArgs(args) && outcome.Completed? && outcome.stderr == ""
    ensures CallTool(name, args, outcome).response.Success? ==>
      CallTool(name, args, outcome).response.content == [ContentBlock("text", outcome.stdout)]
  {
  }

  /** Every failure carries one of the three codes the handler uses, unless
      the command itself raised a protocol error, which passes through as it
      was raised. */
  lemma FailureCodesClosed(name: string, args: Slot, outcome: Outcome)
    ensures var r := CallTool(name, args, outcome).response;
      r.Failure? ==>
        if outcome.Raised? && outcome.error.McpError? && CallTool(name, args, outcome).command.Some?
        then r == Failure(outcome.error.code, outcome.error.message)
        else r.code == MethodNotFound || r.code == InvalidParams || r.code == InternalError
  {
  }

  /** Failures raised by the command: a JavaScript `Error` is reported with
      its message, anything else with a fixed message. */
  lemma RaisedErrorsTranslated(args: Slot, e: Exception)
    requires IsValidSearchArgs(args)
    ensures e.JsError? ==> CallTool(SearchToolName, args, Raised(e)).response
                            == Failure(InternalError, UnexpectedErrorPrefix + e.message)
    ensures e.NonErrorValue? ==> CallTool(SearchToolName, args, Raised(e)).response
                                 == Failure(InternalError, UnexpectedNonErrorMessage)
  {
  }

  /** The catch block is idempotent: what it produces is a protocol error,
      which it passes on unchanged. */
  lemma CatchIdempotent(e: Exception)
    ensures Catch(Catch(e)) == Catch(e)
  {
  }
}
