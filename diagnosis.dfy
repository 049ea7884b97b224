/** What a client can read back from a call-tool response: the messages the
    handler composes carry their cause, and no two causes share a response. */
module Diagnosis {
  import opened Json
  import opened SearchArgs
  import opened Tools
  import opened Dispatch

  /** Why a call ended the way it did. */
  datatype Cause =
    | Found(text: string)
    | UnknownTool(name: string)
    | InvalidArguments
    | SearchFailed(stderr: string)
    | Unexpected(message: string)
    | UnexpectedNonError
    | Unrecognised

  predicate HasPrefix(s: string, prefix: string)
  {
    |prefix| <= |s| && s[..|prefix|] == prefix
  }

  /** The cause of a call, stated directly from its inputs: the name is
      checked before the arguments, the arguments before the command, and
      standard error before standard output. Protocol errors raised by the
      command itself are passed on unread and are not covered. */
  function ExpectedCause(name: string, args: Slot, outcome: Outcome): (c: Cause)
    requires !(outcome.Raised? && outcome.error.McpError?)
  {
    if name != SearchToolName then UnknownTool(name)
    else if !IsValidSearchArgs(args) then InvalidArguments
    else if outcome.Completed? then
      if outcome.stderr != "" then SearchFailed(outcome.stderr) else Found(outcome.stdout)
    else if outcome.error.JsError? then Unexpected(outcome.error.message)
    else UnexpectedNonError
  }

  /** A client's reading of a response. */
  function Diagnose(r: Response): (c: Cause)
  {
    match r
    case Success(content) =>
      if |content| == 1 && content[0].kind == "text" then Found(content[0].text) else Unrecognised
    case Failure(MethodNotFound, m) =>
      if HasPrefix(m, UnknownToolPrefix) then UnknownTool(m[|UnknownToolPrefix|..]) else Unrecognised
    case Failure(InvalidParams, m) =>
      if m == InvalidArgumentsMessage then InvalidArguments else Unrecognised
    case Failure(InternalError, m) =>
      if m == UnexpectedNonErrorMessage then UnexpectedNonError
      else if HasPrefix(m, UnexpectedErrorPrefix) then Unexpected(m[|UnexpectedErrorPrefix|..])
      else if HasPrefix(m, SearchErrorPrefix) then SearchFailed(m[|SearchErrorPrefix|..])
      else Unrecognised
    case Failure(OtherCode(_), _) => Unrecognised
  }

  /** A message built as `prefix + rest` is read back as `rest`. */
  lemma PrefixReadBack(prefix: string, rest: string)
    ensures HasPrefix(prefix + rest, prefix)
    ensures (prefix + rest)[|prefix|..] == rest
  {
  }

  /** The handler's response names its cause exactly: reading it back gives
      the cause stated from the inputs. */
  lemma DiagnoseCallTool(name: string, args: Slot, outcome: Outcome)
    requires !(outcome.Raised? && outcome.error.McpError?)
    ensures Diagnose(CallTool(name, args, outcome).response) == ExpectedCause(name, args, outcome)
  {
    if name != SearchToolName {
      PrefixReadBack(UnknownToolPrefix, name);
    } else if !IsValidSearchArgs(args) {
    } else if outcome.Completed? {
      if outcome.stderr != "" {
        var m := SearchErrorPrefix + outcome.stderr;
        PrefixReadBack(SearchErrorPrefix, outcome.stderr);
        assert m[0] != UnexpectedNonErrorMessage[0];
        assert m[0] != UnexpectedErrorPrefix[0];
      }
    } else if outcome.error.JsError? {
      var m := UnexpectedErrorPrefix + outcome.error.message;
      PrefixReadBack(UnexpectedErrorPrefix, outcome.error.message);
      assert m[16] != UnexpectedNonErrorMessage[16];
    }
  }

  /** Calls with different causes never produce the same response. */
  lemma ResponsesDistinguishCauses(
    name: string, args: Slot, outcome: Outcome,
    name': string, args': Slot, outcome': Outcome)
    requires !(outcome.Raised? && outcome.error.McpError?)
    requires !(outcome'.Raised? && outcome'.error.McpError?)
    requires ExpectedCause(name, args, outcome) != ExpectedCause(name', args', outcome')
    ensures CallTool(name, args, outcome).response != CallTool(name', args', outcome').response
  {
    DiagnoseCallTool(name, args, outcome);
    DiagnoseCallTool(name', args', outcome');
  }
}
