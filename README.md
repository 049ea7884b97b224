# npm-search MCP server: the tool-call dispatcher

This project models the request handling of `npm-search-server`. This is a
Model Context Protocol server that offers one tool, `search_npm_packages`.
The tool runs `npm search <query>` and returns what that command printed.
Everything modelled lives in `index.ts`, and all of it is pure:

- `isValidSearchArgs`, the argument validator. `Json` models the JavaScript
  `typeof` and property access it uses. `SearchArgs` models the validator
  itself, with its short-circuit order kept.
- The list-tools handler (`Tools`). It returns a constant descriptor. The
  descriptor's input schema is read as a structural check and proved to
  accept exactly what the validator accepts.
- The call-tool handler (`Dispatch`). It is one function of the tool name,
  the argument slot and the outcome of the external command. The outcome is
  either the two captured output streams or a thrown value. The function
  returns the single response and the command line it asked the shell to
  run, if any. The try block and the catch block are separate functions,
  mirroring the source.
- `Diagnosis` gives a client's reading of a response back into a cause. It
  proves that the handler's messages determine their cause, so two calls
  with different causes never share a response.

An invalid argument bag, `{}` included, is answered with the fixed message
`Invalid search arguments`, which does not name the missing `query` field.

## Model

| member | source | states |
|---|---|---|
| `Json.TypeOf` | index.ts:16 | JavaScript `typeof` on an argument slot: "object" exactly for null, arrays and objects, "undefined" exactly for a missing slot, and so on for string, number and boolean |
| `Json.Member` | index.ts:16 | `args.query`: defined only on a slot that is neither undefined nor null; it is the own field of an object, and undefined otherwise |
| `SearchArgs.IsValidSearchArgs` | index.ts:15-16 | the validator's expression, evaluated left to right so that the property access runs only on a slot that is neither undefined nor null; when it holds, the slot is an object whose `query` field is a string |
| `SearchArgs.IsValidSearchArgsExactly` | index.ts:15-16 | the validator holds exactly when the arguments are a JSON object whose `query` field is a string |
| `SearchArgs.ExtraFieldsIgnored` | index.ts:15-16 | adding, replacing or removing any field other than `query` never changes the validator's verdict |
| `SearchArgs.Query` | index.ts:80 | on validated arguments, the query is the string held in the `query` field |
| `Tools.ListTools` | index.ts:45-63 | exactly one tool, named `search_npm_packages`; its input schema is an object type with the single string property `query` and `required = ["query"]`; the handler takes no input |
| `Tools.AdvertisedSchemaMatchesValidator` | index.ts:50-60 | an argument slot conforms to the advertised input schema exactly when the call handler's validator accepts it |
| `Dispatch.SearchCommand` | index.ts:83 | the command line is `npm search ` followed by the query unchanged |
| `Dispatch.TryBlock` | index.ts:82-98 | the try block returns exactly when the command completed with empty standard error, and then returns one `text` block holding standard output; non-empty standard error raises an internal error `npm search error: <stderr>`; a raised value propagates unchanged |
| `Dispatch.Catch` | index.ts:99-112 | the catch block always yields a protocol error: a protocol error unchanged, an `Error` as internal error `Unexpected error: <message>`, anything else as internal error `Unexpected error occurred` |
| `Dispatch.CallTool` | index.ts:65-113 | a command is requested exactly when the name is `search_npm_packages` and the arguments pass the validator, and that command is `npm search <query>` |
| `Dispatch.UnknownToolRejected` | index.ts:66-71 | any other tool name gives `MethodNotFound` with `Unknown tool: <name>` and no command, whatever the arguments |
| `Dispatch.InvalidArgumentsRejected` | index.ts:73-78 | with the right name, arguments that are not an object with a string `query` give `InvalidParams` with `Invalid search arguments` and no command |
| `Dispatch.CommandIsQueryVerbatim` | index.ts:80-83 | for an object whose `query` is the string q, the command requested is exactly `npm search ` + q, with no escaping |
| `Dispatch.NoCommandNoDependence` | index.ts:66-83 | when no command is requested, the response is the same for every outcome of the command |
| `Dispatch.StderrIsInternalError` | index.ts:84-89 | non-empty standard error gives `InternalError` with `npm search error: <stderr>`, whatever standard output holds, and it is not re-wrapped by the catch |
| `Dispatch.StdoutIsTheResult` | index.ts:91-98 | empty standard error gives a success with exactly one `text` block equal to standard output |
| `Dispatch.SuccessExactly` | index.ts:82-98 | a success happens if and only if the name is right, the arguments are valid and the command completed with empty standard error; its content is then the single text block of standard output |
| `Dispatch.FailureCodesClosed` | index.ts:65-113 | every failure carries `MethodNotFound`, `InvalidParams` or `InternalError`, except a protocol error raised by the command itself, which is passed on with its own code and message |
| `Dispatch.RaisedErrorsTranslated` | index.ts:103-112 | a thrown `Error` becomes `InternalError` with `Unexpected error: <message>`; any other thrown value becomes `InternalError` with `Unexpected error occurred` |
| `Dispatch.CatchIdempotent` | index.ts:100-102 | applying the catch block to its own result changes nothing |
| `Diagnosis.DiagnoseCallTool` | index.ts:65-113 | reading a response back gives the cause stated from the inputs: unknown name, invalid arguments, the standard error text, the standard output text, or the thrown message |
| `Diagnosis.ResponsesDistinguishCauses` | index.ts:65-113 | two calls whose causes differ never produce the same response; both calls exclude a protocol error raised by the command itself |

## Left out

- The MCP SDK is not part of this model. That covers `Server`, `StdioServerTransport`, request-schema matching and JSON-RPC framing (index.ts:2-9, 22-32, 117-121). Response ordering is therefore not modelled. The SDK also checks that `arguments` is absent or a record before the handler sees it; the model accepts any JSON value there instead.
- The SDK's `McpError` constructor may decorate the message it is given before it goes on the wire. That code is not part of this model, so a failure's message is the string the handler passes to the constructor.
- `child_process.exec` and `util.promisify` (index.ts:10-13, 83) run an OS process. The command's result is an input instead: `Completed(stdout, stderr)` or a raised value. What `npm search` prints is not modelled.
- The SIGINT handler, `server.close()`, `process.exit` and the `NpmSearchServer` constructor and `run` (index.ts:19-42, 117-125) are process lifecycle wiring.
- `console.error` logging and `onerror` (index.ts:37, 120, 125) are side-channel output with no behaviour to state.
- The handler is async. Only one request is modelled at a time, and interleaving is left out.
- JSON numbers are reals rather than IEEE doubles. The validator never inspects them.
- Diagnosis.DiagnoseCallTool: a protocol error raised by the command itself passes through unread, so its message can mimic any other cause. For example, a raised `MethodNotFound` error with `Unknown tool: x` gives the same response as calling the unknown tool `x`. The lemma excludes that outcome. In practice `exec` never raises one.
- Diagnosis.ResponsesDistinguishCauses: excludes the same outcome for both calls, for the same reason.
