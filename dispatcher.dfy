/**
 * ReflectiveToolDispatcher.dispatch: a tool-call request becomes a
 * ToolCallResult whatever happens. The pipeline runs, in order: the null
 * checks, id resolution, name validation, registry lookup, the @Tool
 * re-check, argument preparation, invocation and the result envelope.
 * Java reflection and Jackson are the uninterpreted oracle `Jvm`; the clock
 * is a parameter.
 */
module Dispatcher {
  import opened Wrappers
  import opened JavaLang
  import opened Registry

  // ---------------------------------------------------------------------------
  // Shapes consumed and produced

  /** ToolCall.FunctionDetails: the tool name and its arguments as a JSON text. */
  datatype FunctionDetails = FunctionDetails(name: Option<string>, arguments: Option<string>)

  /** ToolCall, the request as it arrives from the LLM. */
  datatype ToolCall = ToolCall(id: Option<string>, callType: Option<string>, description: Option<string>,
                               functionDetails: Option<FunctionDetails>)

  /** ToolCallResult, serialised as { role, tool_call_id, content }. */
  datatype ToolCallResult = ToolCallResult(role: string, toolCallId: string, content: JObject)

  /** What ObjectMapper.readValue does with a payload: a value (possibly null) or a JsonProcessingException. */
  datatype Decoded = Decoded(value: JObject) | ParseError(message: Option<string>)

  /** What the body of a tool method does when run: return a value or throw. */
  datatype Completion = Returned(value: JObject) | Threw(causeMessage: Option<string>)

  /**
   * The foreign parts: Jackson's readValue, the bodies of the tool methods,
   * and the message of the IllegalArgumentException that Method.invoke raises
   * when given `given` arguments for a method declaring `expected`.
   */
  datatype Jvm = Jvm(readValue: (string, JavaClass) -> Decoded,
                     execute: (Provider, Method, seq<JObject>) -> Completion,
                     argumentMismatch: (nat, nat) -> Option<string>)

  /** The outcome of Method.invoke. */
  datatype Invocation =
    | Completed(value: JObject)             // the body returned
    | TargetFailed(cause: Option<string>)   // InvocationTargetException: the body threw
    | IllegalAccess                         // IllegalAccessException
    | IllegalArgument(message: Option<string>)  // wrong number of arguments

  /** The failure categories, one per throw site of dispatch. */
  datatype ErrorKind =
    | NullRequest | BlankName | UnknownTool | NotAnnotated
    | MissingArguments | MalformedArguments | InaccessibleMethod
    | HandlerFailed | Unexpected

  datatype Exit = Succeeded | Failed(kind: ErrorKind)

  /**
   * One run of dispatch: the result it returns, which exit it took, and the
   * arguments the tool method's body was run with (None if it never ran).
   */
  datatype Dispatched = Dispatched(result: ToolCallResult, exit: Exit, executed: Option<seq<JObject>>)

  /** A stage either passes a value on or throws a ToolCallException. */
  datatype Checked<T> = Pass(value: T) | Reject(kind: ErrorKind, message: string)

  // ---------------------------------------------------------------------------
  // Constants and messages

  const TOOL_ROLE := "tool"
  const EARLY_ERROR_ID := "unknown_id_early_error"
  const SYNTHESIZED_ID_PREFIX := "unknown_id_"
  const UNKNOWN_TOOL_NAME := "unknown_tool"
  const NULL_REQUEST_MESSAGE := "ToolCall request or its function details cannot be null."
  const BLANK_NAME_MESSAGE := "Tool name cannot be null or empty in function details."

  function UnknownToolMessage(name: string): string {
    "No tool registered with name: " + name
  }

  function NotAnnotatedMessage(name: string): string {
    "Method for tool '" + name + "' is not annotated with @Tool, inconsistent registration state."
  }

  function MissingArgumentsMessage(name: string): string {
    "Tool '" + name + "' expects arguments, but arguments JSON string is missing or empty."
  }

  function MalformedArgumentsMessage(name: string, expected: JavaClass, payload: string): string {
    "Failed to parse arguments JSON for tool '" + name + "'. Expected format for " + expected.simpleName
      + ". JSON: " + payload
  }

  function InaccessibleMessage(name: string): string {
    "Cannot access method for tool '" + name + "'."
  }

  function HandlerFailedMessage(name: string, cause: Option<string>): string {
    "Execution of tool '" + name + "' failed: " + Show(cause)
  }

  function UnexpectedMessage(message: Option<string>): string {
    "Unexpected internal error during dispatch: " + Show(message)
  }

  // ---------------------------------------------------------------------------
  // Correlation ids

  /** The id assigned when the request has none: "unknown_id_" + currentTimeMillis(). */
  function SynthesizedId(clock: Long): (r: string)
    ensures |r| > |SYNTHESIZED_ID_PREFIX| && r[..|SYNTHESIZED_ID_PREFIX|] == SYNTHESIZED_ID_PREFIX
    ensures r[|SYNTHESIZED_ID_PREFIX|..] == LongToString(clock)
  {
    SYNTHESIZED_ID_PREFIX + LongToString(clock)
  }

  lemma SynthesizedIdIsNotBlank(clock: Long)
    ensures !IsBlank(SynthesizedId(clock))
  {
  }

  /** Ids synthesized at different instants differ, so they still tell requests apart. */
  lemma SynthesizedIdsDiffer(clock1: Long, clock2: Long)
    requires clock1 != clock2
    ensures SynthesizedId(clock1) != SynthesizedId(clock2)
  {
    var n := |SYNTHESIZED_ID_PREFIX|;
    assert SynthesizedId(clock1)[n..] == LongToString(clock1);
    assert SynthesizedId(clock2)[n..] == LongToString(clock2);
    LongToStringRoundTrip(clock1);
    LongToStringRoundTrip(clock2);
  }

  /** The id every result after the null checks carries. */
  function ResolveId(id: Option<string>, clock: Long): (r: string)
    ensures !IsBlank(r)
    ensures NullOrBlank(id) ==> r == SynthesizedId(clock)
    ensures !NullOrBlank(id) ==> r == id.value
  {
    if NullOrBlank(id) then SynthesizedIdIsNotBlank(clock); SynthesizedId(clock) else id.value
  }

  // ---------------------------------------------------------------------------
  // Stages

  /** The tool name must be present and not blank; it is used untrimmed. */
  function ValidateName(name: Option<string>): (r: Checked<string>)
    ensures r.Pass? <==> !NullOrBlank(name)
    ensures r.Pass? ==> r.value == name.value
    ensures r.Reject? ==> r == Reject(BlankName, BLANK_NAME_MESSAGE)
  {
    if NullOrBlank(name) then Reject(BlankName, BLANK_NAME_MESSAGE) else Pass(name.value)
  }

  /** getMethodAndValidate: the handler's method, provided it carries @Tool. */
  function GetMethodAndValidate(handler: ToolHandler, name: string): (r: Checked<Method>)
    ensures r.Pass? <==> handler.toolMethod.annotated
    ensures r.Pass? ==> r.value == handler.toolMethod
    ensures r.Reject? ==> r == Reject(NotAnnotated, NotAnnotatedMessage(name))
  {
    if handler.toolMethod.annotated then Pass(handler.toolMethod)
    else Reject(NotAnnotated, NotAnnotatedMessage(name))
  }

  /**
   * The argument object (argsPojo). A method with parameters needs a
   * non-blank payload, decoded into its first parameter type; a method
   * without parameters never looks at the payload.
   */
  function PrepareArgument(jvm: Jvm, m: Method, name: string, payload: Option<string>): (r: Checked<JObject>)
    ensures |m.parameterTypes| == 0 ==> r == Pass(JNull)
    ensures |m.parameterTypes| > 0 && NullOrBlank(payload) ==> r == Reject(MissingArguments, MissingArgumentsMessage(name))
    ensures |m.parameterTypes| > 0 && !NullOrBlank(payload) ==>
              match jvm.readValue(payload.value, m.parameterTypes[0])
              case Decoded(v) => r == Pass(v)
              case ParseError(_) =>
                r == Reject(MalformedArguments, MalformedArgumentsMessage(name, m.parameterTypes[0], payload.value))
  {
    if |m.parameterTypes| > 0 then
      if NullOrBlank(payload) then Reject(MissingArguments, MissingArgumentsMessage(name))
      else
        var expected := m.parameterTypes[0];
        match jvm.readValue(payload.value, expected)
        case ParseError(_) => Reject(MalformedArguments, MalformedArgumentsMessage(name, expected, payload.value))
        case Decoded(v) => Pass(v)
    else Pass(JNull)
  }

  /** The argument list passed to Method.invoke: argsPojo, or nothing when it is null. */
  function Arguments(argsPojo: JObject): (args: seq<JObject>)
    ensures |args| <= 1
    ensures args == [] <==> argsPojo == JNull
    ensures argsPojo != JNull ==> args == [argsPojo]
  {
    if argsPojo != JNull then [argsPojo] else []
  }

  /**
   * Method.invoke on the handler's provider: the access check comes first,
   * then the argument count, and only then does the body run.
   */
  function Invoke(jvm: Jvm, handler: ToolHandler, args: seq<JObject>): (o: Invocation)
    ensures o.IllegalAccess? <==> !handler.toolMethod.accessible
    ensures o.IllegalArgument? <==> handler.toolMethod.accessible && |args| != |handler.toolMethod.parameterTypes|
    ensures o.IllegalArgument? ==> o.message == jvm.argumentMismatch(|args|, |handler.toolMethod.parameterTypes|)
    ensures o.Completed? || o.TargetFailed? ==>
              o == match jvm.execute(handler.provider, handler.toolMethod, args)
                   case Returned(v) => Completed(v)
                   case Threw(cause) => TargetFailed(cause)
  {
    var m := handler.toolMethod;
    if !m.accessible then IllegalAccess
    else if |args| != |m.parameterTypes| then IllegalArgument(jvm.argumentMismatch(|args|, |m.parameterTypes|))
    else
      match jvm.execute(handler.provider, m, args)
      case Returned(v) => Completed(v)
      case Threw(cause) => TargetFailed(cause)
  }

  // ---------------------------------------------------------------------------
  // Result envelopes. The tool name is accepted and not stored.

  function CreateSuccessToolCallResult(role: string, toolCallId: string, content: JObject, toolName: string): (r: ToolCallResult)
    ensures r.role == role && r.toolCallId == toolCallId && r.content == content
  {
    ToolCallResult(role, toolCallId, content)
  }

  function CreateErrorToolCallResult(role: string, toolCallId: string, errorMessage: string, toolName: string): (r: ToolCallResult)
    ensures r.role == role && r.toolCallId == toolCallId && r.content == JString(errorMessage)
  {
    ToolCallResult(role, toolCallId, JString(errorMessage))
  }

  /** The ToolCallException handler: the exception's message becomes the content. */
  function Rejected(id: string, kind: ErrorKind, message: string, toolName: string): (d: Dispatched)
    ensures d.result == ToolCallResult(TOOL_ROLE, id, JString(message))
    ensures d.exit == Failed(kind) && d.executed.None?
  {
    Dispatched(CreateErrorToolCallResult(TOOL_ROLE, id, message, toolName), Failed(kind), None)
  }

  /**
   * The invocation step and everything after it: the success return, the
   * InvocationTargetException and IllegalAccessException handlers, and the
   * generic handler that Method.invoke's IllegalArgumentException reaches.
   */
  function Complete(id: string, name: string, args: seq<JObject>, outcome: Invocation): (d: Dispatched)
    ensures d.result.role == TOOL_ROLE && d.result.toolCallId == id
    ensures d.executed.Some? <==> outcome.Completed? || outcome.TargetFailed?
    ensures d.executed.Some? ==> d.executed.value == args
    ensures d.exit == match outcome
                      case Completed(_) => Succeeded
                      case TargetFailed(_) => Failed(HandlerFailed)
                      case IllegalAccess => Failed(InaccessibleMethod)
                      case IllegalArgument(_) => Failed(Unexpected)
    ensures d.result.content == match outcome
                                case Completed(v) => v
                                case TargetFailed(cause) => JString(HandlerFailedMessage(name, cause))
                                case IllegalAccess => JString(InaccessibleMessage(name))
                                case IllegalArgument(message) => JString(UnexpectedMessage(message))
  {
    match outcome
    case Completed(v) =>
      Dispatched(CreateSuccessToolCallResult(TOOL_ROLE, id, v, name), Succeeded, Some(args))
    case TargetFailed(cause) =>
      Dispatched(CreateErrorToolCallResult(TOOL_ROLE, id, HandlerFailedMessage(name, cause), name),
                 Failed(HandlerFailed), Some(args))
    case IllegalAccess =>
      Rejected(id, InaccessibleMethod, InaccessibleMessage(name), name)
    case IllegalArgument(message) =>
      // Not a ToolCallException: it reaches the generic handler, and by now the id is resolved.
      Dispatched(CreateErrorToolCallResult(TOOL_ROLE, id, UnexpectedMessage(message), name), Failed(Unexpected), None)
  }

  // ---------------------------------------------------------------------------
  // dispatch

  /** The whole pipeline. It is total: every input, a null request included, ends in a result. */
  function Run(registry: ToolRegistry, jvm: Jvm, clock: Long, call: Option<ToolCall>): (d: Dispatched)
    reads registry
    ensures d.result.role == TOOL_ROLE
    ensures d.executed.Some? <==> d.exit == Succeeded || d.exit == Failed(HandlerFailed)
    ensures call.None? || call.value.functionDetails.None? ==>
              d == Dispatched(ToolCallResult(TOOL_ROLE, EARLY_ERROR_ID, JString(NULL_REQUEST_MESSAGE)), Failed(NullRequest), None)
    ensures call.Some? && call.value.functionDetails.Some? ==> d.result.toolCallId == ResolveId(call.value.id, clock)
    // The body runs only after every check, with as many arguments as the method declares.
    ensures d.executed.Some? ==>
              && call.Some? && call.value.functionDetails.Some?
              && var name := call.value.functionDetails.value.name;
              && !NullOrBlank(name) && name.value in registry.tools
              && var m := registry.tools[name.value].toolMethod;
              && m.annotated && m.accessible && |d.executed.value| == |m.parameterTypes|
  {
    if call.None? || call.value.functionDetails.None? then
      Rejected(EARLY_ERROR_ID, NullRequest, NULL_REQUEST_MESSAGE, UNKNOWN_TOOL_NAME)
    else
      var id := ResolveId(call.value.id, clock);
      var details := call.value.functionDetails.value;
      match ValidateName(details.name)
      case Reject(kind, message) =>
        Rejected(id, kind, message, if details.name.Some? then details.name.value else UNKNOWN_TOOL_NAME)
      case Pass(name) =>
        match registry.GetToolHandler(name)
        case None => Rejected(id, UnknownTool, UnknownToolMessage(name), name)
        case Some(handler) =>
          match GetMethodAndValidate(handler, name)
          case Reject(kind, message) => Rejected(id, kind, message, name)
          case Pass(m) =>
            match PrepareArgument(jvm, m, name, details.arguments)
            case Reject(kind, message) => Rejected(id, kind, message, name)
            case Pass(argsPojo) =>
              var args := Arguments(argsPojo);
              Complete(id, name, args, Invoke(jvm, handler, args))
  }

  /** ReflectiveToolDispatcher.dispatch over the dispatcher's registry. */
  function Dispatch(registry: ToolRegistry, jvm: Jvm, clock: Long, call: Option<ToolCall>): (r: ToolCallResult)
    reads registry
    ensures r.role == TOOL_ROLE
  {
    Run(registry, jvm, clock, call).result
  }
}
