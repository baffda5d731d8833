/**
 * What dispatch promises, stage by stage: which check fires first, the exact
 * message of each failure, which id the result carries, and when the tool
 * method's body runs and with which arguments.
 */
module DispatchProperties {
  import opened Wrappers
  import opened JavaLang
  import opened Registry
  import opened Dispatcher

  /** A blank or missing name is reported before the registry is consulted. */
  lemma RejectsBlankName(registry: ToolRegistry, jvm: Jvm, clock: Long, call: ToolCall,
                         name: Option<string>, arguments: Option<string>)
    requires call.functionDetails == Some(FunctionDetails(name, arguments))
    requires NullOrBlank(name)
    ensures Run(registry, jvm, clock, Some(call)) ==
            Dispatched(ToolCallResult(TOOL_ROLE, ResolveId(call.id, clock), JString(BLANK_NAME_MESSAGE)),
                       Failed(BlankName), None)
  {
  }

  /** A name absent from the registry is reported with the name as given. */
  lemma RejectsUnknownTool(registry: ToolRegistry, jvm: Jvm, clock: Long, call: ToolCall,
                           name: string, arguments: Option<string>)
    requires call.functionDetails == Some(FunctionDetails(Some(name), arguments))
    requires !IsBlank(name) && name !in registry.tools
    ensures Run(registry, jvm, clock, Some(call)) ==
            Dispatched(ToolCallResult(TOOL_ROLE, ResolveId(call.id, clock), JString(UnknownToolMessage(name))),
                       Failed(UnknownTool), None)
  {
  }

  /** A stored handler whose method lacks @Tool is refused before its arguments are looked at. */
  lemma RejectsUnannotatedHandler(registry: ToolRegistry, jvm: Jvm, clock: Long, call: ToolCall,
                                  name: string, arguments: Option<string>)
    requires call.functionDetails == Some(FunctionDetails(Some(name), arguments))
    requires !IsBlank(name) && name in registry.tools && !registry.tools[name].toolMethod.annotated
    ensures Run(registry, jvm, clock, Some(call)) ==
            Dispatched(ToolCallResult(TOOL_ROLE, ResolveId(call.id, clock), JString(NotAnnotatedMessage(name))),
                       Failed(NotAnnotated), None)
  {
  }

  /** Handlers that registration put in the registry always pass the @Tool re-check. */
  lemma RegisteredHandlersAreAnnotated(registry: ToolRegistry, jvm: Jvm, clock: Long, call: Option<ToolCall>)
    requires registry.Valid()
    ensures Run(registry, jvm, clock, call).exit != Failed(NotAnnotated)
  {
    if call.Some? && call.value.functionDetails.Some? {
      var name := call.value.functionDetails.value.name;
      if !NullOrBlank(name) && name.value in registry.tools {
        assert registry.GetToolHandler(name.value).value.toolMethod.annotated;
      }
    }
  }

  /** A method with parameters and a missing or blank payload: the body never runs. */
  lemma RejectsMissingArguments(registry: ToolRegistry, jvm: Jvm, clock: Long, call: ToolCall,
                                name: string, arguments: Option<string>)
    requires call.functionDetails == Some(FunctionDetails(Some(name), arguments))
    requires !IsBlank(name) && name in registry.tools
    requires registry.tools[name].toolMethod.annotated && |registry.tools[name].toolMethod.parameterTypes| > 0
    requires NullOrBlank(arguments)
    ensures Run(registry, jvm, clock, Some(call)) ==
            Dispatched(ToolCallResult(TOOL_ROLE, ResolveId(call.id, clock), JString(MissingArgumentsMessage(name))),
                       Failed(MissingArguments), None)
  {
  }

  /**
   * A payload that does not decode: the message names the tool, the simple
   * name of the expected type and the raw payload; the body never runs.
   */
  lemma RejectsMalformedArguments(registry: ToolRegistry, jvm: Jvm, clock: Long, call: ToolCall,
                                  name: string, payload: string)
    requires call.functionDetails == Some(FunctionDetails(Some(name), Some(payload)))
    requires !IsBlank(name) && name in registry.tools
    requires registry.tools[name].toolMethod.annotated && |registry.tools[name].toolMethod.parameterTypes| > 0
    requires !IsBlank(payload)
    requires jvm.readValue(payload, registry.tools[name].toolMethod.parameterTypes[0]).ParseError?
    ensures var expected := registry.tools[name].toolMethod.parameterTypes[0];
            Run(registry, jvm, clock, Some(call)) ==
            Dispatched(ToolCallResult(TOOL_ROLE, ResolveId(call.id, clock),
                                      JString(MalformedArgumentsMessage(name, expected, payload))),
                       Failed(MalformedArguments), None)
  {
    var handler := registry.tools[name];
    var expected := handler.toolMethod.parameterTypes[0];
    assert ValidateName(Some(name)) == Pass(name);
    assert registry.GetToolHandler(name) == Some(handler);
    assert GetMethodAndValidate(handler, name) == Pass(handler.toolMethod);
    assert PrepareArgument(jvm, handler.toolMethod, name, Some(payload)) ==
           Reject(MalformedArguments, MalformedArgumentsMessage(name, expected, payload));
  }

  /**
   * A method without parameters: the payload, whatever it is, changes
   * nothing, and an accessible method's body runs with no arguments.
   */
  lemma ZeroArgumentToolIgnoresPayload(registry: ToolRegistry, jvm: Jvm, clock: Long, call: ToolCall,
                                       name: string, arguments: Option<string>, other: Option<string>)
    requires call.functionDetails == Some(FunctionDetails(Some(name), arguments))
    requires !IsBlank(name) && name in registry.tools
    requires registry.tools[name].toolMethod.annotated && registry.tools[name].toolMethod.parameterTypes == []
    ensures var changed := call.(functionDetails := Some(FunctionDetails(Some(name), other)));
            Run(registry, jvm, clock, Some(call)) == Run(registry, jvm, clock, Some(changed))
    ensures var h := registry.tools[name];
            h.toolMethod.accessible ==>
              Run(registry, jvm, clock, Some(call)).executed == Some([]) &&
              Run(registry, jvm, clock, Some(call)).result ==
                match jvm.execute(h.provider, h.toolMethod, [])
                case Returned(v) => ToolCallResult(TOOL_ROLE, ResolveId(call.id, clock), v)
                case Threw(cause) => ToolCallResult(TOOL_ROLE, ResolveId(call.id, clock), JString(HandlerFailedMessage(name, cause)))
  {
    var h := registry.tools[name];
    assert ValidateName(Some(name)) == Pass(name);
    assert registry.GetToolHandler(name) == Some(h);
    assert GetMethodAndValidate(h, name) == Pass(h.toolMethod);
    assert PrepareArgument(jvm, h.toolMethod, name, arguments) == Pass(JNull);
    assert PrepareArgument(jvm, h.toolMethod, name, other) == Pass(JNull);
    assert Arguments(JNull) == [];
  }

  /**
   * A one-parameter method whose payload decodes to a non-null value: the
   * body runs with exactly that value, and its return value is the content,
   * or its failure is reported with the tool name and the cause's message.
   */
  lemma DecodedArgumentReachesHandler(registry: ToolRegistry, jvm: Jvm, clock: Long, call: ToolCall,
                                      name: string, payload: string, v: JObject)
    requires call.functionDetails == Some(FunctionDetails(Some(name), Some(payload)))
    requires !IsBlank(name) && name in registry.tools
    requires var m := registry.tools[name].toolMethod;
             m.annotated && m.accessible && |m.parameterTypes| == 1
    requires !IsBlank(payload)
    requires jvm.readValue(payload, registry.tools[name].toolMethod.parameterTypes[0]) == Decoded(v)
    requires v != JNull
    ensures var h := registry.tools[name];
            var d := Run(registry, jvm, clock, Some(call));
            d.executed == Some([v]) &&
            match jvm.execute(h.provider, h.toolMethod, [v])
            case Returned(x) =>
              d.exit == Succeeded && d.result == ToolCallResult(TOOL_ROLE, ResolveId(call.id, clock), x)
            case Threw(cause) =>
              d.exit == Failed(HandlerFailed) &&
              d.result == ToolCallResult(TOOL_ROLE, ResolveId(call.id, clock), JString(HandlerFailedMessage(name, cause)))
  {
  }

  /**
   * A one-parameter method whose payload decodes to null is invoked with no
   * argument; Method.invoke's IllegalArgumentException ends in the generic
   * handler and the body never runs.
   */
  lemma NullArgumentIsUnexpected(registry: ToolRegistry, jvm: Jvm, clock: Long, call: ToolCall,
                                 name: string, payload: string)
    requires call.functionDetails == Some(FunctionDetails(Some(name), Some(payload)))
    requires !IsBlank(name) && name in registry.tools
    requires var m := registry.tools[name].toolMethod;
             m.annotated && m.accessible && |m.parameterTypes| > 0
    requires !IsBlank(payload)
    requires jvm.readValue(payload, registry.tools[name].toolMethod.parameterTypes[0]) == Decoded(JNull)
    ensures var count := |registry.tools[name].toolMethod.parameterTypes|;
            Run(registry, jvm, clock, Some(call)) ==
            Dispatched(ToolCallResult(TOOL_ROLE, ResolveId(call.id, clock),
                                      JString(UnexpectedMessage(jvm.argumentMismatch(0, count)))),
                       Failed(Unexpected), None)
  {
  }

  /**
   * A method declaring two or more parameters whose payload decodes to a
   * non-null value is invoked with that one argument; Method.invoke's
   * IllegalArgumentException ends in the generic handler and the body never runs.
   */
  lemma ExtraParametersAreUnexpected(registry: ToolRegistry, jvm: Jvm, clock: Long, call: ToolCall,
                                     name: string, payload: string, v: JObject)
    requires call.functionDetails == Some(FunctionDetails(Some(name), Some(payload)))
    requires !IsBlank(name) && name in registry.tools
    requires var m := registry.tools[name].toolMethod;
             m.annotated && m.accessible && |m.parameterTypes| >= 2
    requires !IsBlank(payload)
    requires jvm.readValue(payload, registry.tools[name].toolMethod.parameterTypes[0]) == Decoded(v)
    requires v != JNull
    ensures var count := |registry.tools[name].toolMethod.parameterTypes|;
            Run(registry, jvm, clock, Some(call)) ==
            Dispatched(ToolCallResult(TOOL_ROLE, ResolveId(call.id, clock),
                                      JString(UnexpectedMessage(jvm.argumentMismatch(1, count)))),
                       Failed(Unexpected), None)
  {
  }

  /** A method that fails Method.invoke's access check, once its arguments are ready, never runs. */
  lemma RejectsInaccessibleMethod(registry: ToolRegistry, jvm: Jvm, clock: Long, call: ToolCall,
                                  name: string, arguments: Option<string>)
    requires call.functionDetails == Some(FunctionDetails(Some(name), arguments))
    requires !IsBlank(name) && name in registry.tools
    requires var m := registry.tools[name].toolMethod;
             m.annotated && !m.accessible && PrepareArgument(jvm, m, name, arguments).Pass?
    ensures Run(registry, jvm, clock, Some(call)) ==
            Dispatched(ToolCallResult(TOOL_ROLE, ResolveId(call.id, clock), JString(InaccessibleMessage(name))),
                       Failed(InaccessibleMethod), None)
  {
  }

  /**
   * A failure of the tool itself reads differently from every failure of the
   * dispatch machinery, whatever tool names, causes and payloads are involved:
   * only the handler-failure message starts with 'E'.
   */
  lemma HandlerFailureIsDistinguishable(name: string, cause: Option<string>, other: string,
                                        expected: JavaClass, payload: string, message: Option<string>)
    ensures var failed := HandlerFailedMessage(name, cause);
            && failed != NULL_REQUEST_MESSAGE
            && failed != BLANK_NAME_MESSAGE
            && failed != UnknownToolMessage(other)
            && failed != NotAnnotatedMessage(other)
            && failed != MissingArgumentsMessage(other)
            && failed != MalformedArgumentsMessage(other, expected, payload)
            && failed != InaccessibleMessage(other)
            && failed != UnexpectedMessage(message)
  {
    assert HandlerFailedMessage(name, cause)[0] == 'E';
    assert UnknownToolMessage(other)[0] == 'N';
    assert NotAnnotatedMessage(other)[0] == 'M';
    assert MissingArgumentsMessage(other)[0] == 'T';
    var head := "Failed to parse arguments JSON for tool '" + other + "'. Expected format for ";
    assert head[0] == 'F';
    assert MalformedArgumentsMessage(other, expected, payload) == head + expected.simpleName + ". JSON: " + payload;
    assert InaccessibleMessage(other)[0] == 'C';
    var unexpected := "Unexpected internal error during dispatch: ";
    assert unexpected[0] == 'U';
    assert UnexpectedMessage(message) == unexpected + Show(message);
    NullRequestMessageStartsWithT();
    BlankNameMessageStartsWithT();
  }

  /** The null-request message starts with 'T'. */
  lemma NullRequestMessageStartsWithT()
    ensures NULL_REQUEST_MESSAGE[0] == 'T'
  {
    var head := "ToolCall request or its function details ";
    assert head[0] == 'T';
    assert NULL_REQUEST_MESSAGE == head + "cannot be null.";
  }

  /** The blank-name message starts with 'T'. */
  lemma BlankNameMessageStartsWithT()
    ensures BLANK_NAME_MESSAGE[0] == 'T'
  {
    var head := "Tool name cannot be null or empty ";
    assert head[0] == 'T';
    assert BLANK_NAME_MESSAGE == head + "in function details.";
  }
}
