# Tool-call dispatch, modelled in Dafny

This project models the dispatch path of a small Java library that lets an LLM runtime call
application-defined "tools" by name.

- **The registry** (`ToolRegistry`) maps tool names to handlers. It is filled by scanning a
  provider's declared methods and keeping the ones annotated `@Tool`.
- **The dispatcher** (`ReflectiveToolDispatcher.dispatch`) turns a `ToolCall` request into a
  `ToolCallResult { role, tool_call_id, content }`. It never throws.

Files and modules:

- `wrappers.dfy` (`Wrappers`): `Option`. `None` stands for Java's `null`.
- `java_lang.dfy` (`JavaLang`): the parts of `java.lang` the dispatcher depends on.
  `String.trim()` removes leading and trailing characters at or below U+0020.
  `Long.toString` is proved injective through its parse-back. `JObject` is a reference of type
  `Object`: null, a `String`, or some other object.
- `tool_registry.dfy` (`Registry`): the reflection descriptors `Method`, `JavaClass` and
  `Provider`, and `ToolHandler`, which is immutable and so a datatype whose fields are the
  provider and method it was built from.
  `Registration` is the specification of the registration loop. The class `ToolRegistry` has the
  mutable `tools` map field. Its method `RegisterToolProvider` is proved against `Registration`,
  and `Valid()` is the invariant "every entry is an annotated method stored under its own name".
- `dispatcher.dfy` (`Dispatcher`): the request and result shapes, and the oracle `Jvm`, which
  stands for Jackson's `readValue`, the tool bodies and `Method.invoke`'s arity error.
  It also holds the error messages, the stage functions, and `Run`/`Dispatch`. `Run` returns the
  result together with the exit taken and the arguments the tool body ran with, if it ran.
  `Dispatch`, its `result` part, is the Java method.
- `dispatch_properties.dfy` (`DispatchProperties`): one lemma per stage of the pipeline. Together
  they state the order in which checks fire, the exact message of each failure, the id carried by
  the result, and when the handler runs.

`Run` is a total Dafny function over every input, including a null request, so no exception
escapes the modelled dispatcher. This assumes every tool body finishes: `Jvm.execute` always
completes, while in Java a tool that never returns makes `dispatch` never return. The Java class keeps its registry in a final field. The model passes that registry
to `Run` and `Dispatch` as a parameter, and the lookup calls `ToolRegistry.GetToolHandler`, as
the Java does. The clock (`System.currentTimeMillis()`) is the parameter `clock`.

Four behaviours of the code are easy to misread; the model follows the code:

- A missing or blank request id is not an error. It is replaced by `"unknown_id_" + clock`.
- An inaccessible method (`IllegalAccessException`) is reported as the `ToolCallException`
  message `"Cannot access method for tool '<name>'."`, not as an unexpected dispatch error.
- A one-parameter tool whose payload decodes to JSON `null` gets `Method.invoke` with no argument.
  The resulting `IllegalArgumentException` lands in the generic handler with the message
  `"Unexpected internal error during dispatch: " + message`.
- The generic handler's fallback id `"unknown_id_unexpected_error"` can never be produced. In the
  model only the arity error reaches that handler. In Java, the causes left out below can also
  reach it: Jackson runtime exceptions other than `JsonProcessingException`, Method.invoke's
  other exceptions, and the `NullPointerException` of a dispatcher built with a null registry.
  Every one of them arises after the id is resolved at ReflectiveToolDispatcher.java line 30. The model therefore uses the resolved id on that path.

## Model

| member | source | states |
|---|---|---|
| `JavaLang.LeadingBlanks` | src/main/java/com/ai_tool_calling/ReflectiveToolDispatcher.java:27 | the longest prefix of characters at or below U+0020, the part `trim()` drops in front |
| `JavaLang.TrailingBlanks` | src/main/java/com/ai_tool_calling/ReflectiveToolDispatcher.java:27 | the longest suffix of characters at or below U+0020, the part `trim()` drops at the end |
| `JavaLang.Trim` | src/main/java/com/ai_tool_calling/ReflectiveToolDispatcher.java:27 | `String.trim()`: an infix of the input, all blanks outside it, non-blank at both ends; empty exactly when every character is at or below U+0020 |
| `JavaLang.DigitChar` | src/main/java/com/ai_tool_calling/ReflectiveToolDispatcher.java:30 | a decimal digit character whose value is the given number |
| `JavaLang.Digits` | src/main/java/com/ai_tool_calling/ReflectiveToolDispatcher.java:30 | the decimal rendering of a long's magnitude is non-empty, made only of digits, and has no leading zero |
| `JavaLang.DigitsRoundTrip` | src/main/java/com/ai_tool_calling/ReflectiveToolDispatcher.java:30 | reading back the decimal digits of n gives n |
| `JavaLang.LongToString` | src/main/java/com/ai_tool_calling/ReflectiveToolDispatcher.java:30 | `Long.toString`: non-empty, starts with '-' exactly for negative numbers, digits everywhere else, and no leading zero (the first digit is '0' only for "0" itself); with `LongToStringRoundTrip` this fixes the rendering exactly |
| `JavaLang.LongToStringRoundTrip` | src/main/java/com/ai_tool_calling/ReflectiveToolDispatcher.java:30 | `Long.toString` parses back to the same long, so it is injective |
| `Registry.Registration` | src/main/java/com/ai_tool_calling/ToolRegistry.java:14-18 | the map the registration loop leaves: no name is removed, and every entry is either the old one or a handler of this provider for one of its annotated methods carrying that name |
| `Registry.LastToolIndex` | src/main/java/com/ai_tool_calling/ToolRegistry.java:14-18 | the position of the last annotated method with a given name; no later method is an annotated one of that name; None exactly when no such method exists |
| `Registry.RegistrationLookup` | src/main/java/com/ai_tool_calling/ToolRegistry.java:14-18 | after registration a name is present iff it was before or some annotated method has it; it maps to `ToolHandler(provider, last such method)` (last registration wins); every other name keeps its old handler |
| `Registry.RegistrationKeys` | src/main/java/com/ai_tool_calling/ToolRegistry.java:14-18 | registration adds exactly the names of the provider's annotated methods; non-annotated methods are skipped |
| `Registry.RegistrationPreservesWellFormed` | src/main/java/com/ai_tool_calling/ToolRegistry.java:15-17 | registration keeps the invariant that every stored handler's method carries `@Tool` and is stored under its own name |
| `Registry.LaterProviderWins` | src/main/java/com/ai_tool_calling/ToolRegistry.java:17 | of two providers registered in turn with a same-named tool, the second one's handler is the one stored |
| `Registry.ToolRegistry.constructor` | src/main/java/com/ai_tool_calling/ToolRegistry.java:10 | a new registry is empty and satisfies the invariant |
| `Registry.ToolRegistry.RegisterToolProvider` | src/main/java/com/ai_tool_calling/ToolRegistry.java:12-20 | the loop over the declared methods leaves `tools` equal to `Registration(old tools, provider, methods)` and keeps the invariant |
| `Registry.ToolRegistry.GetToolHandler` | src/main/java/com/ai_tool_calling/ToolRegistry.java:22-24 | returns the stored handler, or None (null) exactly when the name is absent; under the invariant, the handler's method is annotated and has the looked-up name |
| `Registry.ToolRegistry.IsRegistered` | src/main/java/com/ai_tool_calling/ToolRegistry.java:26-28 | true exactly when `GetToolHandler` returns a handler |
| `Dispatcher.SynthesizedId` | src/main/java/com/ai_tool_calling/ReflectiveToolDispatcher.java:30 | the fallback id is "unknown_id_" followed by the clock's `Long.toString` |
| `Dispatcher.SynthesizedIdIsNotBlank` | src/main/java/com/ai_tool_calling/ReflectiveToolDispatcher.java:30 | the synthesized id `"unknown_id_" + millis` never trims to empty |
| `Dispatcher.SynthesizedIdsDiffer` | src/main/java/com/ai_tool_calling/ReflectiveToolDispatcher.java:30 | ids synthesized at different instants are different |
| `Dispatcher.ResolveId` | src/main/java/com/ai_tool_calling/ReflectiveToolDispatcher.java:26-31 | a null or blank request id gives the synthesized id; any other id is echoed unchanged (untrimmed); the resolved id is never blank |
| `Dispatcher.ValidateName` | src/main/java/com/ai_tool_calling/ReflectiveToolDispatcher.java:34-39 | passes the untrimmed name exactly when it is non-null and non-blank; otherwise fails with "Tool name cannot be null or empty in function details." |
| `Dispatcher.GetMethodAndValidate` | src/main/java/com/ai_tool_calling/ReflectiveToolDispatcher.java:106-113 | passes the handler's method exactly when it carries `@Tool`; otherwise fails with the "inconsistent registration state" message naming the tool |
| `Dispatcher.PrepareArgument` | src/main/java/com/ai_tool_calling/ReflectiveToolDispatcher.java:48-63 | a parameterless method never parses the payload (argument null); otherwise a null/blank payload fails as missing arguments, a parse error fails with the message naming tool, simple type name and raw payload, and a decoded value is passed on |
| `Dispatcher.Arguments` | src/main/java/com/ai_tool_calling/ReflectiveToolDispatcher.java:67-71 | the handler gets no argument exactly when the decoded argument is null, and otherwise exactly that one argument |
| `Dispatcher.Invoke` | src/main/java/com/ai_tool_calling/ReflectiveToolDispatcher.java:65-86 | `Method.invoke`: access failure exactly when the method is inaccessible; argument-count failure, carrying the JVM's message for the given and declared counts, exactly when accessible with the wrong number of arguments; otherwise the body's return or throw |
| `Dispatcher.CreateSuccessToolCallResult` | src/main/java/com/ai_tool_calling/ReflectiveToolDispatcher.java:115-119 | the envelope holds role, id and the raw content; the tool name does not reach it |
| `Dispatcher.CreateErrorToolCallResult` | src/main/java/com/ai_tool_calling/ReflectiveToolDispatcher.java:121-127 | the envelope holds role, id and the error message as a string; the tool name does not reach it |
| `Dispatcher.Rejected` | src/main/java/com/ai_tool_calling/ReflectiveToolDispatcher.java:90-96 | the `ToolCallException` handler: role "tool", the given id, the exception's message as content, that failure kind, and the body never ran |
| `Dispatcher.Complete` | src/main/java/com/ai_tool_calling/ReflectiveToolDispatcher.java:65-103 | role "tool" and the given id always; the body ran, with exactly these arguments, only when it returned or threw; a return value becomes the content (success); a throw gives "Execution of tool '<name>' failed: " + cause; an access failure gives the "Cannot access" message; an arity error gives the "Unexpected internal error during dispatch: " message |
| `Dispatcher.Run` | src/main/java/com/ai_tool_calling/ReflectiveToolDispatcher.java:17-104 | total; role is always "tool"; a null request or function gives the exact null-request message with id "unknown_id_early_error"; every other result carries the resolved id; the handler body ran exactly on success and on a handler-raised failure, and only when the request was non-null, the name non-blank and registered, the method annotated and accessible, with as many arguments as it declares |
| `Dispatcher.Dispatch` | src/main/java/com/ai_tool_calling/ReflectiveToolDispatcher.java:17-104 | every result has role "tool" |
| `DispatchProperties.RejectsBlankName` | src/main/java/com/ai_tool_calling/ReflectiveToolDispatcher.java:37-39 | a null or blank name fails first, with the resolved id and the exact message; the handler never runs |
| `DispatchProperties.RejectsUnknownTool` | src/main/java/com/ai_tool_calling/ReflectiveToolDispatcher.java:41-44 | a non-blank name absent from the registry fails with "No tool registered with name: " + name and the resolved id; the handler never runs |
| `DispatchProperties.RejectsUnannotatedHandler` | src/main/java/com/ai_tool_calling/ReflectiveToolDispatcher.java:46 | a stored handler without `@Tool` fails with the inconsistent-state message before arguments are examined |
| `DispatchProperties.RegisteredHandlersAreAnnotated` | src/main/java/com/ai_tool_calling/ReflectiveToolDispatcher.java:108-111 | with a registry satisfying its invariant, the inconsistent-state exit is never taken |
| `DispatchProperties.RejectsMissingArguments` | src/main/java/com/ai_tool_calling/ReflectiveToolDispatcher.java:49-52 | a method with parameters and a null or blank payload fails with the missing-arguments message naming the tool; the handler never runs |
| `DispatchProperties.RejectsMalformedArguments` | src/main/java/com/ai_tool_calling/ReflectiveToolDispatcher.java:53-58 | a payload that does not decode fails with the message holding tool name, expected simple type name and raw payload; the handler never runs |
| `DispatchProperties.ZeroArgumentToolIgnoresPayload` | src/main/java/com/ai_tool_calling/ReflectiveToolDispatcher.java:59-70 | for a parameterless method the payload does not affect the run; an accessible one runs with no arguments and its return value (or failure message) is the content |
| `DispatchProperties.DecodedArgumentReachesHandler` | src/main/java/com/ai_tool_calling/ReflectiveToolDispatcher.java:65-88 | a non-null decoded argument is the one argument the body runs with; its return value is the content, or "Execution of tool '<name>' failed: " + cause message |
| `DispatchProperties.NullArgumentIsUnexpected` | src/main/java/com/ai_tool_calling/ReflectiveToolDispatcher.java:67-70 | a payload decoding to null leads to the "Unexpected internal error during dispatch: " message with the resolved id; the body never runs |
| `DispatchProperties.ExtraParametersAreUnexpected` | src/main/java/com/ai_tool_calling/ReflectiveToolDispatcher.java:67-68 | a method declaring two or more parameters gets the one decoded argument, and Method.invoke's arity error leads to the "Unexpected internal error during dispatch: " message with the resolved id; the body never runs |
| `DispatchProperties.RejectsInaccessibleMethod` | src/main/java/com/ai_tool_calling/ReflectiveToolDispatcher.java:72-73 | an inaccessible method fails with "Cannot access method for tool '<name>'." and never runs |
| `DispatchProperties.HandlerFailureIsDistinguishable` | src/main/java/com/ai_tool_calling/ReflectiveToolDispatcher.java:17-104 | for any tool names, causes and payloads, a handler failure's message differs from every message the dispatch machinery produces (null request, blank name, unknown tool, not annotated, missing or malformed arguments, inaccessible method, unexpected error) |

## Left out

- Java reflection is abstracted into descriptors. `getDeclaredMethods` is an arbitrary sequence,
  because its order is unspecified; same-name overloads resolve by that order.
  `isAnnotationPresent` is the field `annotated`. `getParameterTypes` is `parameterTypes`.
  Method.invoke's access check is the field `accessible`.
- Method.invoke's other `IllegalArgumentException` causes are not modelled: a wrong argument
  type, or a receiver that is not an instance of the declaring class. Decoding yields the
  parameter's type, and a handler's receiver is the provider whose class declared the method.
  A null receiver cannot occur, because `registerToolProvider(null)` already fails.
- Jackson's `ObjectMapper.readValue` is the uninterpreted `Jvm.readValue`. It yields a value
  (possibly null) or a parse error. Runtime exceptions other than `JsonProcessingException` are
  not modelled.
- What tool bodies do when they run (for example running shell commands) is the uninterpreted
  `Jvm.execute`.
- The JDK's wording of the wrong-argument-count message is the uninterpreted
  `Jvm.argumentMismatch`.
- `System.err` logging is not modelled. That includes the warning for a non-blank payload other
  than `{}` sent to a parameterless tool.
- `System.currentTimeMillis()` is not modelled; the clock is a parameter.
- A tool body that never returns is not modelled. `Jvm.execute` always completes, so `Run`'s
  totality means "no exception escapes, provided the tools terminate".
- `registerToolProvider(null)` is not modelled. In Java it throws a `NullPointerException` at
  `provider.getClass()`. The `Provider` datatype has no null value.
- A null registry given to the `ReflectiveToolDispatcher` constructor
  (ReflectiveToolDispatcher.java:13-15) is not modelled; `registry` is a non-null parameter of
  `Run` and `Dispatch`. In Java every dispatch past the name check then throws a
  `NullPointerException` at line 41 and ends in the generic handler, with the resolved id.
- `java.lang.Error`s (stack overflow, out of memory) escape `catch (Exception e)` in Java. The
  model does not have them.
- `ToolCall`, `ToolCallResult`, `ToolCallException` and `RunShellCommandArgs` are data holders.
  They appear only as the datatypes the core consumes and produces. `RunShellCommandArgs` is not
  part of this model.
- Null tool names passed to `getToolHandler`/`isRegistered` are not modelled. The dispatcher
  never passes one.
- Strings are sequences of Unicode scalar values rather than UTF-16 code units. A lone surrogate
  cannot be written, which does not matter to `trim()`.
- Concurrency is not modelled: the registry is not thread-safe, and nothing in the core runs
  concurrently.
