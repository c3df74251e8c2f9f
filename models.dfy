/**
 * The records the clients and tools pass around, each field with the default
 * the record declares. A field that is optional in the record is an `Option`.
 */
module Models {
  import opened Wrappers

  /** A debug session: where the adapter listens and how far the client got with it. */
  datatype DebugSession = DebugSession(
    sessionId: string,
    host: string,
    port: int,
    isConnected: bool := false,
    processId: Option<int> := None,
    status: string := "disconnected")

  /** A breakpoint the client set. */
  datatype Breakpoint = Breakpoint(
    breakpointId: int,
    filePath: string,
    lineNumber: int,
    isEnabled: bool := true,
    condition: Option<string> := None,
    hitCount: int := 0)

  /** One frame of a stack trace. */
  datatype StackFrame = StackFrame(
    frameId: int,
    name: string,
    filePath: string,
    lineNumber: int,
    column: Option<int> := None,
    source: Option<string> := None)

  /** A variable in a scope of a frame. */
  datatype Variable = Variable(
    name: string,
    value: string,
    valueType: string,
    scope: string,
    isExpandable: bool := false)

  /** A process found on the machine. */
  datatype ProcessInfo = ProcessInfo(
    processId: int,
    name: string,
    commandLine: Option<string> := None,
    isDebuggable: bool := false,
    debugpyPort: Option<int> := None)

  /** The outcome of evaluating an expression in the debuggee. */
  datatype ExpressionResult = ExpressionResult(
    expression: string,
    result: string,
    resultType: string,
    isError: bool := false,
    errorMessage: Option<string> := None)

  /** A session built from its required fields starts disconnected, with no process. */
  lemma DebugSessionDefaults(sessionId: string, host: string, port: int)
    ensures var s := DebugSession(sessionId, host, port);
      !s.isConnected && s.processId == None && s.status == "disconnected"
      && s.sessionId == sessionId && s.host == host && s.port == port
  {
  }

  /** A breakpoint built from its required fields is enabled, unconditional and never hit. */
  lemma BreakpointDefaults(breakpointId: int, filePath: string, lineNumber: int)
    ensures var b := Breakpoint(breakpointId, filePath, lineNumber);
      b.isEnabled && b.condition == None && b.hitCount == 0
  {
  }

  /** A frame has no column and no source unless given; a variable is not expandable unless said so. */
  lemma FrameAndVariableDefaults(frameId: int, name: string, filePath: string, lineNumber: int,
                                 value: string, valueType: string, scope: string)
    ensures var f := StackFrame(frameId, name, filePath, lineNumber); f.column == None && f.source == None
    ensures !Variable(name, value, valueType, scope).isExpandable
  {
  }

  /** A process is not debuggable and has no port unless found otherwise; an expression result is not an error unless said so. */
  lemma ProcessAndResultDefaults(processId: int, name: string, expression: string, result: string, resultType: string)
    ensures var p := ProcessInfo(processId, name); !p.isDebuggable && p.debugpyPort == None && p.commandLine == None
    ensures var e := ExpressionResult(expression, result, resultType); !e.isError && e.errorMessage == None
  {
  }
}
