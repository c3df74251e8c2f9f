/**
 * `handle_call_tool` of the stdio MCP server: it picks the tool by name,
 * reads the tool's arguments with their defaults, runs it against the
 * shared `DebugpyClient`, and answers with a one-element list holding the
 * tool's result dict, or `{"success": false, "error": ...}` when something
 * raised or the tool is unknown.
 *
 * A result dict maps keys to `Value`s; records appear as themselves rather
 * than as their `model_dump()` dicts. What the tools read from outside the
 * client, the fresh session id, how `socket.connect` turns out, the files
 * and the process table, is an `Environment`.
 */
module StdioServer {
  import opened Wrappers
  import opened PyText
  import opened Json
  import opened Models
  import opened Debugpy
  import Server

  /** A value of a result dict. */
  datatype Value =
    | Flag(b: bool)
    | Number(n: int)
    | Text(s: string)
    | Null
    | Raw(j: Json)
    | SessionDump(session: DebugSession)
    | SessionDumps(sessions: set<DebugSession>)
    | BreakpointDump(breakpoint: Breakpoint)
    | BreakpointDumps(breakpoints: seq<Breakpoint>)
    | FrameDumps(frames: seq<StackFrame>)
    | VariableDumps(variables: seq<Variable>)
    | EvaluationDump(evaluation: ExpressionResult)
    | SourceLines(lines: seq<Server.SourceLine>)
    | ProcessDumps(processes: seq<ProcessInfo>)

  type Result = map<string, Value>

  /** What the tools take from outside the client. */
  datatype Environment = Environment(freshId: string, dial: Dial, files: map<string, Server.FileContent>, table: seq<Server.Listing>)

  /** The registry after a call, and the list the call answers with. */
  datatype Called = Called(registry: Registry, results: seq<Result>)

  /** `{"success": False, "error": message}`. */
  function Error(message: string): Result {
    map["success" := Flag(false), "error" := Text(message)]
  }

  /** `str(n)`. */
  function IntText(n: int): string {
    if n < 0 then "-" + Decimal(-n) else Decimal(n)
  }

  /** An argument read, or the text of what reading it raised. */
  datatype Arg<T> = Given(value: T) | Raised(error: string)

  /** The message for an argument of a JSON type the tool does not take. */
  function Unsupported(key: string): string {
    "unsupported value for " + key
  }

  /** `arguments[key]`: a missing key raises `KeyError`, whose text is the quoted key. */
  function Required(arguments: Object, key: string): Arg<Json> {
    if key in arguments then Given(arguments[key]) else Raised("'" + key + "'")
  }

  /** An argument that must be text. */
  function TextOf(a: Arg<Json>, key: string): Arg<string> {
    match a
    case Raised(e) => Raised(e)
    case Given(j) => if j.JStr? then Given(j.s) else Raised(Unsupported(key))
  }

  /** An argument that must be an integer. */
  function IntOf(a: Arg<Json>, key: string): Arg<int> {
    match a
    case Raised(e) => Raised(e)
    case Given(j) => if j.JNum? then Given(j.n) else Raised(Unsupported(key))
  }

  /** An argument that may be `None` or an integer. */
  function OptionalInt(j: Json, key: string): Arg<Option<int>> {
    match j
    case JNull => Given(None)
    case JNum(n) => Given(Some(n))
    case _ => Raised(Unsupported(key))
  }

  /** An argument that may be `None` or text. */
  function OptionalText(j: Json, key: string): Arg<Option<string>> {
    match j
    case JNull => Given(None)
    case JStr(s) => Given(Some(s))
    case _ => Raised(Unsupported(key))
  }

  /** The session id every session tool reads first. */
  function SessionId(arguments: Object): Arg<string> {
    TextOf(Required(arguments, "session_id"), "session_id")
  }

  /** A call that raised before touching the client. */
  function Failed(r: Registry, message: string): Called {
    Called(r, [Error(message)])
  }

  // ---------------------------------------------------------------------------
  // One function per tool
  // ---------------------------------------------------------------------------

  /** `start_debug_session`: create a session for host and port (defaults `"localhost"` and 5678), connect it. */
  function StartCall(r: Registry, codec: Codec, env: Environment, arguments: Object): Called {
    var host := TextOf(Given(Get(arguments, "host", JStr("localhost"))), "host");
    var port := IntOf(Given(Get(arguments, "port", JNum(5678))), "port");
    if host.Raised? then Failed(r, host.error)
    else if port.Raised? then Failed(r, port.error)
    else
      var id := env.freshId;
      var o := Connecting(Creating(r, id, host.value, port.value), codec, id, env.dial);
      var session := if id in o.registry.sessions then SessionDump(o.registry.sessions[id]) else Null;
      var message := if o.ok then "Connected to debug session at " + host.value + ":" + IntText(port.value) else "Failed to connect";
      Called(o.registry, [map["success" := Flag(o.ok), "session_id" := Text(id), "session" := session, "message" := Text(message)]])
  }

  /** `stop_debug_session`. */
  function StopCall(r: Registry, arguments: Object): Called {
    var id := SessionId(arguments);
    if id.Raised? then Failed(r, id.error)
    else
      var o := Disconnecting(r, id.value);
      var message := if o.ok then "Session disconnected successfully" else "Failed to disconnect session";
      Called(o.registry, [map["success" := Flag(o.ok), "session_id" := Text(id.value), "message" := Text(message)]])
  }

  /** `list_debug_sessions`: every session, and how many there are. */
  function SessionsCall(r: Registry): Called {
    Called(r, [map["success" := Flag(true), "sessions" := SessionDumps(r.sessions.Values), "count" := Number(|r.sessions|)]])
  }

  /** `get_session_status`: the session and its number of breakpoints, or that it is not found. */
  function StatusCall(r: Registry, arguments: Object): Called {
    var id := SessionId(arguments);
    if id.Raised? then Failed(r, id.error)
    else if id.value !in r.sessions then Called(r, [Error("Session " + id.value + " not found")])
    else
      var count := if id.value in r.breakpoints then |r.breakpoints[id.value]| else 0;
      Called(r, [map["success" := Flag(true), "session" := SessionDump(r.sessions[id.value]), "breakpoints_count" := Number(count)]])
  }

  /** `set_breakpoint`: file, line and an optional condition. */
  function SetCall(r: Registry, codec: Codec, arguments: Object): Called {
    var id := SessionId(arguments);
    var file := TextOf(Required(arguments, "file_path"), "file_path");
    var line := IntOf(Required(arguments, "line_number"), "line_number");
    var condition := OptionalText(Get(arguments, "condition", JNull), "condition");
    if id.Raised? then Failed(r, id.error)
    else if file.Raised? then Failed(r, file.error)
    else if line.Raised? then Failed(r, line.error)
    else if condition.Raised? then Failed(r, condition.error)
    else
      var p := Setting(r, codec, id.value, file.value, line.value, condition.value, Corrected);
      var at := file.value + ":" + IntText(line.value);
      match p.breakpoint
      case Some(b) =>
        Called(p.registry, [map["success" := Flag(true), "breakpoint" := BreakpointDump(b), "message" := Text("Breakpoint set at " + at)]])
      case None => Called(p.registry, [Error("Failed to set breakpoint at " + at)])
  }

  /** `clear_breakpoint`. */
  function ClearCall(r: Registry, codec: Codec, arguments: Object): Called {
    var id := SessionId(arguments);
    var bpId := IntOf(Required(arguments, "breakpoint_id"), "breakpoint_id");
    if id.Raised? then Failed(r, id.error)
    else if bpId.Raised? then Failed(r, bpId.error)
    else
      var o := Clearing(r, codec, id.value, bpId.value, Corrected);
      var message := if o.ok then "Breakpoint " + IntText(bpId.value) + " cleared" else "Failed to clear breakpoint " + IntText(bpId.value);
      Called(o.registry, [map["success" := Flag(o.ok), "message" := Text(message)]])
  }

  /** `list_breakpoints`: the session's breakpoints, none for an unknown session. */
  function BreakpointsCall(r: Registry, arguments: Object): Called {
    var id := SessionId(arguments);
    if id.Raised? then Failed(r, id.error)
    else
      var list := if id.value in r.breakpoints then r.breakpoints[id.value] else [];
      Called(r, [map["success" := Flag(true), "session_id" := Text(id.value), "breakpoints" := BreakpointDumps(list), "count" := Number(|list|)]])
  }

  /** The four tools that resume the debuggee. */
  datatype Stepper = Continue | StepInto | StepOver | StepOut

  /** The DAP command each of them sends. */
  function Command(s: Stepper): string {
    match s
    case Continue => "continue"
    case StepInto => "stepIn"
    case StepOver => "next"
    case StepOut => "stepOut"
  }

  /** The message when the client returned something truthy, and when it did not. */
  function Done(s: Stepper): (string, string) {
    match s
    case Continue => ("Execution continued", "Failed to continue execution")
    case StepInto => ("Stepped into function", "Failed to step into function")
    case StepOver => ("Stepped over line", "Failed to step over line")
    case StepOut => ("Stepped out of function", "Failed to step out of function")
  }

  /** A stepping tool: `success` is whatever the client returned, the message says whether it was truthy. */
  function ResumeCall(r: Registry, codec: Codec, s: Stepper, arguments: Object): Called {
    var id := SessionId(arguments);
    if id.Raised? then Failed(r, id.error)
    else
      var (after, success) := Stepping(r, codec, id.value, Command(s));
      Called(after, [map["success" := Raw(success), "session_id" := Text(id.value),
                         "message" := Text(if Truthy(success) then Done(s).0 else Done(s).1)]])
  }

  /** `inspect_stack`. */
  function StackCall(r: Registry, codec: Codec, arguments: Object): Called {
    var id := SessionId(arguments);
    if id.Raised? then Failed(r, id.error)
    else
      var (after, frames) := Tracing(r, codec, id.value);
      Called(after, [map["success" := Flag(true), "session_id" := Text(id.value), "stack_frames" := FrameDumps(frames),
                         "frame_count" := Number(|frames|)]])
  }

  /** `inspect_variables`, with frame 0 by default. */
  function VariablesCall(r: Registry, codec: Codec, arguments: Object): Called {
    var id := SessionId(arguments);
    var frameId := IntOf(Given(Get(arguments, "frame_id", JNum(0))), "frame_id");
    if id.Raised? then Failed(r, id.error)
    else if frameId.Raised? then Failed(r, frameId.error)
    else
      var i := Inspecting(r, codec, id.value, frameId.value);
      Called(i.registry, [map["success" := Flag(true), "session_id" := Text(id.value), "frame_id" := Number(frameId.value),
                              "variables" := VariableDumps(i.variables), "variable_count" := Number(|i.variables|)]])
  }

  /** `evaluate_expression`: `success` is the negation of the result's `is_error`. */
  function EvaluateCall(r: Registry, codec: Codec, arguments: Object): Called {
    var id := SessionId(arguments);
    var expression := TextOf(Required(arguments, "expression"), "expression");
    var frameId := OptionalInt(Get(arguments, "frame_id", JNull), "frame_id");
    if id.Raised? then Failed(r, id.error)
    else if expression.Raised? then Failed(r, expression.error)
    else if frameId.Raised? then Failed(r, frameId.error)
    else
      var e := Evaluating(r, codec, id.value, expression.value, frameId.value);
      Called(e.registry, [map["success" := Flag(!e.result.isError), "session_id" := Text(id.value),
                              "evaluation" := EvaluationDump(e.result)]])
  }

  /** The result dict of `get_source_code`. */
  function SourceResult(v: Server.SourceView): Result {
    match v
    case Failed(error) => Error(error)
    case Shown(path, line, context, source, total) =>
      map["success" := Flag(true), "file_path" := Text(path), "target_line" := Number(line), "context_lines" := Number(context),
          "source" := SourceLines(source), "total_lines" := Number(total)]
  }

  /** `get_source_code`, with 5 context lines by default. */
  function SourceCall(env: Environment, arguments: Object): Result {
    var path := TextOf(Required(arguments, "file_path"), "file_path");
    var line := IntOf(Required(arguments, "line_number"), "line_number");
    var context := IntOf(Given(Get(arguments, "context_lines", JNum(5))), "context_lines");
    if path.Raised? then Error(path.error)
    else if line.Raised? then Error(line.error)
    else if context.Raised? then Error(context.error)
    else SourceResult(Server.SourceCode(env.files, path.value, line.value, context.value))
  }

  /** The result dict of `list_debuggable_processes`. */
  function ProcessResult(report: Server.ProcessReport): Result {
    map["success" := Flag(true), "processes" := ProcessDumps(report.processes), "total_count" := Number(report.totalCount),
        "debuggable_count" := Number(report.debuggableCount)]
  }


  // ---------------------------------------------------------------------------
  // Dispatch by name
  // ---------------------------------------------------------------------------

  /** The tools `handle_call_tool` answers to. */
  datatype Tool =
    | StartDebugSession | StopDebugSession | ListDebugSessions | GetSessionStatus
    | SetBreakpoint | ClearBreakpoint | ListBreakpoints | Resume(stepper: Stepper)
    | InspectStack | InspectVariables | EvaluateExpression | GetSourceCode | ListDebuggableProcesses

  /** The name a tool is called by. */
  function Name(t: Tool): string {
    match t
    case StartDebugSession => "start_debug_session"
    case StopDebugSession => "stop_debug_session"
    case ListDebugSessions => "list_debug_sessions"
    case GetSessionStatus => "get_session_status"
    case SetBreakpoint => "set_breakpoint"
    case ClearBreakpoint => "clear_breakpoint"
    case ListBreakpoints => "list_breakpoints"
    case Resume(Continue) => "continue_execution"
    case Resume(StepInto) => "step_into"
    case Resume(StepOver) => "step_over"
    case Resume(StepOut) => "step_out"
    case InspectStack => "inspect_stack"
    case InspectVariables => "inspect_variables"
    case EvaluateExpression => "evaluate_expression"
    case GetSourceCode => "get_source_code"
    case ListDebuggableProcesses => "list_debuggable_processes"
  }

  /** The `if`/`elif` chain of `handle_call_tool`: the tool a name selects, if any. */
  function ToolOf(name: string): Option<Tool> {
    if name == "start_debug_session" then Some(StartDebugSession)
    else if name == "stop_debug_session" then Some(StopDebugSession)
    else if name == "list_debug_sessions" then Some(ListDebugSessions)
    else if name == "get_session_status" then Some(GetSessionStatus)
    else if name == "set_breakpoint" then Some(SetBreakpoint)
    else if name == "clear_breakpoint" then Some(ClearBreakpoint)
    else if name == "list_breakpoints" then Some(ListBreakpoints)
    else if name == "continue_execution" then Some(Resume(Continue))
    else if name == "step_into" then Some(Resume(StepInto))
    else if name == "step_over" then Some(Resume(StepOver))
    else if name == "step_out" then Some(Resume(StepOut))
    else if name == "inspect_stack" then Some(InspectStack)
    else if name == "inspect_variables" then Some(InspectVariables)
    else if name == "evaluate_expression" then Some(EvaluateExpression)
    else if name == "get_source_code" then Some(GetSourceCode)
    else if name == "list_debuggable_processes" then Some(ListDebuggableProcesses)
    else None
  }

  /** The session tools' names select them. */
  lemma SessionNamesSelect(t: Tool)
    requires t.StopDebugSession? || t.GetSessionStatus? || t.SetBreakpoint? || t.ClearBreakpoint? || t.ListBreakpoints?
    ensures ToolOf(Name(t)) == Some(t)
  {
    match t
    case StopDebugSession =>
    case GetSessionStatus =>
    case SetBreakpoint =>
    case ClearBreakpoint =>
    case ListBreakpoints =>
  }

  lemma InspectionNamesSelect(t: Tool)
    requires t.InspectStack? || t.InspectVariables? || t.EvaluateExpression?
    ensures ToolOf(Name(t)) == Some(t)
  {
    match t
    case InspectStack =>
    case InspectVariables =>
    case EvaluateExpression =>
  }


  /** Each tool's name selects that tool. */
  lemma NameSelects(t: Tool)
    ensures ToolOf(Name(t)) == Some(t)
  {
    if t.StopDebugSession? || t.GetSessionStatus? || t.SetBreakpoint? || t.ClearBreakpoint? || t.ListBreakpoints? {
      SessionNamesSelect(t);
    } else if t.InspectStack? || t.InspectVariables? || t.EvaluateExpression? {
      InspectionNamesSelect(t);
    } else {
      match t
      case StartDebugSession =>
      case ListDebugSessions =>
      case Resume(s) =>
      case GetSourceCode =>
      case ListDebuggableProcesses =>
    }
  }

  /** One tool run against the registry. */
  function Run(t: Tool, r: Registry, codec: Codec, env: Environment, arguments: Object): Called {
    match t
    case StartDebugSession => StartCall(r, codec, env, arguments)
    case StopDebugSession => StopCall(r, arguments)
    case ListDebugSessions => SessionsCall(r)
    case GetSessionStatus => StatusCall(r, arguments)
    case SetBreakpoint => SetCall(r, codec, arguments)
    case ClearBreakpoint => ClearCall(r, codec, arguments)
    case ListBreakpoints => BreakpointsCall(r, arguments)
    case Resume(s) => ResumeCall(r, codec, s, arguments)
    case InspectStack => StackCall(r, codec, arguments)
    case InspectVariables => VariablesCall(r, codec, arguments)
    case EvaluateExpression => EvaluateCall(r, codec, arguments)
    case GetSourceCode => Called(r, [SourceCall(env, arguments)])
    case ListDebuggableProcesses => Called(r, [ProcessResult(Server.Report(env.table))])
  }

  /** `handle_call_tool`: the tool of that name, or `Unknown tool` for any other name. */
  function Calling(r: Registry, codec: Codec, env: Environment, name: string, arguments: Object): Called {
    match ToolOf(name)
    case None => Called(r, [Error("Unknown tool: " + name)])
    case Some(t) => Run(t, r, codec, env, arguments)
  }

  /** The tools that read `session_id` before anything else. */
  predicate NeedsSession(t: Tool) {
    !(t.StartDebugSession? || t.ListDebugSessions? || t.GetSourceCode? || t.ListDebuggableProcesses?)
  }

  // ---------------------------------------------------------------------------
  // What every call promises
  // ---------------------------------------------------------------------------

  /** The tools that read or change a session's entries answer with exactly one result dict, and it holds `success`. */
  lemma EditingAnswersOnce(t: Tool, r: Registry, codec: Codec, env: Environment, arguments: Object)
    requires t.StopDebugSession? || t.GetSessionStatus? || t.SetBreakpoint? || t.ClearBreakpoint? || t.ListBreakpoints?
    ensures var c := Run(t, r, codec, env, arguments);
      |c.results| == 1 && "success" in c.results[0]
  {
    match t
    case StopDebugSession =>
    case GetSessionStatus =>
    case SetBreakpoint =>
    case ClearBreakpoint =>
    case ListBreakpoints =>
  }

  /** The tools that send requests through a session answer with exactly one result dict, and it holds `success`. */
  lemma RequestingAnswersOnce(t: Tool, r: Registry, codec: Codec, env: Environment, arguments: Object)
    requires t.Resume? || t.InspectStack? || t.InspectVariables? || t.EvaluateExpression?
    ensures var c := Run(t, r, codec, env, arguments);
      |c.results| == 1 && "success" in c.results[0]
  {
    match t
    case Resume(s) =>
    case InspectStack =>
    case InspectVariables =>
    case EvaluateExpression =>
  }

  /** Every tool answers with exactly one result dict, and it holds `success`. */
  lemma RunAnswersOnce(t: Tool, r: Registry, codec: Codec, env: Environment, arguments: Object)
    ensures var c := Run(t, r, codec, env, arguments);
      |c.results| == 1 && "success" in c.results[0]
  {
    if t.StopDebugSession? || t.GetSessionStatus? || t.SetBreakpoint? || t.ClearBreakpoint? || t.ListBreakpoints? {
      EditingAnswersOnce(t, r, codec, env, arguments);
    } else if t.Resume? || t.InspectStack? || t.InspectVariables? || t.EvaluateExpression? {
      RequestingAnswersOnce(t, r, codec, env, arguments);
    } else {
      match t
      case StartDebugSession =>
      case ListDebugSessions =>
      case GetSourceCode =>
        var path := TextOf(Required(arguments, "file_path"), "file_path");
        var line := IntOf(Required(arguments, "line_number"), "line_number");
        var context := IntOf(Given(Get(arguments, "context_lines", JNum(5))), "context_lines");
        if path.Given? && line.Given? && context.Given? {
          assert "success" in SourceResult(Server.SourceCode(env.files, path.value, line.value, context.value));
        }
      case ListDebuggableProcesses =>
    }
  }

  /**
   * Every call answers with exactly one result dict holding `success`; a
   * name that selects no tool answers `Unknown tool: <name>` and changes
   * nothing, and a tool's name runs that tool.
   */
  lemma CallingAnswersOnce(r: Registry, codec: Codec, env: Environment, name: string, arguments: Object)
    ensures var c := Calling(r, codec, env, name, arguments);
      && |c.results| == 1
      && "success" in c.results[0]
      && (ToolOf(name).None? ==> c == Called(r, [Error("Unknown tool: " + name)]))
      && (forall t :: Name(t) == name ==> c == Run(t, r, codec, env, arguments))
  {
    forall t | Name(t) == name
      ensures Calling(r, codec, env, name, arguments) == Run(t, r, codec, env, arguments)
    {
      NameSelects(t);
    }
    match ToolOf(name)
    case None =>
    case Some(t) =>
      RunAnswersOnce(t, r, codec, env, arguments);
  }

  /** A tool that needs a session id and is called without one answers with the quoted key and changes nothing. */
  lemma MissingSessionId(t: Tool, r: Registry, codec: Codec, env: Environment, arguments: Object)
    requires NeedsSession(t) && "session_id" !in arguments
    ensures Run(t, r, codec, env, arguments) == Called(r, [Error("'session_id'")])
  {
    assert "'" + "session_id" + "'" == "'session_id'";
    match t
    case StopDebugSession =>
    case GetSessionStatus =>
    case SetBreakpoint =>
    case ClearBreakpoint =>
    case ListBreakpoints =>
    case Resume(s) =>
    case InspectStack =>
    case InspectVariables =>
    case EvaluateExpression =>
  }

  /** `start_debug_session` without host or port creates a session for `localhost:5678`, stored under the fresh id. */
  lemma StartDefaults(r: Registry, codec: Codec, env: Environment, arguments: Object)
    requires "host" !in arguments && "port" !in arguments
    ensures var c := Run(StartDebugSession, r, codec, env, arguments);
      && env.freshId in c.registry.sessions
      && c.registry.sessions[env.freshId].host == "localhost"
      && c.registry.sessions[env.freshId].port == 5678
      && c.results[0]["session_id"] == Text(env.freshId)
  {
    ConnectingOutcome(Creating(r, env.freshId, "localhost", 5678), codec, env.freshId, env.dial);
  }

  /** `start_debug_session` reports success exactly when the socket connects. */
  lemma StartSucceedsWhenConnected(r: Registry, codec: Codec, env: Environment, arguments: Object)
    requires Get(arguments, "host", JStr("localhost")).JStr? && Get(arguments, "port", JNum(5678)).JNum?
    ensures Run(StartDebugSession, r, codec, env, arguments).results[0]["success"] == Flag(env.dial.Accepted?)
  {
    var host := Get(arguments, "host", JStr("localhost")).s;
    var port := Get(arguments, "port", JNum(5678)).n;
    ConnectingOutcome(Creating(r, env.freshId, host, port), codec, env.freshId, env.dial);
  }

  /** `inspect_variables` without a frame id inspects frame 0. */
  lemma InspectDefaults(r: Registry, codec: Codec, env: Environment, arguments: Object)
    requires "frame_id" !in arguments && "session_id" in arguments && arguments["session_id"].JStr?
    ensures var c := Run(InspectVariables, r, codec, env, arguments);
      && c.results[0]["frame_id"] == Number(0)
      && c.registry == Inspecting(r, codec, arguments["session_id"].s, 0).registry
  {
  }

  /** `get_source_code` without `context_lines` shows 5 lines on either side of the target. */
  lemma SourceDefaults(r: Registry, codec: Codec, env: Environment, arguments: Object)
    requires "context_lines" !in arguments
    requires "file_path" in arguments && arguments["file_path"].JStr? && arguments["file_path"].s in env.files
    requires env.files[arguments["file_path"].s].Readable?
    requires "line_number" in arguments && arguments["line_number"].JNum?
    ensures var c := Run(GetSourceCode, r, codec, env, arguments);
      && c.registry == r
      && c.results[0]["context_lines"] == Number(5)
      && c.results[0]["source"] == SourceLines(Server.Window(env.files[arguments["file_path"].s].lines, arguments["line_number"].n, 5))
  {
  }

  /** A file that exists but cannot be read answers with the text of the exception, as the `except` of `get_source_code` does. */
  lemma SourceUnreadable(r: Registry, codec: Codec, env: Environment, arguments: Object)
    requires "file_path" in arguments && arguments["file_path"].JStr? && arguments["file_path"].s in env.files
    requires env.files[arguments["file_path"].s].ReadFails?
    requires "line_number" in arguments && arguments["line_number"].JNum?
    requires "context_lines" in arguments ==> arguments["context_lines"].JNum?
    ensures var c := Run(GetSourceCode, r, codec, env, arguments);
      && c.registry == r
      && c.results == [Error(env.files[arguments["file_path"].s].message)]
  {
  }

  /**
   * `evaluate_expression` either fails on its arguments, or reports the
   * evaluation and succeeds exactly when the evaluation is not an error.
   */
  lemma EvaluateSuccess(r: Registry, codec: Codec, env: Environment, arguments: Object)
    ensures var c := Run(EvaluateExpression, r, codec, env, arguments);
      && |c.results| == 1
      && (|| (c.registry == r && c.results[0].Keys == {"success", "error"} && c.results[0]["success"] == Flag(false))
          || (&& "evaluation" in c.results[0] && c.results[0]["evaluation"].EvaluationDump?
              && c.results[0]["success"] == Flag(!c.results[0]["evaluation"].evaluation.isError)))
  {
    var id := SessionId(arguments);
    var expression := TextOf(Required(arguments, "expression"), "expression");
    var frameId := OptionalInt(Get(arguments, "frame_id", JNull), "frame_id");
    if id.Given? && expression.Given? && frameId.Given? {
      var e := Evaluating(r, codec, id.value, expression.value, frameId.value);
      assert Run(EvaluateExpression, r, codec, env, arguments).results[0]["evaluation"] == EvaluationDump(e.result);
    }
  }

  /** `list_debuggable_processes` changes nothing and never reports more debuggable processes than processes. */
  lemma ProcessCounts(r: Registry, codec: Codec, env: Environment, arguments: Object)
    ensures var c := Run(ListDebuggableProcesses, r, codec, env, arguments);
      && c.registry == r
      && c.results[0]["total_count"].Number? && c.results[0]["debuggable_count"].Number?
      && 0 <= c.results[0]["debuggable_count"].n <= c.results[0]["total_count"].n <= |env.table|
  {
    Server.ReportCounts(env.table);
  }

  /** The tools that change sessions or breakpoints keep the registry valid. */
  lemma EditingValid(t: Tool, r: Registry, codec: Codec, env: Environment, arguments: Object)
    requires ValidRegistry(r)
    requires t.StopDebugSession? || t.SetBreakpoint? || t.ClearBreakpoint?
    ensures ValidRegistry(Run(t, r, codec, env, arguments).registry)
  {
    var id := SessionId(arguments);
    if id.Given? {
      match t
      case StopDebugSession =>
        DisconnectingValid(r, id.value);
      case SetBreakpoint =>
        var file := Required(arguments, "file_path");
        var line := Required(arguments, "line_number");
        var condition := OptionalText(Get(arguments, "condition", JNull), "condition");
        if file.Given? && file.value.JStr? && line.Given? && line.value.JNum? && condition.Given? {
          SettingValid(r, codec, id.value, file.value.s, line.value.n, condition.value);
        }
      case ClearBreakpoint =>
        var bpId := Required(arguments, "breakpoint_id");
        if bpId.Given? && bpId.value.JNum? {
          ClearingValid(r, codec, id.value, bpId.value.n);
        }
    }
  }

  /** The tools that only send requests through a session keep the registry valid. */
  lemma RequestingValid(t: Tool, r: Registry, codec: Codec, env: Environment, arguments: Object)
    requires ValidRegistry(r)
    requires t.Resume? || t.InspectStack? || t.InspectVariables? || t.EvaluateExpression?
    ensures ValidRegistry(Run(t, r, codec, env, arguments).registry)
  {
    var id := SessionId(arguments);
    if id.Given? {
      match t
      case Resume(s) =>
        SteppingValid(r, codec, id.value, Command(s));
      case InspectStack =>
        SteppingValid(r, codec, id.value, "stackTrace");
      case InspectVariables =>
        var frameId := Get(arguments, "frame_id", JNum(0));
        if frameId.JNum? {
          InspectingValid(r, codec, id.value, frameId.n);
        }
      case EvaluateExpression =>
        var expression := Required(arguments, "expression");
        var frameId := OptionalInt(Get(arguments, "frame_id", JNull), "frame_id");
        if expression.Given? && expression.value.JStr? && frameId.Given? {
          EvaluatingValid(r, codec, id.value, expression.value.s, frameId.value);
        }
    }
  }

  /** Every tool keeps the registry valid, given a session id `uuid4` has not drawn before. */
  lemma RunValid(t: Tool, r: Registry, codec: Codec, env: Environment, arguments: Object)
    requires ValidRegistry(r) && env.freshId !in r.sessions
    ensures ValidRegistry(Run(t, r, codec, env, arguments).registry)
  {
    if t.StopDebugSession? || t.SetBreakpoint? || t.ClearBreakpoint? {
      EditingValid(t, r, codec, env, arguments);
    } else if t.Resume? || t.InspectStack? || t.InspectVariables? || t.EvaluateExpression? {
      RequestingValid(t, r, codec, env, arguments);
    } else if t.StartDebugSession? {
      var host := Get(arguments, "host", JStr("localhost"));
      var port := Get(arguments, "port", JNum(5678));
      if host.JStr? && port.JNum? {
        CreatingValid(r, env.freshId, host.s, port.n);
        ConnectingValid(Creating(r, env.freshId, host.s, port.n), codec, env.freshId, env.dial);
      }
    }
  }

  /** Every call keeps the registry valid, given a session id `uuid4` has not drawn before. */
  lemma CallingValid(r: Registry, codec: Codec, env: Environment, name: string, arguments: Object)
    requires ValidRegistry(r) && env.freshId !in r.sessions
    ensures ValidRegistry(Calling(r, codec, env, name, arguments).registry)
  {
    if ToolOf(name).Some? {
      RunValid(ToolOf(name).value, r, codec, env, arguments);
    }
  }

  // ---------------------------------------------------------------------------
  // The handler against the shared client
  // ---------------------------------------------------------------------------

  /** `start_debug_session` on the client. */
  method HandleStart(client: DebugpyClient, env: Environment, arguments: Object) returns (results: seq<Result>)
    requires env.freshId !in client.sessions
    requires client.Valid()
    modifies client
    ensures Called(client.Abs(), results) == StartCall(old(client.Abs()), client.codec, env, arguments)
    ensures client.Valid()
  {
    var host := TextOf(Given(Get(arguments, "host", JStr("localhost"))), "host");
    var port := IntOf(Given(Get(arguments, "port", JNum(5678))), "port");
    if host.Raised? {
      return [Error(host.error)];
    }
    if port.Raised? {
      return [Error(port.error)];
    }
    var id := client.CreateSession(env.freshId, host.value, port.value);
    var ok := client.ConnectSession(id, env.dial);
    var session := client.GetSession(id);
    var dump := if session.Some? then SessionDump(session.value) else Null;
    var message := if ok then "Connected to debug session at " + host.value + ":" + IntText(port.value) else "Failed to connect";
    results := [map["success" := Flag(ok), "session_id" := Text(id), "session" := dump, "message" := Text(message)]];
  }

  /** `stop_debug_session` on the client. */
  method HandleStop(client: DebugpyClient, arguments: Object) returns (results: seq<Result>)
    requires client.Valid()
    modifies client
    ensures Called(client.Abs(), results) == StopCall(old(client.Abs()), arguments)
    ensures client.Valid()
  {
    var id := SessionId(arguments);
    if id.Raised? {
      return [Error(id.error)];
    }
    var ok := client.DisconnectSession(id.value);
    var message := if ok then "Session disconnected successfully" else "Failed to disconnect session";
    results := [map["success" := Flag(ok), "session_id" := Text(id.value), "message" := Text(message)]];
  }

  /** `list_debug_sessions`: reads the client and changes nothing. */
  method HandleSessions(client: DebugpyClient) returns (results: seq<Result>)
    requires client.Valid()
    ensures Called(client.Abs(), results) == SessionsCall(client.Abs())
  {
    var list := client.ListSessions();
    var dumped := set s | s in list;
    assert dumped == client.sessions.Values;
    results := [map["success" := Flag(true), "sessions" := SessionDumps(dumped), "count" := Number(|list|)]];
  }

  /** `get_session_status`: reads the client and changes nothing. */
  method HandleStatus(client: DebugpyClient, arguments: Object) returns (results: seq<Result>)
    ensures Called(client.Abs(), results) == StatusCall(client.Abs(), arguments)
  {
    var id := SessionId(arguments);
    if id.Raised? {
      return [Error(id.error)];
    }
    var session := client.GetSession(id.value);
    if session.None? {
      return [Error("Session " + id.value + " not found")];
    }
    var count := |client.ListBreakpoints(id.value)|;
    results := [map["success" := Flag(true), "session" := SessionDump(session.value), "breakpoints_count" := Number(count)]];
  }

  /** `set_breakpoint` on the client. */
  method HandleSet(client: DebugpyClient, arguments: Object) returns (results: seq<Result>)
    requires client.Valid()
    modifies client
    ensures Called(client.Abs(), results) == SetCall(old(client.Abs()), client.codec, arguments)
    ensures client.Valid()
  {
    var id := SessionId(arguments);
    var file := TextOf(Required(arguments, "file_path"), "file_path");
    var line := IntOf(Required(arguments, "line_number"), "line_number");
    var condition := OptionalText(Get(arguments, "condition", JNull), "condition");
    if id.Raised? {
      return [Error(id.error)];
    }
    if file.Raised? {
      return [Error(file.error)];
    }
    if line.Raised? {
      return [Error(line.error)];
    }
    if condition.Raised? {
      return [Error(condition.error)];
    }
    var placed := client.SetBreakpoint(id.value, file.value, line.value, condition.value);
    var at := file.value + ":" + IntText(line.value);
    if placed.Some? {
      results := [map["success" := Flag(true), "breakpoint" := BreakpointDump(placed.value), "message" := Text("Breakpoint set at " + at)]];
    } else {
      results := [Error("Failed to set breakpoint at " + at)];
    }
  }

  /** `clear_breakpoint` on the client. */
  method HandleClear(client: DebugpyClient, arguments: Object) returns (results: seq<Result>)
    requires client.Valid()
    modifies client
    ensures Called(client.Abs(), results) == ClearCall(old(client.Abs()), client.codec, arguments)
    ensures client.Valid()
  {
    var id := SessionId(arguments);
    var bpId := IntOf(Required(arguments, "breakpoint_id"), "breakpoint_id");
    if id.Raised? {
      return [Error(id.error)];
    }
    if bpId.Raised? {
      return [Error(bpId.error)];
    }
    var ok := client.ClearBreakpoint(id.value, bpId.value);
    var message := if ok then "Breakpoint " + IntText(bpId.value) + " cleared" else "Failed to clear breakpoint " + IntText(bpId.value);
    results := [map["success" := Flag(ok), "message" := Text(message)]];
  }

  /** `list_breakpoints`: reads the client and changes nothing. */
  method HandleBreakpoints(client: DebugpyClient, arguments: Object) returns (results: seq<Result>)
    ensures Called(client.Abs(), results) == BreakpointsCall(client.Abs(), arguments)
  {
    var id := SessionId(arguments);
    if id.Raised? {
      return [Error(id.error)];
    }
    var list := client.ListBreakpoints(id.value);
    results := [map["success" := Flag(true), "session_id" := Text(id.value), "breakpoints" := BreakpointDumps(list), "count" := Number(|list|)]];
  }

  /** A stepping tool on the client. */
  method HandleResume(client: DebugpyClient, s: Stepper, arguments: Object) returns (results: seq<Result>)
    requires client.Valid()
    modifies client
    ensures Called(client.Abs(), results) == ResumeCall(old(client.Abs()), client.codec, s, arguments)
    ensures client.Valid()
  {
    var id := SessionId(arguments);
    if id.Raised? {
      return [Error(id.error)];
    }
    var success := client.Step(id.value, Command(s));
    var message := if Truthy(success) then Done(s).0 else Done(s).1;
    results := [map["success" := Raw(success), "session_id" := Text(id.value), "message" := Text(message)]];
  }

  /** `inspect_stack` on the client. */
  method HandleStack(client: DebugpyClient, arguments: Object) returns (results: seq<Result>)
    requires client.Valid()
    modifies client
    ensures Called(client.Abs(), results) == StackCall(old(client.Abs()), client.codec, arguments)
    ensures client.Valid()
  {
    var id := SessionId(arguments);
    if id.Raised? {
      return [Error(id.error)];
    }
    var frames := client.GetStackTrace(id.value);
    results := [map["success" := Flag(true), "session_id" := Text(id.value), "stack_frames" := FrameDumps(frames),
                    "frame_count" := Number(|frames|)]];
  }

  /** `inspect_variables` on the client. */
  method HandleVariables(client: DebugpyClient, arguments: Object) returns (results: seq<Result>)
    requires client.Valid()
    modifies client
    ensures Called(client.Abs(), results) == VariablesCall(old(client.Abs()), client.codec, arguments)
    ensures client.Valid()
  {
    var id := SessionId(arguments);
    var frameId := IntOf(Given(Get(arguments, "frame_id", JNum(0))), "frame_id");
    if id.Raised? {
      return [Error(id.error)];
    }
    if frameId.Raised? {
      return [Error(frameId.error)];
    }
    var variables := client.GetVariables(id.value, frameId.value);
    results := [map["success" := Flag(true), "session_id" := Text(id.value), "frame_id" := Number(frameId.value),
                    "variables" := VariableDumps(variables), "variable_count" := Number(|variables|)]];
  }

  /** `evaluate_expression` on the client. */
  method HandleEvaluate(client: DebugpyClient, arguments: Object) returns (results: seq<Result>)
    requires client.Valid()
    modifies client
    ensures Called(client.Abs(), results) == EvaluateCall(old(client.Abs()), client.codec, arguments)
    ensures client.Valid()
  {
    var id := SessionId(arguments);
    var expression := TextOf(Required(arguments, "expression"), "expression");
    var frameId := OptionalInt(Get(arguments, "frame_id", JNull), "frame_id");
    if id.Raised? {
      return [Error(id.error)];
    }
    if expression.Raised? {
      return [Error(expression.error)];
    }
    if frameId.Raised? {
      return [Error(frameId.error)];
    }
    var evaluation := client.EvaluateExpression(id.value, expression.value, frameId.value);
    results := [map["success" := Flag(!evaluation.isError), "session_id" := Text(id.value),
                    "evaluation" := EvaluationDump(evaluation)]];
  }

  /** `get_source_code`, reading the file line by line. */
  method HandleSource(env: Environment, arguments: Object) returns (result: Result)
    ensures result == SourceCall(env, arguments)
  {
    var path := TextOf(Required(arguments, "file_path"), "file_path");
    var line := IntOf(Required(arguments, "line_number"), "line_number");
    var context := IntOf(Given(Get(arguments, "context_lines", JNum(5))), "context_lines");
    if path.Raised? {
      return Error(path.error);
    }
    if line.Raised? {
      return Error(line.error);
    }
    if context.Raised? {
      return Error(context.error);
    }
    var view := Server.GetSourceCode(env.files, path.value, line.value, context.value);
    result := SourceResult(view);
  }

  /**
   * `handle_call_tool` against the shared client: the answer and the
   * client's new state are those of `Calling`.
   */
  method HandleCallTool(client: DebugpyClient, env: Environment, name: string, arguments: Object) returns (results: seq<Result>)
    requires env.freshId !in client.sessions
    requires client.Valid()
    modifies client
    ensures Called(client.Abs(), results) == Calling(old(client.Abs()), client.codec, env, name, arguments)
    ensures client.Valid()
  {
    var tool := ToolOf(name);
    if tool.None? {
      return [Error("Unknown tool: " + name)];
    }
    match tool.value
    case StartDebugSession =>
      results := HandleStart(client, env, arguments);
    case StopDebugSession =>
      results := HandleStop(client, arguments);
    case ListDebugSessions =>
      results := HandleSessions(client);
    case GetSessionStatus =>
      results := HandleStatus(client, arguments);
    case SetBreakpoint =>
      results := HandleSet(client, arguments);
    case ClearBreakpoint =>
      results := HandleClear(client, arguments);
    case ListBreakpoints =>
      results := HandleBreakpoints(client, arguments);
    case Resume(s) =>
      results := HandleResume(client, s, arguments);
    case InspectStack =>
      results := HandleStack(client, arguments);
    case InspectVariables =>
      results := HandleVariables(client, arguments);
    case EvaluateExpression =>
      results := HandleEvaluate(client, arguments);
    case GetSourceCode =>
      var result := HandleSource(env, arguments);
      results := [result];
    case ListDebuggableProcesses =>
      var report := Server.ListDebuggableProcesses(env.table);
      results := [ProcessResult(report)];
  }
}
