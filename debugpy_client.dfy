/**
 * `DebugpyClient`: a registry of debug sessions keyed by session id, with
 * one socket per connected session, the breakpoints set through each
 * session, and one sequence counter shared by all sessions. Every request
 * is synchronous: the frame is written and the reply read off the same
 * socket before the call returns.
 *
 * A socket is a `Link`: the bytes the adapter will still send, and the
 * frames written to it. Which session ids exist is the caller's choice
 * (`uuid4` in the source); whether `socket.connect` succeeds is a `Dial`.
 */
module Debugpy {
  import opened Wrappers
  import opened PyText
  import opened Json
  import opened Models
  import opened DebugpyWire
  import Framing
  import Dap

  /** One connected socket: the bytes the adapter will still send, and the frames written so far. */
  datatype Link = Link(inbound: seq<byte>, written: seq<seq<byte>>)

  /** How `socket.connect` turns out: refused, with the text of the exception, or connected. */
  datatype Dial = Refused(reason: string) | Accepted(link: Link)

  /** `json.dumps` with UTF-8 encoding, and UTF-8 decoding with `json.loads` (`None` when that raises). */
  datatype Codec = Codec(serialize: Json -> seq<byte>, parse: seq<byte> -> Option<Json>)

  /** What one request can touch: the session's socket, if it has one, and the shared sequence counter. */
  datatype Channel = Channel(link: Option<Link>, seqNo: int)

  /** The channel after a request, and the response the request returned. */
  datatype Exchanged = Exchanged(channel: Channel, response: Option<Json>)

  /**
   * `_send_request`: without a socket, `None` and nothing consumed;
   * otherwise the request takes the current seq, its frame is written, and
   * the response is read off the socket.
   */
  function Request(c: Channel, codec: Codec, command: string, arguments: Object): Exchanged {
    match c.link
    case None => Exchanged(c, None)
    case Some(link) =>
      var r := Response(link.inbound, codec.parse);
      var frame := RequestFrame(codec.serialize, c.seqNo, command, arguments);
      Exchanged(Channel(Some(Link(r.rest, link.written + [frame])), c.seqNo + 1), r.response)
  }

  /**
   * A request without a socket consumes no seq and writes nothing; with one
   * it consumes exactly the current seq and writes one frame, from which
   * both readers take the serialised request back, and the response is
   * what `_read_response` reads from the incoming bytes.
   */
  lemma RequestFrames(c: Channel, codec: Codec, command: string, arguments: Object)
    ensures var e := Request(c, codec, command, arguments);
      && e.channel.link.Some? == c.link.Some?
      && (c.link.None? ==> e.channel.seqNo == c.seqNo && e.response.None?)
      && (c.link.Some? ==>
            var body := codec.serialize(RequestJson(c.seqNo, command, arguments));
            var written := e.channel.link.value.written;
            && e.channel.seqNo == c.seqNo + 1
            && written[..|written| - 1] == c.link.value.written
            && Framing.Step(Framing.DeclaredLength, written[|written| - 1]) == Framing.Frame(body, [])
            && e.response == Response(c.link.value.inbound, codec.parse).response)
  {
    if c.link.Some? {
      var e := Request(c, codec, command, arguments);
      var written := e.channel.link.value.written;
      var frame := RequestFrame(codec.serialize, c.seqNo, command, arguments);
      assert written == c.link.value.written + [frame];
      RequestFrameReadsBack(codec.serialize, codec.parse, c.seqNo, command, arguments, []);
      assert frame + [] == frame;
    }
  }

  /**
   * `response and response.get("success")` as a truth value; `None` when
   * `.get` raises, because the response is a truthy value that is not a dict.
   */
  function Success(response: Option<Json>): Option<bool> {
    match response
    case None => Some(false)
    case Some(j) =>
      if !Truthy(j) then Some(false)
      else if j.JObj? then Some(Truthy(Get(j.fields, "success", JNull)))
      else None
  }

  /** The `initialize` arguments `connect_session` sends. */
  const InitializeArguments: Object := map[
    "clientID" := JStr("debugpy-mcp-server"),
    "clientName" := JStr("Debugpy MCP Server"),
    "adapterID" := JStr("python"),
    "pathFormat" := JStr("path"),
    "linesStartAt1" := JBool(true),
    "columnsStartAt1" := JBool(true),
    "supportsVariableType" := JBool(true),
    "supportsVariablePaging" := JBool(true),
    "supportsRunInTerminalRequest" := JBool(false)]

  // ---------------------------------------------------------------------------
  // Breakpoint lists
  // ---------------------------------------------------------------------------

  /** No two breakpoints of a list share an id. */
  predicate UniqueIds(list: seq<Breakpoint>) {
    forall i, j :: 0 <= i < j < |list| ==> list[i].breakpointId != list[j].breakpointId
  }

  /** The id `set_breakpoint` gives a new breakpoint, as written: one more than the length of the list. */
  function NextIdAsWritten(list: seq<Breakpoint>): int {
    |list| + 1
  }

  /** The id a new breakpoint gets, as intended: one more than the largest id in the list, and 1 for an empty list. */
  function NextId(list: seq<Breakpoint>): (r: int)
    ensures r >= 1
    ensures forall i :: 0 <= i < |list| ==> list[i].breakpointId < r
  {
    if list == [] then 1
    else
      var r := NextId(list[..|list| - 1]);
      var last := list[|list| - 1].breakpointId;
      if last < r then r else last + 1
  }

  /** A breakpoint with the next id keeps the ids of a list distinct. */
  lemma AppendNextKeepsUnique(list: seq<Breakpoint>, b: Breakpoint)
    requires UniqueIds(list) && b.breakpointId == NextId(list)
    ensures UniqueIds(list + [b])
  {
  }

  /**
   * As written, an id can repeat: after the first of two breakpoints is
   * cleared, the next one set gets the id of the one that is left.
   */
  lemma IdsRepeatAsWritten()
    ensures var left := [Breakpoint(2, "app.py", 7)];
      && UniqueIds([Breakpoint(1, "app.py", 3)] + left)
      && !UniqueIds(left + [Breakpoint(NextIdAsWritten(left), "app.py", 9)])
  {
    var left := [Breakpoint(2, "app.py", 7)];
    var grown := left + [Breakpoint(NextIdAsWritten(left), "app.py", 9)];
    assert grown[0].breakpointId == grown[1].breakpointId;
  }

  /** The index of the first breakpoint with id `id`, if any. */
  function FindId(list: seq<Breakpoint>, id: int): (r: Option<nat>)
    ensures r.Some? ==> r.value < |list| && list[r.value].breakpointId == id
    ensures r.Some? ==> forall j :: 0 <= j < r.value ==> list[j].breakpointId != id
    ensures r.None? ==> forall j :: 0 <= j < |list| ==> list[j].breakpointId != id
  {
    if list == [] then None
    else if list[0].breakpointId == id then Some(0)
    else match FindId(list[1..], id)
      case None => None
      case Some(i) => Some(i + 1)
  }

  /** `list.pop(i)`. */
  function Without(list: seq<Breakpoint>, i: nat): seq<Breakpoint>
    requires i < |list|
  {
    list[..i] + list[i + 1..]
  }

  /** Removing one breakpoint keeps the others in order; with distinct ids, none with the removed id is left. */
  lemma WithoutKeepsUnique(list: seq<Breakpoint>, i: nat)
    requires UniqueIds(list) && i < |list|
    ensures var rest := Without(list, i);
      && |rest| == |list| - 1
      && (forall j :: 0 <= j < i ==> rest[j] == list[j])
      && (forall j :: i <= j < |rest| ==> rest[j] == list[j + 1])
      && UniqueIds(rest)
      && forall j :: 0 <= j < |rest| ==> rest[j].breakpointId != list[i].breakpointId
  {
    var rest := Without(list, i);
    forall j | 0 <= j < |rest| ensures rest[j] == list[if j < i then j else j + 1] {
    }
  }

  /** The `setBreakpoints` entry `set_breakpoint` sends for a breakpoint; a missing condition is sent as `null`. */
  function Entry(b: Breakpoint): Json {
    JObj(map["line" := JNum(b.lineNumber), "condition" := if b.condition.Some? then JStr(b.condition.value) else JNull])
  }

  /** The entries of the breakpoints of `list` that are in `file`, in list order. */
  function FileEntries(list: seq<Breakpoint>, file: string): seq<Json> {
    if list == [] then []
    else FileEntries(list[..|list| - 1], file) + (if list[|list| - 1].filePath == file then [Entry(list[|list| - 1])] else [])
  }

  /** The number of breakpoints of `list` in `file`. */
  function CountIn(list: seq<Breakpoint>, file: string): nat {
    if list == [] then 0 else CountIn(list[1..], file) + (if list[0].filePath == file then 1 else 0)
  }

  /** There is one entry per breakpoint of the file, and an entry for each of them. */
  lemma {:induction false} FileEntriesCount(list: seq<Breakpoint>, file: string)
    ensures |FileEntries(list, file)| == CountIn(list, file)
    ensures forall i :: 0 <= i < |list| && list[i].filePath == file ==> Entry(list[i]) in FileEntries(list, file)
    decreases |list|
  {
    if list != [] {
      var init := list[..|list| - 1];
      FileEntriesCount(init, file);
      CountSplit(list, file);
      forall i | 0 <= i < |list| && list[i].filePath == file
        ensures Entry(list[i]) in FileEntries(list, file)
      {
        if i < |list| - 1 {
          assert list[i] == init[i];
        }
      }
    }
  }

  /** Counting splits at the last breakpoint. */
  lemma {:induction false} CountSplit(list: seq<Breakpoint>, file: string)
    requires list != []
    ensures CountIn(list, file) == CountIn(list[..|list| - 1], file) + (if list[|list| - 1].filePath == file then 1 else 0)
    decreases |list|
  {
    if |list| > 1 {
      var tail := list[1..];
      CountSplit(tail, file);
      assert tail[..|tail| - 1] == list[..|list| - 1][1..];
    } else {
      assert list[..0] == [];
    }
  }

  /** The arguments of a `setBreakpoints` request for `file`. */
  function SetArguments(file: string, entries: seq<Json>): Object {
    Dap.SetBreakpointsArguments(file, entries)
  }

  /** As written, `set_breakpoint` sends the new breakpoint alone. */
  function SetRequestAsWritten(b: Breakpoint): Object {
    SetArguments(b.filePath, [Entry(b)])
  }

  /** As written, `clear_breakpoint` sends an empty list for the file. */
  function ClearRequestAsWritten(b: Breakpoint): Object {
    SetArguments(b.filePath, [])
  }

  /** Counting over a concatenation adds up. */
  lemma {:induction false} CountAppend(a: seq<Breakpoint>, b: seq<Breakpoint>, file: string)
    ensures CountIn(a + b, file) == CountIn(a, file) + CountIn(b, file)
    decreases |a|
  {
    if a != [] {
      CountAppend(a[1..], b, file);
      assert (a + b)[0] == a[0] && (a + b)[1..] == a[1..] + b;
    } else {
      assert a + b == b;
    }
  }

  /**
   * `setBreakpoints` replaces all of a file's breakpoints at the adapter.
   * As written, `set_breakpoint` sends one entry while the file, counting
   * the new breakpoint, has one more than it had before: every earlier
   * breakpoint of the file is dropped at the adapter.
   */
  lemma SetDropsSiblingsAsWritten(list: seq<Breakpoint>, b: Breakpoint)
    ensures SetRequestAsWritten(b)["breakpoints"] == JArr([Entry(b)])
    ensures |FileEntries(list + [b], b.filePath)| == CountIn(list, b.filePath) + 1
  {
    FileEntriesCount(list + [b], b.filePath);
    CountAppend(list, [b], b.filePath);
  }

  /**
   * As written, `clear_breakpoint` sends no entry for the file, while the
   * local list keeps every other breakpoint of that file.
   */
  lemma ClearDropsSiblingsAsWritten(list: seq<Breakpoint>, i: nat)
    requires i < |list|
    ensures ClearRequestAsWritten(list[i])["breakpoints"] == JArr([])
    ensures |FileEntries(Without(list, i), list[i].filePath)| == CountIn(list, list[i].filePath) - 1
  {
    var file := list[i].filePath;
    FileEntriesCount(Without(list, i), file);
    CountAppend(list[..i], list[i + 1..], file);
    CountAppend(list[..i], [list[i]] + list[i + 1..], file);
    CountAppend([list[i]], list[i + 1..], file);
    assert list == list[..i] + ([list[i]] + list[i + 1..]);
  }

  /** As intended, the request for a new breakpoint lists the file's breakpoints in order, the new one last. */
  lemma SetRequestListsFile(list: seq<Breakpoint>, b: Breakpoint)
    ensures FileEntries(list + [b], b.filePath) == FileEntries(list, b.filePath) + [Entry(b)]
  {
    assert (list + [b])[..|list|] == list;
  }

  // ---------------------------------------------------------------------------
  // get_variables / evaluate_expression result mapping
  // ---------------------------------------------------------------------------

  /** `x > 0` on a JSON value: numbers and booleans compare; anything else raises `TypeError`. */
  function Positive(x: Json): Option<bool> {
    match x
    case JNum(n) => Some(n > 0)
    case JBool(b) => Some(b)
    case _ => None
  }

  /**
   * The `Variable` built from one entry of a `variables` response; `None`
   * when building it raises: the entry is not a dict, a field that must be
   * a string is not one, or `variablesReference` does not compare with 0.
   */
  function VariableOf(scopeName: Json, v: Json): Option<Variable> {
    if !v.JObj? then None
    else
      var name := Get(v.fields, "name", JNull);
      var value := Get(v.fields, "value", JNull);
      var kind := Get(v.fields, "type", JStr("unknown"));
      var expandable := Positive(Get(v.fields, "variablesReference", JNum(0)));
      if name.JStr? && value.JStr? && kind.JStr? && scopeName.JStr? && expandable.Some? then
        Some(Variable(name.s, value.s, kind.s, scopeName.s, isExpandable := expandable.value))
      else None
  }

  /**
   * A variable mirrors its entry: name, value and type (`"unknown"` when
   * absent), its scope's name, and it is expandable exactly when the entry's
   * `variablesReference` is positive (0 when absent).
   */
  lemma VariableOfMirrors(scopeName: Json, v: Json)
    requires VariableOf(scopeName, v).Some?
    ensures var x := VariableOf(scopeName, v).value;
      && v.JObj?
      && Get(v.fields, "name", JNull) == JStr(x.name)
      && Get(v.fields, "value", JNull) == JStr(x.value)
      && Get(v.fields, "type", JStr("unknown")) == JStr(x.valueType)
      && scopeName == JStr(x.scope)
      && (x.isExpandable <==> match Get(v.fields, "variablesReference", JNum(0))
                              case JNum(n) => n > 0
                              case JBool(b) => b
                              case _ => false)
  {
  }

  /** The variables of a list of entries; `None` when one of them raises. */
  function VariableList(scopeName: Json, entries: seq<Json>): Option<seq<Variable>> {
    if entries == [] then Some([])
    else match (VariableOf(scopeName, entries[0]), VariableList(scopeName, entries[1..]))
      case (Some(x), Some(rest)) => Some([x] + rest)
      case _ => None
  }

  /** `response.get("body", {}).get(key, [])`, iterated; `None` when any step raises. */
  function BodyItems(response: Object, key: string): Option<seq<Json>> {
    var body := Get(response, "body", Empty);
    if body.JObj? then DictElements(Get(body.fields, key, JArr([]))) else None
  }

  /** The variables a `variables` response yields for a scope: none unless it succeeded; `None` when that raises. */
  function VariablesOf(scopeName: Json, response: Option<Json>): Option<seq<Variable>> {
    match Success(response)
    case None => None
    case Some(false) => Some([])
    case Some(true) =>
      match BodyItems(response.value.fields, "variables")
      case None => None
      case Some(entries) => VariableList(scopeName, entries)
  }

  /** What fetching the variables of some scopes did to the channel, and their variables (`None`: raised). */
  datatype Fetched = Fetched(channel: Channel, vars: Option<seq<Variable>>)

  /**
   * The loop over scopes of `get_variables`: a scope whose
   * `variablesReference` is falsy is skipped; for the others a `variables`
   * request is made and its variables are appended.
   */
  function FetchScopes(c: Channel, codec: Codec, scopes: seq<Json>): Fetched
    decreases |scopes|
  {
    if scopes == [] then Fetched(c, Some([]))
    else if !scopes[0].JObj? then Fetched(c, None)
    else
      var name := Get(scopes[0].fields, "name", JStr("unknown"));
      var ref := Get(scopes[0].fields, "variablesReference", JNull);
      if !Truthy(ref) then FetchScopes(c, codec, scopes[1..])
      else
        var e := Request(c, codec, "variables", map["variablesReference" := ref]);
        match VariablesOf(name, e.response)
        case None => Fetched(e.channel, None)
        case Some(vs) =>
          var f := FetchScopes(e.channel, codec, scopes[1..]);
          Fetched(f.channel, if f.vars.Some? then Some(vs + f.vars.value) else None)
  }

  /** The variables `acc` found so far, followed by what the rest of the scopes give. */
  function After(acc: seq<Variable>, f: Fetched): Fetched {
    Fetched(f.channel, Prepend(acc, f.vars))
  }

  /** Fetching keeps a socket a socket, and no socket none, and never winds the counter back. */
  lemma {:induction false} FetchKeepsLink(c: Channel, codec: Codec, scopes: seq<Json>)
    ensures FetchScopes(c, codec, scopes).channel.link.Some? == c.link.Some?
    ensures FetchScopes(c, codec, scopes).channel.seqNo >= c.seqNo
    decreases |scopes|
  {
    if scopes != [] && scopes[0].JObj? {
      var ref := Get(scopes[0].fields, "variablesReference", JNull);
      if !Truthy(ref) {
        FetchKeepsLink(c, codec, scopes[1..]);
      } else {
        var e := Request(c, codec, "variables", map["variablesReference" := ref]);
        RequestFrames(c, codec, "variables", map["variablesReference" := ref]);
        FetchKeepsLink(e.channel, codec, scopes[1..]);
      }
    }
  }

  /** A scope whose `variablesReference` is falsy costs no request and adds no variable. */
  lemma FalsyScopeSkipped(c: Channel, codec: Codec, scope: Object, scopes: seq<Json>)
    requires !Truthy(Get(scope, "variablesReference", JNull))
    ensures FetchScopes(c, codec, [JObj(scope)] + scopes) == FetchScopes(c, codec, scopes)
  {
    assert ([JObj(scope)] + scopes)[1..] == scopes;
  }

  /** Without a socket no request is made, no seq is consumed, and every scope with a reference yields nothing. */
  lemma {:induction false} FetchWithoutSocket(c: Channel, codec: Codec, scopes: seq<Json>)
    requires c.link.None?
    ensures FetchScopes(c, codec, scopes).channel == c
    decreases |scopes|
  {
    if scopes != [] && scopes[0].JObj? {
      FetchWithoutSocket(c, codec, scopes[1..]);
    }
  }

  /** The result of `get_variables` and the channel after it: `[]` whenever something raised or failed. */
  function Variables(c: Channel, codec: Codec, frameId: int): (Channel, seq<Variable>) {
    var s := Request(c, codec, "scopes", map["frameId" := JNum(frameId)]);
    if Success(s.response) != Some(true) then (s.channel, [])
    else match BodyItems(s.response.value.fields, "scopes")
      case None => (s.channel, [])
      case Some(scopes) =>
        var f := FetchScopes(s.channel, codec, scopes);
        (f.channel, f.vars.GetOr([]))
  }

  /**
   * `response and response.get("success", False)`, what `continue_execution`
   * and the step operations return; `False` when `.get` raises because the
   * response is a truthy value that is not a dict.
   */
  function Resumed(response: Option<Json>): Json {
    match response
    case None => JNull
    case Some(j) =>
      if !Truthy(j) then j
      else if j.JObj? then Get(j.fields, "success", JBool(false))
      else JBool(false)
  }

  /** The value a step operation returns is truthy exactly when the response succeeded. */
  lemma ResumedTruthy(response: Option<Json>)
    ensures Truthy(Resumed(response)) <==> Success(response) == Some(true)
  {
  }

  /**
   * The `StackFrame` built from one entry of a `stackTrace` response;
   * `None` when building it raises: the entry or its `source` is not a
   * dict, or a field does not have the type the record declares.
   */
  function FrameOf(f: Json): Option<StackFrame> {
    if !f.JObj? then None
    else
      var id := Get(f.fields, "id", JNull);
      var name := Get(f.fields, "name", JNull);
      var source := Get(f.fields, "source", Empty);
      var line := Get(f.fields, "line", JNull);
      var column := Get(f.fields, "column", JNull);
      if !source.JObj? then None
      else
        var path := Get(source.fields, "path", JStr(""));
        if id.JNum? && name.JStr? && path.JStr? && line.JNum? && (column.JNull? || column.JNum?) then
          Some(StackFrame(id.n, name.s, path.s, line.n, column := if column.JNum? then Some(column.n) else None))
        else None
  }

  /**
   * A frame mirrors its entry: id, name and line, the path of its source
   * (`""` when absent), and a column only when the entry has a numeric one.
   */
  lemma FrameOfMirrors(f: Json)
    requires FrameOf(f).Some?
    ensures var x := FrameOf(f).value;
      && f.JObj?
      && Get(f.fields, "id", JNull) == JNum(x.frameId)
      && Get(f.fields, "name", JNull) == JStr(x.name)
      && Get(f.fields, "line", JNull) == JNum(x.lineNumber)
      && Get(Get(f.fields, "source", Empty).fields, "path", JStr("")) == JStr(x.filePath)
      && (x.column.Some? <==> Get(f.fields, "column", JNull).JNum?)
      && x.source.None?
  {
  }

  /** The frames of a list of entries; `None` when one of them raises. */
  function FrameList(entries: seq<Json>): Option<seq<StackFrame>> {
    if entries == [] then Some([])
    else match (FrameOf(entries[0]), FrameList(entries[1..]))
      case (Some(x), Some(rest)) => Some([x] + rest)
      case _ => None
  }

  /** `get_stack_trace`'s mapping of the response: its frames, or none when it failed or something raised. */
  function FramesOf(response: Option<Json>): seq<StackFrame> {
    if Success(response) != Some(true) then []
    else match BodyItems(response.value.fields, "stackFrames")
      case None => []
      case Some(entries) => FrameList(entries).GetOr([])
  }

  /** A successful response yields one frame per entry, each mirroring it, unless one of them raised. */
  lemma {:induction false} FrameListMirrors(entries: seq<Json>)
    requires FrameList(entries).Some?
    ensures |FrameList(entries).value| == |entries|
    ensures forall i :: 0 <= i < |entries| ==> FrameOf(entries[i]) == Some(FrameList(entries).value[i])
    decreases |entries|
  {
    if entries != [] {
      FrameListMirrors(entries[1..]);
    }
  }

  /** A successful variables response yields one variable per entry, each built from it, unless one of them raised. */
  lemma {:induction false} VariableListMirrors(scopeName: Json, entries: seq<Json>)
    requires VariableList(scopeName, entries).Some?
    ensures |VariableList(scopeName, entries).value| == |entries|
    ensures forall i :: 0 <= i < |entries| ==> VariableOf(scopeName, entries[i]) == Some(VariableList(scopeName, entries).value[i])
    decreases |entries|
  {
    if entries != [] {
      VariableListMirrors(scopeName, entries[1..]);
    }
  }

  /** What `str(e)` gives for a `ValidationError` of `ExpressionResult`, abbreviated to its first line. */
  const ValidationMessage: string := "1 validation error for ExpressionResult"

  /** An error result of `evaluate_expression`. */
  function Failure(expression: string, message: string): ExpressionResult {
    ExpressionResult(expression, "", "error", isError := true, errorMessage := Some(message))
  }

  /**
   * `evaluate_expression`'s mapping of the response: the body's result and
   * type on success; otherwise an error carrying the response's `message`,
   * `"Unknown error"` when it has none, or `"No response"` when there is no
   * (truthy) response; a raised exception becomes an error with its text.
   */
  function EvaluationOf(expression: string, response: Option<Json>): ExpressionResult {
    match Success(response)
    case None => Failure(expression, NoGetMessage(response.value))
    case Some(true) =>
      var body := Get(response.value.fields, "body", Empty);
      if !body.JObj? then Failure(expression, NoGetMessage(body))
      else
        var result := Get(body.fields, "result", JStr(""));
        var kind := Get(body.fields, "type", JStr("unknown"));
        if result.JStr? && kind.JStr? then ExpressionResult(expression, result.s, kind.s)
        else Failure(expression, ValidationMessage)
    case Some(false) =>
      if response.None? || !Truthy(response.value) then Failure(expression, "No response")
      else match Get(response.value.fields, "message", JStr("Unknown error"))
        case JStr(m) => Failure(expression, m)
        case JNull => ExpressionResult(expression, "", "error", isError := true)
        case _ => Failure(expression, ValidationMessage)
  }

  /**
   * A result is an error when the response did not succeed or its body was
   * unusable; an error has result `""` and type `"error"`, a success has no
   * message; an error lacks a message exactly when a failed response's
   * `message` is `null`; a missing response is reported as `"No response"`,
   * a failed one without a message as `"Unknown error"`.
   */
  lemma EvaluationCases(expression: string, response: Option<Json>)
    ensures var r := EvaluationOf(expression, response);
      && r.expression == expression
      && (!r.isError ==> r.errorMessage.None?)
      && (r.isError && r.errorMessage.None? <==>
            && response.Some? && response.value.JObj? && Truthy(response.value)
            && !Truthy(Get(response.value.fields, "success", JNull))
            && Get(response.value.fields, "message", JStr("Unknown error")) == JNull)
      && (r.isError ==> r.result == "" && r.resultType == "error")
      && (Success(response) != Some(true) ==> r.isError)
      && (response.None? ==> r.errorMessage == Some("No response"))
      && ((response.Some? && response.value.JObj? && Truthy(response.value)
           && !Truthy(Get(response.value.fields, "success", JNull)) && "message" !in response.value.fields)
          ==> r.errorMessage == Some("Unknown error"))
  {
  }

  /** A successful response with a dict body holding string `result` and `type` is not an error, and carries them. */
  lemma EvaluationSucceeds(expression: string, response: Object, result: string, kind: string)
    requires Truthy(Get(response, "success", JNull))
    requires Get(response, "body", Empty).JObj?
    requires Get(Get(response, "body", Empty).fields, "result", JStr("")) == JStr(result)
    requires Get(Get(response, "body", Empty).fields, "type", JStr("unknown")) == JStr(kind)
    ensures EvaluationOf(expression, Some(JObj(response))) == ExpressionResult(expression, result, kind)
  {
  }

  // ---------------------------------------------------------------------------
  // The registry and its operations
  // ---------------------------------------------------------------------------

  /** The fields of `DebugpyClient`, as values. */
  datatype Registry = Registry(
    sessions: map<string, DebugSession>,
    connections: map<string, Link>,
    breakpoints: map<string, seq<Breakpoint>>,
    sequenceNumber: int)

  /** A client just constructed: no session, and the counter at 1. */
  const Fresh := Registry(map[], map[], map[], 1)

  /**
   * What every operation keeps: each session has a breakpoint list and
   * nothing else does; a session has a socket exactly when it is connected;
   * a session is stored under its own id; the counter is positive; and no
   * two breakpoints of a session share an id.
   */
  predicate ValidRegistry(r: Registry) {
    && r.sessions.Keys == r.breakpoints.Keys
    && r.connections.Keys <= r.sessions.Keys
    && r.sequenceNumber >= 1
    && (forall id :: id in r.sessions ==> r.sessions[id].sessionId == id)
    && (forall id :: id in r.sessions ==> (id in r.connections <==> r.sessions[id].isConnected))
    && (forall id :: id in r.breakpoints ==> UniqueIds(r.breakpoints[id]))
  }

  lemma FreshValid()
    ensures ValidRegistry(Fresh)
  {
  }

  /** The socket of a session, if any, and the shared counter. */
  function ChannelOf(r: Registry, id: string): Channel {
    Channel(if id in r.connections then Some(r.connections[id]) else None, r.sequenceNumber)
  }

  /** The registry after a request through session `id` left the channel as `c`. */
  function Through(r: Registry, id: string, c: Channel): Registry {
    r.(connections := if c.link.Some? then r.connections[id := c.link.value] else r.connections, sequenceNumber := c.seqNo)
  }

  /** What a request through session `id` does to the registry. */
  function Requested(r: Registry, codec: Codec, id: string, command: string, arguments: Object): (Registry, Option<Json>) {
    var e := Request(ChannelOf(r, id), codec, command, arguments);
    (Through(r, id, e.channel), e.response)
  }

  /**
   * A request touches only the session's socket and the shared counter:
   * without a socket nothing changes and there is no response; with one,
   * exactly one seq is consumed, whichever session it goes through.
   */
  lemma RequestedFrames(r: Registry, codec: Codec, id: string, command: string, arguments: Object)
    ensures var (after, response) := Requested(r, codec, id, command, arguments);
      && after.sessions == r.sessions && after.breakpoints == r.breakpoints
      && after.connections.Keys == r.connections.Keys
      && (forall other :: other in r.connections && other != id ==> after.connections[other] == r.connections[other])
      && (id !in r.connections ==> after == r && response.None?)
      && (id in r.connections ==> after.sequenceNumber == r.sequenceNumber + 1)
  {
    RequestFrames(ChannelOf(r, id), codec, command, arguments);
  }

  /** A request keeps the registry valid. */
  lemma RequestedValid(r: Registry, codec: Codec, id: string, command: string, arguments: Object)
    requires ValidRegistry(r)
    ensures ValidRegistry(Requested(r, codec, id, command, arguments).0)
  {
    RequestedFrames(r, codec, id, command, arguments);
  }

  /** What an operation returns with the registry after it. */
  datatype Outcome = Outcome(registry: Registry, ok: bool)

  /** `create_session` with `id` for the fresh `uuid4` id. */
  function Creating(r: Registry, id: string, host: string, port: int): Registry {
    r.(sessions := r.sessions[id := DebugSession(id, host, port, status := "created")],
       breakpoints := r.breakpoints[id := []])
  }

  /**
   * A new session is stored under its id, disconnected, with status
   * `"created"` and no breakpoints; the other sessions, the sockets and the
   * counter are as they were.
   */
  lemma CreatingValid(r: Registry, id: string, host: string, port: int)
    requires ValidRegistry(r) && id !in r.sessions
    ensures var after := Creating(r, id, host, port);
      && ValidRegistry(after)
      && id in after.sessions
      && after.sessions[id] == DebugSession(id, host, port, false, None, "created")
      && after.breakpoints[id] == []
      && (forall other :: other in r.sessions ==> other in after.sessions && after.sessions[other] == r.sessions[other])
      && after.connections == r.connections && after.sequenceNumber == r.sequenceNumber
  {
    var after := Creating(r, id, host, port);
    assert after.sessions.Keys == r.sessions.Keys + {id};
    assert after.breakpoints.Keys == r.breakpoints.Keys + {id};
    assert forall other :: other in after.breakpoints ==> UniqueIds(after.breakpoints[other]);
  }

  /** After `create_session` one more session is listed. */
  lemma CreatingGrows(r: Registry, id: string, host: string, port: int)
    requires id !in r.sessions
    ensures |Creating(r, id, host, port).sessions| == |r.sessions| + 1
  {
  }

  /**
   * `connect_session`: an unknown id changes nothing; a refused socket only
   * records the failure in the status; a connected socket is stored, the
   * `initialize` request goes through it (its response is ignored), and
   * the session is marked connected.
   */
  function Connecting(r: Registry, codec: Codec, id: string, dial: Dial): Outcome {
    if id !in r.sessions then Outcome(r, false)
    else
      var session := r.sessions[id];
      match dial
      case Refused(reason) =>
        Outcome(r.(sessions := r.sessions[id := session.(status := "connection_failed: " + reason)]), false)
      case Accepted(link) =>
        var linked := r.(connections := r.connections[id := link]);
        var (after, _) := Requested(linked, codec, id, "initialize", InitializeArguments);
        Outcome(after.(sessions := after.sessions[id := session.(isConnected := true, status := "connected")]), true)
  }

  /** `connect_session` keeps the registry valid, and changes no breakpoint list and, for an unknown id, nothing at all. */
  lemma ConnectingValid(r: Registry, codec: Codec, id: string, dial: Dial)
    requires ValidRegistry(r)
    ensures var o := Connecting(r, codec, id, dial);
      && ValidRegistry(o.registry)
      && o.registry.breakpoints == r.breakpoints
      && o.registry.sessions.Keys == r.sessions.Keys
      && (id !in r.sessions ==> o == Outcome(r, false))
  {
    if id in r.sessions && dial.Accepted? {
      AcceptedValid(r, codec, id, dial.link);
    }
  }

  /** The connected case of `ConnectingValid`. */
  lemma AcceptedValid(r: Registry, codec: Codec, id: string, link: Link)
    requires ValidRegistry(r) && id in r.sessions
    ensures var after := Connecting(r, codec, id, Accepted(link)).registry;
      && ValidRegistry(after)
      && after.breakpoints == r.breakpoints
      && after.sessions.Keys == r.sessions.Keys
  {
    var linked := r.(connections := r.connections[id := link]);
    RequestedFrames(linked, codec, id, "initialize", InitializeArguments);
    var after := Requested(linked, codec, id, "initialize", InitializeArguments).0;
    var done := after.(sessions := after.sessions[id := r.sessions[id].(isConnected := true, status := "connected")]);
    assert done == Connecting(r, codec, id, Accepted(link)).registry;
    assert done.connections.Keys == r.connections.Keys + {id};
    forall k | k in done.sessions
      ensures done.sessions[k].sessionId == k
      ensures k in done.connections <==> done.sessions[k].isConnected
    {
      if k != id {
        assert done.sessions[k] == r.sessions[k];
      }
    }
  }

  /**
   * `connect_session` on a known session succeeds exactly when the socket
   * connects; then the session is connected with status `"connected"`, has
   * a socket, and one seq is consumed; otherwise its status records the
   * failure and the sockets and counter are as they were.
   */
  lemma ConnectingOutcome(r: Registry, codec: Codec, id: string, dial: Dial)
    requires id in r.sessions
    ensures var o := Connecting(r, codec, id, dial);
      && o.ok == dial.Accepted?
      && (dial.Accepted? ==>
            && o.registry.sessions[id] == r.sessions[id].(isConnected := true, status := "connected")
            && id in o.registry.connections
            && o.registry.sequenceNumber == r.sequenceNumber + 1)
      && (dial.Refused? ==>
            && o.registry.sessions[id] == r.sessions[id].(status := "connection_failed: " + dial.reason)
            && o.registry.connections == r.connections
            && o.registry.sequenceNumber == r.sequenceNumber)
  {
    if dial.Accepted? {
      var linked := r.(connections := r.connections[id := dial.link]);
      RequestedFrames(linked, codec, id, "initialize", InitializeArguments);
    }
  }

  /** `disconnect_session`: an unknown id changes nothing; otherwise the socket is dropped and the session marked disconnected. */
  function Disconnecting(r: Registry, id: string): Outcome {
    if id !in r.sessions then Outcome(r, false)
    else
      var session := r.sessions[id];
      Outcome(r.(connections := r.connections - {id},
                 sessions := r.sessions[id := session.(isConnected := false, status := "disconnected")]), true)
  }

  /**
   * `disconnect_session` keeps the registry valid, succeeds exactly for a
   * known id, and then leaves the session without a socket, disconnected,
   * with status `"disconnected"` and its breakpoints untouched.
   */
  lemma DisconnectingValid(r: Registry, id: string)
    requires ValidRegistry(r)
    ensures var o := Disconnecting(r, id);
      && ValidRegistry(o.registry)
      && o.ok == (id in r.sessions)
      && (!o.ok ==> o.registry == r)
      && o.registry.breakpoints == r.breakpoints
      && o.registry.sequenceNumber == r.sequenceNumber
      && (o.ok ==> id !in o.registry.connections
                   && o.registry.sessions[id] == r.sessions[id].(isConnected := false, status := "disconnected"))
  {
  }

  /** The breakpoint adapter requests as written (`len + 1` ids, lone or empty lists), or as intended. */
  datatype Variant = AsWritten | Corrected

  /** What `set_breakpoint` returns with the registry after it. */
  datatype Placed = Placed(registry: Registry, breakpoint: Option<Breakpoint>)

  /**
   * `set_breakpoint`: nothing for an unknown or unconnected session;
   * otherwise the `setBreakpoints` request is sent, and the breakpoint is
   * added only when the response is successful.
   */
  function Setting(r: Registry, codec: Codec, id: string, file: string, line: int, condition: Option<string>, v: Variant): Placed {
    if id !in r.sessions || !r.sessions[id].isConnected || id !in r.breakpoints then Placed(r, None)
    else
      var list := r.breakpoints[id];
      var b := Breakpoint(if v.Corrected? then NextId(list) else NextIdAsWritten(list), file, line, condition := condition);
      var arguments := if v.Corrected? then SetArguments(file, FileEntries(list + [b], file)) else SetRequestAsWritten(b);
      var (after, response) := Requested(r, codec, id, "setBreakpoints", arguments);
      if Success(response) == Some(true) then Placed(after.(breakpoints := after.breakpoints[id := list + [b]]), Some(b))
      else Placed(after, None)
  }

  /**
   * `set_breakpoint` keeps the registry valid. On an unknown or
   * unconnected session nothing changes; otherwise exactly one request is
   * sent, and on success exactly one breakpoint, with the given file, line
   * and condition and an id no breakpoint of the session has, is appended;
   * other sessions' lists never change.
   */
  lemma SettingValid(r: Registry, codec: Codec, id: string, file: string, line: int, condition: Option<string>)
    requires ValidRegistry(r)
    ensures var p := Setting(r, codec, id, file, line, condition, Corrected);
      && ValidRegistry(p.registry)
      && p.registry.sessions == r.sessions
      && p.registry.breakpoints.Keys == r.breakpoints.Keys
      && (forall other :: other in r.breakpoints && other != id ==> p.registry.breakpoints[other] == r.breakpoints[other])
      && ((id !in r.sessions || !r.sessions[id].isConnected) ==> p == Placed(r, None))
      && (id in r.sessions && r.sessions[id].isConnected ==> p.registry.sequenceNumber == r.sequenceNumber + 1)
      && (p.breakpoint.None? ==> (id in r.breakpoints ==> p.registry.breakpoints[id] == r.breakpoints[id]))
      && (p.breakpoint.Some? ==>
            var b := p.breakpoint.value;
            && p.registry.breakpoints[id] == r.breakpoints[id] + [b]
            && b == Breakpoint(b.breakpointId, file, line, condition := condition)
            && (forall j :: 0 <= j < |r.breakpoints[id]| ==> r.breakpoints[id][j].breakpointId != b.breakpointId))
  {
    if id in r.sessions && r.sessions[id].isConnected {
      var list := r.breakpoints[id];
      var b := Breakpoint(NextId(list), file, line, condition := condition);
      var arguments := SetArguments(file, FileEntries(list + [b], file));
      RequestedFrames(r, codec, id, "setBreakpoints", arguments);
      AppendNextKeepsUnique(list, b);
    }
  }

  /** As written, the breakpoint a successful `set_breakpoint` adds has id `len(list) + 1`. */
  lemma SettingIdAsWritten(r: Registry, codec: Codec, id: string, file: string, line: int, condition: Option<string>)
    ensures var p := Setting(r, codec, id, file, line, condition, AsWritten);
      p.breakpoint.Some? ==> id in r.breakpoints && p.breakpoint.value.breakpointId == |r.breakpoints[id]| + 1
  {
  }

  /**
   * `clear_breakpoint`: nothing for an unknown session or an id no
   * breakpoint has; otherwise the request for the file is sent (even
   * without a socket, when it returns `None`) and the first breakpoint with
   * the id is removed.
   */
  function Clearing(r: Registry, codec: Codec, id: string, bpId: int, v: Variant): Outcome {
    if id !in r.breakpoints then Outcome(r, false)
    else
      var list := r.breakpoints[id];
      match FindId(list, bpId)
      case None => Outcome(r, false)
      case Some(i) =>
        var file := list[i].filePath;
        var arguments := if v.Corrected? then SetArguments(file, FileEntries(Without(list, i), file)) else ClearRequestAsWritten(list[i]);
        var (after, _) := Requested(r, codec, id, "setBreakpoints", arguments);
        Outcome(after.(breakpoints := after.breakpoints[id := Without(list, i)]), true)
  }

  /**
   * `clear_breakpoint` keeps the registry valid and succeeds exactly when
   * the session has a breakpoint with the id; then the first such
   * breakpoint is gone and the others keep their order; otherwise nothing
   * changes. Sessions and other lists never change.
   */
  lemma ClearingValid(r: Registry, codec: Codec, id: string, bpId: int)
    requires ValidRegistry(r)
    ensures var o := Clearing(r, codec, id, bpId, Corrected);
      && ValidRegistry(o.registry)
      && o.registry.sessions == r.sessions
      && o.registry.breakpoints.Keys == r.breakpoints.Keys
      && (forall other :: other in r.breakpoints && other != id ==> o.registry.breakpoints[other] == r.breakpoints[other])
      && (o.ok <==> id in r.breakpoints && exists j :: 0 <= j < |r.breakpoints[id]| && r.breakpoints[id][j].breakpointId == bpId)
      && (!o.ok ==> o.registry == r)
      && (o.ok ==> var i := FindId(r.breakpoints[id], bpId).value;
                   o.registry.breakpoints[id] == Without(r.breakpoints[id], i))
  {
    if id in r.breakpoints && FindId(r.breakpoints[id], bpId).Some? {
      var list := r.breakpoints[id];
      var i := FindId(list, bpId).value;
      var file := list[i].filePath;
      RequestedFrames(r, codec, id, "setBreakpoints", SetArguments(file, FileEntries(Without(list, i), file)));
      WithoutKeepsUnique(list, i);
    }
  }

  /** `continue_execution` and the step operations: `command` on thread 1, and the value they return. */
  function Stepping(r: Registry, codec: Codec, id: string, command: string): (Registry, Json) {
    var (after, response) := Requested(r, codec, id, command, map["threadId" := JNum(1)]);
    (after, Resumed(response))
  }

  /** `get_stack_trace`: the frames of thread 1. */
  function Tracing(r: Registry, codec: Codec, id: string): (Registry, seq<StackFrame>) {
    var (after, response) := Requested(r, codec, id, "stackTrace", map["threadId" := JNum(1)]);
    (after, FramesOf(response))
  }

  /** A step or a stack trace keeps the registry valid, and without a socket reports failure and changes nothing. */
  lemma SteppingValid(r: Registry, codec: Codec, id: string, command: string)
    requires ValidRegistry(r)
    ensures ValidRegistry(Stepping(r, codec, id, command).0) && ValidRegistry(Tracing(r, codec, id).0)
    ensures id !in r.connections ==> Stepping(r, codec, id, command) == (r, JNull) && Tracing(r, codec, id) == (r, [])
  {
    RequestedFrames(r, codec, id, command, map["threadId" := JNum(1)]);
    RequestedFrames(r, codec, id, "stackTrace", map["threadId" := JNum(1)]);
  }

  /** What `get_variables` returns with the registry after it. */
  datatype Inspected = Inspected(registry: Registry, variables: seq<Variable>)

  /** `get_variables` through session `id`. */
  function Inspecting(r: Registry, codec: Codec, id: string, frameId: int): Inspected {
    var (c, vars) := Variables(ChannelOf(r, id), codec, frameId);
    Inspected(Through(r, id, c), vars)
  }

  /** `get_variables` of a session without a socket makes no request and finds no variable. */
  lemma InspectingWithoutSocket(r: Registry, codec: Codec, id: string, frameId: int)
    requires id !in r.connections
    ensures Inspecting(r, codec, id, frameId) == Inspected(r, [])
  {
  }

  /** `get_variables` keeps the registry valid and changes nothing but the socket and the counter. */
  lemma InspectingValid(r: Registry, codec: Codec, id: string, frameId: int)
    requires ValidRegistry(r)
    ensures var i := Inspecting(r, codec, id, frameId);
      && ValidRegistry(i.registry)
      && i.registry.sessions == r.sessions && i.registry.breakpoints == r.breakpoints
      && i.registry.connections.Keys == r.connections.Keys
      && i.registry.sequenceNumber >= r.sequenceNumber
  {
    var c := ChannelOf(r, id);
    VariablesKeepsLink(c, codec, frameId);
    ThroughValid(r, id, Variables(c, codec, frameId).0);
  }

  /** Getting a frame's variables keeps the socket, if there is one, and never lowers the seq. */
  lemma VariablesKeepsLink(c: Channel, codec: Codec, frameId: int)
    ensures var after := Variables(c, codec, frameId).0;
      after.link.Some? == c.link.Some? && after.seqNo >= c.seqNo
  {
    var s := Request(c, codec, "scopes", map["frameId" := JNum(frameId)]);
    RequestFrames(c, codec, "scopes", map["frameId" := JNum(frameId)]);
    if Success(s.response) == Some(true) {
      var items := BodyItems(s.response.value.fields, "scopes");
      if items.Some? {
        FetchKeepsLink(s.channel, codec, items.value);
      }
    }
  }

  /** Putting back a session's channel that kept its socket and did not lower the seq keeps the invariant. */
  lemma ThroughValid(r: Registry, id: string, c: Channel)
    requires ValidRegistry(r) && c.link.Some? == (id in r.connections) && c.seqNo >= r.sequenceNumber
    ensures var after := Through(r, id, c);
      && ValidRegistry(after)
      && after.sessions == r.sessions && after.breakpoints == r.breakpoints
      && after.connections.Keys == r.connections.Keys
      && after.sequenceNumber >= r.sequenceNumber
  {
  }


  /** What `evaluate_expression` returns with the registry after it. */
  datatype Evaluated = Evaluated(registry: Registry, result: ExpressionResult)

  /** `evaluate_expression` through session `id`, in the `"repl"` context. */
  function Evaluating(r: Registry, codec: Codec, id: string, expression: string, frameId: Option<int>): Evaluated {
    var (after, response) := Requested(r, codec, id, "evaluate", Dap.EvaluateArguments(expression, frameId, "repl"));
    Evaluated(after, EvaluationOf(expression, response))
  }

  /** `evaluate_expression` keeps the registry valid, and without a socket reports `"No response"`. */
  lemma EvaluatingValid(r: Registry, codec: Codec, id: string, expression: string, frameId: Option<int>)
    requires ValidRegistry(r)
    ensures var e := Evaluating(r, codec, id, expression, frameId);
      && ValidRegistry(e.registry)
      && (id !in r.connections ==> e.registry == r && e.result == Failure(expression, "No response"))
  {
    RequestedFrames(r, codec, id, "evaluate", Dap.EvaluateArguments(expression, frameId, "repl"));
  }

  /** Another request on the same socket composes with the ones before it. */
  lemma ThroughAgain(r: Registry, id: string, c: Channel, next: Channel)
    requires c.link.Some? == (id in r.connections) && next.link.Some? == c.link.Some?
    ensures ChannelOf(Through(r, id, c), id) == c
    ensures Through(Through(r, id, c), id, next) == Through(r, id, next)
  {
  }

  /** Putting back the channel a registry gives out changes nothing. */
  lemma ThroughSame(r: Registry, id: string)
    ensures Through(r, id, ChannelOf(r, id)) == r
  {
    if id in r.connections {
      assert r.connections[id := r.connections[id]] == r.connections;
    }
  }

  /** The variables of a response's entries built one by one, as the inner loop of `get_variables` does. */
  method ScopeVariables(scopeName: Json, response: Option<Json>) returns (vars: Option<seq<Variable>>)
    ensures vars == VariablesOf(scopeName, response)
  {
    var success := Success(response);
    if success != Some(true) {
      return if success.None? then None else Some([]);
    }
    var items := BodyItems(response.value.fields, "variables");
    if items.None? {
      return None;
    }
    var entries := items.value;
    var acc: seq<Variable> := [];
    var i := 0;
    PrependNothing(VariableList(scopeName, entries));
    assert entries[0..] == entries;
    while i < |entries|
      invariant 0 <= i <= |entries|
      invariant VariableList(scopeName, entries) == Prepend(acc, VariableList(scopeName, entries[i..]))
    {
      assert entries[i..][0] == entries[i] && entries[i..][1..] == entries[i + 1..];
      var v := VariableOf(scopeName, entries[i]);
      if v.None? {
        return None;
      }
      PrependTwice(acc, [v.value], VariableList(scopeName, entries[i + 1..]));
      acc := acc + [v.value];
      i := i + 1;
    }
    assert acc + [] == acc;
    return Some(acc);
  }

  /** The frames of a response's entries built one by one, as the loop of `get_stack_trace` does. */
  method StackFrames(response: Option<Json>) returns (frames: seq<StackFrame>)
    ensures frames == FramesOf(response)
  {
    if Success(response) != Some(true) {
      return [];
    }
    var items := BodyItems(response.value.fields, "stackFrames");
    if items.None? {
      return [];
    }
    var entries := items.value;
    var acc: seq<StackFrame> := [];
    var i := 0;
    PrependNothing(FrameList(entries));
    assert entries[0..] == entries;
    while i < |entries|
      invariant 0 <= i <= |entries|
      invariant FrameList(entries) == Prepend(acc, FrameList(entries[i..]))
    {
      assert entries[i..][0] == entries[i] && entries[i..][1..] == entries[i + 1..];
      var f := FrameOf(entries[i]);
      if f.None? {
        return [];
      }
      PrependTwice(acc, [f.value], FrameList(entries[i + 1..]));
      acc := acc + [f.value];
      i := i + 1;
    }
    assert acc + [] == acc;
    return acc;
  }

  /** `vs` followed by `rest`, when `rest` did not raise. */
  function Prepend<T>(vs: seq<T>, rest: Option<seq<T>>): Option<seq<T>> {
    if rest.Some? then Some(vs + rest.value) else None
  }

  lemma PrependNothing<T>(rest: Option<seq<T>>)
    ensures Prepend([], rest) == rest
  {
    if rest.Some? {
      assert [] + rest.value == rest.value;
    }
  }

  lemma PrependTwice<T>(a: seq<T>, b: seq<T>, rest: Option<seq<T>>)
    ensures Prepend(a, Prepend(b, rest)) == Prepend(a + b, rest)
  {
    if rest.Some? {
      assert a + (b + rest.value) == (a + b) + rest.value;
    }
  }

  // ---------------------------------------------------------------------------
  // DebugpyClient
  // ---------------------------------------------------------------------------

  /** The client the tool servers use: sessions, their sockets and breakpoints, and one request counter. */
  class DebugpyClient {
    var sessions: map<string, DebugSession>
    var connections: map<string, Link>
    var breakpoints: map<string, seq<Breakpoint>>
    var sequenceNumber: int
    /** How requests are serialised and responses parsed. */
    const codec: Codec

    /** The fields, as a value. */
    function Abs(): Registry
      reads this
    {
      Registry(sessions, connections, breakpoints, sequenceNumber)
    }

    predicate Valid()
      reads this
    {
      ValidRegistry(Abs())
    }

    constructor(codec: Codec)
      ensures Abs() == Fresh && Valid() && this.codec == codec
    {
      sessions := map[];
      connections := map[];
      breakpoints := map[];
      sequenceNumber := 1;
      this.codec := codec;
    }

    /** `create_session`, with `id` for the fresh id `uuid4` draws. */
    method CreateSession(id: string, host: string, port: int) returns (sessionId: string)
      requires id !in sessions
      requires Valid()
      modifies this
      ensures sessionId == id && Abs() == Creating(old(Abs()), id, host, port)
      ensures Valid()
    {
      CreatingValid(Abs(), id, host, port);
      sessions := sessions[id := DebugSession(id, host, port, status := "created")];
      breakpoints := breakpoints[id := []];
      sessionId := id;
    }

    /** `connect_session`, where `dial` is how `socket.connect` to the session's address turns out. */
    method ConnectSession(id: string, dial: Dial) returns (ok: bool)
      requires Valid()
      modifies this
      ensures Outcome(Abs(), ok) == Connecting(old(Abs()), codec, id, dial)
      ensures Valid()
    {
      if id !in sessions {
        return false;
      }
      ghost var start := Abs();
      var session := sessions[id];
      match dial {
        case Refused(reason) =>
          sessions := sessions[id := session.(status := "connection_failed: " + reason)];
          ok := false;
        case Accepted(link) =>
          connections := connections[id := link];
          var _ := SendRequest(id, "initialize", InitializeArguments);
          sessions := sessions[id := session.(isConnected := true, status := "connected")];
          ok := true;
      }
      ConnectingValid(start, codec, id, dial);
    }

    /** `disconnect_session`. */
    method DisconnectSession(id: string) returns (ok: bool)
      requires Valid()
      modifies this
      ensures Outcome(Abs(), ok) == Disconnecting(old(Abs()), id)
      ensures Valid()
    {
      DisconnectingValid(Abs(), id);
      if id !in sessions {
        return false;
      }
      connections := connections - {id};
      sessions := sessions[id := sessions[id].(isConnected := false, status := "disconnected")];
      ok := true;
    }

    /** `_send_request`: take a seq, write the frame, read the response. */
    method SendRequest(id: string, command: string, arguments: Object) returns (response: Option<Json>)
      modifies this
      ensures (Abs(), response) == Requested(old(Abs()), codec, id, command, arguments)
      ensures old(Valid()) ==> Valid()
    {
      if id !in connections {
        return None;
      }
      ghost var start := Abs();
      var seqNo := sequenceNumber;
      sequenceNumber := sequenceNumber + 1;
      var link := connections[id];
      var written := link.written + [RequestFrame(codec.serialize, seqNo, command, arguments)];
      var read := ReadResponse(link.inbound, codec.parse);
      connections := connections[id := Link(read.rest, written)];
      response := read.response;
      assert Abs() == Requested(start, codec, id, command, arguments).0;
      if ValidRegistry(start) {
        RequestedValid(start, codec, id, command, arguments);
      }
    }

    /** `set_breakpoint`, with the id and the request as intended. */
    method SetBreakpoint(id: string, file: string, line: int, condition: Option<string>) returns (placed: Option<Breakpoint>)
      requires Valid()
      modifies this
      ensures Placed(Abs(), placed) == Setting(old(Abs()), codec, id, file, line, condition, Corrected)
      ensures Valid()
    {
      SettingValid(Abs(), codec, id, file, line, condition);
      if id !in sessions || !sessions[id].isConnected || id !in breakpoints {
        return None;
      }
      var list := breakpoints[id];
      var b := Breakpoint(NextId(list), file, line, condition := condition);
      var response := SendRequest(id, "setBreakpoints", SetArguments(file, FileEntries(list + [b], file)));
      if Success(response) == Some(true) {
        breakpoints := breakpoints[id := list + [b]];
        placed := Some(b);
      } else {
        placed := None;
      }
    }

    /** `clear_breakpoint`, with the request as intended: the first breakpoint with the id is looked for and removed. */
    method ClearBreakpoint(id: string, bpId: int) returns (ok: bool)
      requires Valid()
      modifies this
      ensures Outcome(Abs(), ok) == Clearing(old(Abs()), codec, id, bpId, Corrected)
      ensures Valid()
    {
      ClearingValid(Abs(), codec, id, bpId);
      if id !in breakpoints {
        return false;
      }
      var list := breakpoints[id];
      var i := 0;
      while i < |list|
        invariant 0 <= i <= |list|
        invariant forall j :: 0 <= j < i ==> list[j].breakpointId != bpId
        invariant Abs() == old(Abs())
      {
        if list[i].breakpointId == bpId {
          assert FindId(list, bpId) == Some(i);
          var file := list[i].filePath;
          var _ := SendRequest(id, "setBreakpoints", SetArguments(file, FileEntries(Without(list, i), file)));
          breakpoints := breakpoints[id := Without(list, i)];
          return true;
        }
        i := i + 1;
      }
      return false;
    }

    /** `get_variables`: the scopes of the frame, then the variables of every scope with a reference. */
    method GetVariables(id: string, frameId: int) returns (vars: seq<Variable>)
      requires Valid()
      modifies this
      ensures Inspected(Abs(), vars) == Inspecting(old(Abs()), codec, id, frameId)
      ensures Valid()
    {
      InspectingValid(Abs(), codec, id, frameId);
      ghost var start := Abs();
      RequestFrames(ChannelOf(start, id), codec, "scopes", map["frameId" := JNum(frameId)]);
      ghost var ch := Request(ChannelOf(start, id), codec, "scopes", map["frameId" := JNum(frameId)]).channel;
      var response := SendRequest(id, "scopes", map["frameId" := JNum(frameId)]);
      if Success(response) != Some(true) {
        return [];
      }
      var items := BodyItems(response.value.fields, "scopes");
      if items.None? {
        return [];
      }
      FetchKeepsLink(ch, codec, items.value);
      ThroughAgain(start, id, ch, FetchScopes(ch, codec, items.value).channel);
      var found := FetchVariables(id, items.value);
      vars := found.GetOr([]);
    }

    /** The loop over scopes of `get_variables`. */
    method FetchVariables(id: string, scopes: seq<Json>) returns (vars: Option<seq<Variable>>)
      modifies this
      ensures var f := FetchScopes(ChannelOf(old(Abs()), id), codec, scopes);
        Abs() == Through(old(Abs()), id, f.channel) && vars == f.vars
    {
      ghost var start := Abs();
      ghost var ch := ChannelOf(start, id);
      ThroughSame(start, id);
      ghost var total := FetchScopes(ch, codec, scopes);
      PrependNothing(total.vars);
      assert scopes[0..] == scopes;
      var acc: seq<Variable> := [];
      var i := 0;
      while i < |scopes|
        invariant 0 <= i <= |scopes|
        invariant ch.link.Some? == (id in start.connections)
        invariant Abs() == Through(start, id, ch)
        invariant total == After(acc, FetchScopes(ch, codec, scopes[i..]))
      {
        assert scopes[i..][0] == scopes[i] && scopes[i..][1..] == scopes[i + 1..];
        var scope := scopes[i];
        if !scope.JObj? {
          return None;
        }
        var name := Get(scope.fields, "name", JStr("unknown"));
        var ref := Get(scope.fields, "variablesReference", JNull);
        if Truthy(ref) {
          RequestFrames(ch, codec, "variables", map["variablesReference" := ref]);
          ghost var next := Request(ch, codec, "variables", map["variablesReference" := ref]).channel;
          ThroughAgain(start, id, ch, next);
          var answer := SendRequest(id, "variables", map["variablesReference" := ref]);
          ch := next;
          var more := ScopeVariables(name, answer);
          if more.None? {
            return None;
          }
          PrependTwice(acc, more.value, FetchScopes(ch, codec, scopes[i + 1..]).vars);
          acc := acc + more.value;
        }
        i := i + 1;
      }
      assert acc + [] == acc;
      vars := Some(acc);
    }

    /** `evaluate_expression` in the `"repl"` context. */
    method EvaluateExpression(id: string, expression: string, frameId: Option<int>) returns (result: ExpressionResult)
      requires Valid()
      modifies this
      ensures Evaluated(Abs(), result) == Evaluating(old(Abs()), codec, id, expression, frameId)
      ensures Valid()
    {
      EvaluatingValid(Abs(), codec, id, expression, frameId);
      var response := SendRequest(id, "evaluate", Dap.EvaluateArguments(expression, frameId, "repl"));
      result := EvaluationOf(expression, response);
    }

    /** `continue_execution` (`"continue"`), `step_over` (`"next"`), `step_into` (`"stepIn"`) and `step_out` (`"stepOut"`). */
    method Step(id: string, command: string) returns (success: Json)
      requires Valid()
      modifies this
      ensures (Abs(), success) == Stepping(old(Abs()), codec, id, command)
      ensures Valid()
    {
      SteppingValid(Abs(), codec, id, command);
      var response := SendRequest(id, command, map["threadId" := JNum(1)]);
      success := Resumed(response);
    }

    /** `get_stack_trace`. */
    method GetStackTrace(id: string) returns (frames: seq<StackFrame>)
      requires Valid()
      modifies this
      ensures (Abs(), frames) == Tracing(old(Abs()), codec, id)
      ensures Valid()
    {
      SteppingValid(Abs(), codec, id, "stackTrace");
      var response := SendRequest(id, "stackTrace", map["threadId" := JNum(1)]);
      frames := StackFrames(response);
    }

    /** `get_session`: the session stored under `id`, if any. */
    function GetSession(id: string): (r: Option<DebugSession>)
      reads this
      ensures r.Some? <==> id in sessions
      ensures r.Some? ==> r.value == sessions[id]
    {
      if id in sessions then Some(sessions[id]) else None
    }

    /** `list_sessions`: every session once. */
    method ListSessions() returns (list: seq<DebugSession>)
      requires Valid()
      ensures |list| == |sessions|
      ensures forall s :: s in list <==> s in sessions.Values
      ensures forall i, j :: 0 <= i < j < |list| ==> list[i] != list[j]
    {
      list := [];
      var keys := sessions.Keys;
      while keys != {}
        invariant keys <= sessions.Keys
        invariant |list| + |keys| == |sessions|
        invariant forall s :: s in list <==> exists k :: k in sessions && k !in keys && sessions[k] == s
        invariant forall i :: 0 <= i < |list| ==> list[i].sessionId in sessions && list[i].sessionId !in keys
        invariant forall i, j :: 0 <= i < j < |list| ==> list[i] != list[j]
        decreases |keys|
      {
        var k :| k in keys;
        list := list + [sessions[k]];
        keys := keys - {k};
      }
    }

    /** `list_breakpoints`: the session's list, empty for an unknown session. */
    function ListBreakpoints(id: string): (r: seq<Breakpoint>)
      reads this
      ensures id !in breakpoints ==> r == []
      ensures id in breakpoints ==> r == breakpoints[id]
    {
      if id in breakpoints then breakpoints[id] else []
    }
  }
}
