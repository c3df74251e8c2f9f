/**
 * The logic inside two tools of the MCP server: the window of source lines
 * `get_source_code` shows around a line, and how `list_debuggable_processes`
 * describes the Python processes it finds, including the debugpy port it
 * reads off a `--listen host:port` argument.
 *
 * The file system is a map from each existing path (`os.path.exists`) to
 * the lines `readlines` gives, or to the text of what opening or reading
 * it raised (a directory, a file that is not UTF-8, one that may not be
 * read); the process table is the sequence of entries
 * `psutil.process_iter` yields.
 */
module Server {
  import opened Wrappers
  import opened PyText
  import opened Models

  // ---------------------------------------------------------------------------
  // get_source_code
  // ---------------------------------------------------------------------------

  /** One entry of the `source` list. */
  datatype SourceLine = SourceLine(lineNumber: int, content: string, isTarget: bool)

  /** An existing path: the file's lines, or the text of the exception opening or reading it raises. */
  datatype FileContent = Readable(lines: seq<string>) | ReadFails(message: string)

  /** What `get_source_code` reports: an error (missing or unreadable file), or the window around the target line. */
  datatype SourceView =
    | Failed(error: string)
    | Shown(filePath: string, targetLine: int, contextLines: int, source: seq<SourceLine>, totalLines: nat)

  /** The first 0-based index of the window: `max(0, line_number - context_lines - 1)`. */
  function WindowStart(line: int, context: int): nat {
    if line - context - 1 > 0 then line - context - 1 else 0
  }

  /** One past the last 0-based index of the window: `min(len(lines), line_number + context_lines)`. */
  function WindowEnd(total: nat, line: int, context: int): int {
    if total < line + context then total else line + context
  }

  /** The entry for the line at 0-based index `i`. */
  function Entry(lines: seq<string>, i: nat, line: int): SourceLine
    requires i < |lines|
  {
    SourceLine(i + 1, RStrip(lines[i]), i + 1 == line)
  }

  /** The entries for `range(start, end)`; empty when `end <= start`. */
  function Window(lines: seq<string>, line: int, context: int): seq<SourceLine> {
    var start, end := WindowStart(line, context), WindowEnd(|lines|, line, context);
    seq(if end > start then end - start else 0, k requires 0 <= k < end - start => Entry(lines, start + k, line))
  }

  /** The loop of `get_source_code` that builds `source_lines`. */
  method SourceWindow(lines: seq<string>, line: int, context: int) returns (source: seq<SourceLine>)
    ensures source == Window(lines, line, context)
  {
    var start, end := WindowStart(line, context), WindowEnd(|lines|, line, context);
    source := [];
    var i := start;
    while i < end
      invariant start <= i <= (if end > start then end else start)
      invariant |source| == i - start
      invariant forall k :: 0 <= k < |source| ==> source[k] == Entry(lines, start + k, line)
    {
      source := source + [Entry(lines, i, line)];
      i := i + 1;
    }
  }

  /**
   * Every entry shows a line of the file: its 1-based number is between 1
   * and the number of lines, the numbers run consecutively from
   * `start + 1`, and its content is that line without trailing whitespace.
   */
  lemma WindowLines(lines: seq<string>, line: int, context: int)
    ensures var w := Window(lines, line, context);
      forall k :: 0 <= k < |w| ==>
        && 1 <= w[k].lineNumber <= |lines|
        && w[k].lineNumber == WindowStart(line, context) + k + 1
        && w[k].content == RStrip(lines[w[k].lineNumber - 1])
  {
    var w := Window(lines, line, context);
    forall k | 0 <= k < |w|
      ensures 1 <= w[k].lineNumber <= |lines| && w[k].lineNumber == WindowStart(line, context) + k + 1
      ensures w[k].content == RStrip(lines[w[k].lineNumber - 1])
    {
      assert w[k] == Entry(lines, WindowStart(line, context) + k, line);
    }
  }

  /** The window holds `max(0, end - start)` entries, at most `2 * context + 1` of them when `context >= 0`. */
  lemma WindowSize(lines: seq<string>, line: int, context: int)
    ensures var start, end := WindowStart(line, context), WindowEnd(|lines|, line, context);
      |Window(lines, line, context)| == (if end > start then end - start else 0)
    ensures context >= 0 ==> |Window(lines, line, context)| <= 2 * context + 1
  {
  }

  /**
   * An entry is marked as the target exactly when it is the requested line;
   * a line outside the file marks none, and a line of the file is marked
   * once when `context >= 0`.
   */
  lemma {:induction false} WindowTarget(lines: seq<string>, line: int, context: int)
    ensures var w := Window(lines, line, context);
      && (forall k :: 0 <= k < |w| ==> (w[k].isTarget <==> w[k].lineNumber == line))
      && (!(1 <= line <= |lines|) ==> forall k :: 0 <= k < |w| ==> !w[k].isTarget)
      && (1 <= line <= |lines| && context >= 0 ==>
            exists k :: 0 <= k < |w| && w[k].isTarget && forall j :: 0 <= j < |w| && j != k ==> !w[j].isTarget)
  {
    var w := Window(lines, line, context);
    var start := WindowStart(line, context);
    forall k | 0 <= k < |w|
      ensures w[k].lineNumber == start + k + 1 && (w[k].isTarget <==> w[k].lineNumber == line)
    {
      assert w[k] == Entry(lines, start + k, line);
    }
    if 1 <= line <= |lines| && context >= 0 {
      var k := line - 1 - start;
      assert 0 <= k < |w|;
      assert w[k].isTarget;
    }
  }

  /**
   * `get_source_code` on a file system given as a map from each existing
   * path to its content: a missing path is "File not found", a file that
   * cannot be read answers with the exception's text (`str(e)`).
   */
  function SourceCode(files: map<string, FileContent>, path: string, line: int, context: int): SourceView {
    if path !in files then Failed("File not found: " + path)
    else match files[path]
      case ReadFails(message) => Failed(message)
      case Readable(lines) => Shown(path, line, context, Window(lines, line, context), |lines|)
  }

  /** `get_source_code`. */
  method GetSourceCode(files: map<string, FileContent>, path: string, line: int, context: int) returns (view: SourceView)
    ensures view == SourceCode(files, path, line, context)
  {
    if path !in files {
      return Failed("File not found: " + path);
    }
    match files[path] {
      case ReadFails(message) =>
        return Failed(message);
      case Readable(lines) =>
        var source := SourceWindow(lines, line, context);
        view := Shown(path, line, context, source, |lines|);
    }
  }

  /**
   * A missing file is reported with its path, an unreadable one with the
   * text of what reading it raised, and neither shows a line; a readable
   * one reports its path, target line and length, and only lines of the file.
   */
  lemma SourceCodeCases(files: map<string, FileContent>, path: string, line: int, context: int)
    ensures var v := SourceCode(files, path, line, context);
      && (v.Failed? <==> path !in files || files[path].ReadFails?)
      && (path !in files ==> v.error == "File not found: " + path)
      && (path in files && files[path].ReadFails? ==> v.error == files[path].message)
      && (v.Shown? ==>
            && v.totalLines == |files[path].lines| && v.filePath == path && v.targetLine == line
            && (forall k :: 0 <= k < |v.source| ==> 1 <= v.source[k].lineNumber <= v.totalLines))
  {
    if path in files && files[path].Readable? {
      WindowLines(files[path].lines, line, context);
    }
  }

  // ---------------------------------------------------------------------------
  // list_debuggable_processes
  // ---------------------------------------------------------------------------

  /** One entry of the process table: its pid, name (`None` when unknown) and argv, or a process that vanished or refused access. */
  datatype Listing = Listing(pid: int, name: Option<string>, cmdline: seq<string>) | Unreadable

  /** `s.lower()` on ASCII letters. */
  function Lower(s: string): (r: string)
    ensures |r| == |s|
    ensures forall i :: 0 <= i < |s| ==> ('A' <= s[i] <= 'Z' ==> r[i] as int == s[i] as int + 32) && (!('A' <= s[i] <= 'Z') ==> r[i] == s[i])
  {
    seq(|s|, i requires 0 <= i < |s| => if 'A' <= s[i] <= 'Z' then (s[i] as int + 32) as char else s[i])
  }

  /** `name and 'python' in name.lower()`. */
  predicate IsPython(name: Option<string>) {
    name.Some? && name.value != "" && Contains(Lower(name.value), "python")
  }

  /** `' '.join(cmdline)`. */
  function Join(parts: seq<string>): string {
    if parts == [] then ""
    else if |parts| == 1 then parts[0]
    else Join(parts[..|parts| - 1]) + " " + parts[|parts| - 1]
  }

  /** `cmdline.index('--listen')`; `None` where that raises `ValueError`. */
  function ListenIndex(cmdline: seq<string>): (r: Option<nat>)
    ensures r.Some? ==> r.value < |cmdline| && cmdline[r.value] == "--listen"
    ensures r.Some? ==> forall j :: 0 <= j < r.value ==> cmdline[j] != "--listen"
    ensures r.None? ==> forall j :: 0 <= j < |cmdline| ==> cmdline[j] != "--listen"
  {
    if cmdline == [] then None
    else if cmdline[0] == "--listen" then Some(0)
    else match ListenIndex(cmdline[1..])
      case None => None
      case Some(k) => Some(k + 1)
  }

  /** `int(addr.split(':')[1])` when `':' in addr`: the integer between the first and second `:`; `None` when absent or raising. */
  function PortOf(addr: string): (r: Option<int>)
    ensures r.Some? ==> ':' in addr
  {
    if Contains(addr, ":") then PyInt(SecondField(addr, ':')) else None
  }

  /** The joined command mentions both `debugpy` and `--listen`. */
  predicate Mentions(cmdline: seq<string>) {
    Contains(Join(cmdline), "debugpy") && Contains(Join(cmdline), "--listen")
  }

  /** `k` is the first exact `--listen` argument, and an argument follows it. */
  predicate FirstListen(cmdline: seq<string>, k: int) {
    0 <= k && k + 1 < |cmdline| && cmdline[k] == "--listen" && forall j :: 0 <= j < k ==> cmdline[j] != "--listen"
  }

  /**
   * The debugpy port of a process: when its command mentions `debugpy` and
   * `--listen`, the port in the argument after the first exact `--listen`;
   * `None` whenever a step is missing or raises.
   */
  function DebugpyPort(cmdline: seq<string>): Option<int> {
    if !Mentions(cmdline) then None
    else match ListenIndex(cmdline)
      case None => None
      case Some(k) => if k + 1 < |cmdline| then PortOf(cmdline[k + 1]) else None
  }

  /**
   * A port is found exactly when the command mentions `debugpy` and
   * `--listen`, the first argument that is exactly `--listen` has one after
   * it, and that one holds an integer between its first and second `:`,
   * which is then the port.
   */
  lemma {:induction false} PortConditions(cmdline: seq<string>, port: int)
    ensures DebugpyPort(cmdline) == Some(port) <==>
      Mentions(cmdline) && exists k :: FirstListen(cmdline, k) && PortOf(cmdline[k + 1]) == Some(port)
  {
    if Mentions(cmdline) {
      var found := ListenIndex(cmdline);
      assert forall k :: FirstListen(cmdline, k) ==> found == Some(k);
      if found.Some? && found.value + 1 < |cmdline| {
        assert FirstListen(cmdline, found.value);
      }
    }
  }

  /** The `ProcessInfo` of a Python process. */
  function Describe(pid: int, name: string, cmdline: seq<string>): ProcessInfo {
    var command := Join(cmdline);
    ProcessInfo(pid, name, commandLine := Some(command), isDebuggable := Contains(command, "debugpy"),
                debugpyPort := DebugpyPort(cmdline))
  }

  /** A process reported with a port is also reported as debuggable. */
  lemma PortImpliesDebuggable(pid: int, name: string, cmdline: seq<string>)
    ensures Describe(pid, name, cmdline).debugpyPort.Some? ==> Describe(pid, name, cmdline).isDebuggable
  {
  }

  /** What one table entry adds to the list: its description when it is a readable Python process. */
  function Kept(l: Listing): seq<ProcessInfo> {
    if l.Listing? && IsPython(l.name) then [Describe(l.pid, l.name.value, l.cmdline)] else []
  }

  /** The processes `list_debuggable_processes` collects, in table order. */
  function Collected(table: seq<Listing>): seq<ProcessInfo> {
    if table == [] then [] else Collected(table[..|table| - 1]) + Kept(table[|table| - 1])
  }

  /** The processes of a list that are debuggable. */
  function Debuggable(ps: seq<ProcessInfo>): (r: seq<ProcessInfo>)
    ensures |r| <= |ps|
    ensures forall p :: p in r <==> p in ps && p.isDebuggable
  {
    if ps == [] then []
    else (if ps[0].isDebuggable then [ps[0]] else []) + Debuggable(ps[1..])
  }

  /** `Debuggable` keeps each debuggable process as many times as the list holds it, and no other. */
  lemma {:induction false} DebuggableCounts(ps: seq<ProcessInfo>)
    ensures forall p :: multiset(Debuggable(ps))[p] == if p.isDebuggable then multiset(ps)[p] else 0
  {
    if ps != [] {
      assert ps == [ps[0]] + ps[1..];
      DebuggableCounts(ps[1..]);
    }
  }

  /** The table is read entry by entry: the list for two tables back to back is the list for the first, then for the second. */
  lemma {:induction false} CollectedAppend(t1: seq<Listing>, t2: seq<Listing>)
    ensures Collected(t1 + t2) == Collected(t1) + Collected(t2)
    decreases |t2|
  {
    if t2 == [] {
      assert t1 + t2 == t1;
    } else {
      var init := t2[..|t2| - 1];
      assert (t1 + t2)[..|t1 + t2| - 1] == t1 + init;
      assert (t1 + t2)[|t1 + t2| - 1] == t2[|t2| - 1];
      CollectedAppend(t1, init);
    }
  }

  /** The report: the processes, `total_count` and `debuggable_count`. */
  datatype ProcessReport = ProcessReport(processes: seq<ProcessInfo>, totalCount: nat, debuggableCount: nat)

  function Report(table: seq<Listing>): ProcessReport {
    var ps := Collected(table);
    ProcessReport(ps, |ps|, |Debuggable(ps)|)
  }

  /**
   * `total_count` is the number of processes listed, at most the number of
   * table entries; `debuggable_count` is at most `total_count`; every
   * process listed is a readable Python process of the table, described as
   * such.
   */
  lemma {:induction false} ReportCounts(table: seq<Listing>)
    ensures var r := Report(table);
      && r.totalCount == |r.processes| <= |table|
      && r.debuggableCount <= r.totalCount
      && forall p :: p in r.processes ==>
           exists i :: (0 <= i < |table| && table[i].Listing? && IsPython(table[i].name)
                        && p == Describe(table[i].pid, table[i].name.value, table[i].cmdline))
    decreases |table|
  {
    if table != [] {
      var init := table[..|table| - 1];
      ReportCounts(init);
      forall p | p in Collected(table)
        ensures exists i :: (0 <= i < |table| && table[i].Listing? && IsPython(table[i].name)
                             && p == Describe(table[i].pid, table[i].name.value, table[i].cmdline))
      {
        if p in Collected(init) {
          var i :| 0 <= i < |init| && init[i].Listing? && IsPython(init[i].name)
            && p == Describe(init[i].pid, init[i].name.value, init[i].cmdline);
          assert table[i] == init[i];
        } else {
          assert table[|table| - 1].Listing? && IsPython(table[|table| - 1].name);
        }
      }
    }
  }

  /**
   * Entry `i` of the table contributes its own description, once, between
   * those of the entries before it and those after it; so every readable
   * Python process of the table is listed, in table order.
   */
  lemma {:induction false} CollectedAt(table: seq<Listing>, i: int)
    requires 0 <= i < |table|
    ensures Collected(table) == Collected(table[..i]) + Kept(table[i]) + Collected(table[i + 1..])
    ensures table[i].Listing? && IsPython(table[i].name) ==>
      Describe(table[i].pid, table[i].name.value, table[i].cmdline) in Report(table).processes
  {
    var entry, after := [table[i]], table[i + 1..];
    assert table == table[..i] + (entry + after);
    CollectedAppend(table[..i], entry + after);
    CollectedAppend(entry, after);
    assert Collected(entry) == Kept(table[i]) by {
      assert entry[..0] == [];
    }
  }

  /** The loop of `list_debuggable_processes`, then its counts. */
  method ListDebuggableProcesses(table: seq<Listing>) returns (report: ProcessReport)
    ensures report == Report(table)
  {
    var processes: seq<ProcessInfo> := [];
    var i := 0;
    while i < |table|
      invariant 0 <= i <= |table|
      invariant processes == Collected(table[..i])
    {
      assert table[..i + 1][..i] == table[..i];
      match table[i] {
        case Unreadable =>
        case Listing(pid, name, cmdline) =>
          if name.Some? && name.value != "" && Contains(Lower(name.value), "python") {
            processes := processes + [Describe(pid, name.value, cmdline)];
          }
      }
      i := i + 1;
    }
    assert table[..i] == table;
    var debuggable := 0;
    var j := 0;
    while j < |processes|
      invariant 0 <= j <= |processes|
      invariant debuggable + |Debuggable(processes[j..])| == |Debuggable(processes)|
    {
      assert processes[j..][1..] == processes[j + 1..];
      if processes[j].isDebuggable {
        debuggable := debuggable + 1;
      }
      j := j + 1;
    }
    report := ProcessReport(processes, |processes|, debuggable);
  }
}
