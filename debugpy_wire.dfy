/**
 * The framing helpers of `DebugpyClient`, which talks to the adapter
 * synchronously: `_send_request` writes one frame and then blocks reading
 * the reply off the same socket with `_read_response`, which reads header
 * lines one byte at a time with `_read_line`, stops at the empty line, and
 * then takes `Content-Length` bytes as the body.
 *
 * A socket's incoming side is the sequence of bytes the adapter will still
 * send; when they run out, `recv` either returns `b''` (the adapter closed
 * the connection) or raises after the 30-second timeout. The body bytes
 * become a JSON value through a `parse` function (UTF-8 decoding and
 * `json.loads`; `None` when either raises).
 */
module DebugpyWire {
  import opened Wrappers
  import opened PyText
  import opened Json
  import opened Framing

  // ---------------------------------------------------------------------------
  // _read_line
  // ---------------------------------------------------------------------------

  /** A line read off the socket (`None` when reading raised), and the bytes that follow it. */
  datatype LineRead = LineRead(line: Option<string>, rest: seq<byte>)

  /** `r` with `p` put in front of the line read, if one was. */
  function Prefixed(p: string, r: LineRead): LineRead {
    if r.line.Some? then LineRead(Some(p + r.line.value), r.rest) else r
  }

  /**
   * `_read_line`: one byte at a time up to and including the first `\n`,
   * dropping every `\r`. It raises when a byte is not ASCII (a lone such
   * byte is not UTF-8) and, as intended rather than as written, when the
   * bytes run out before a `\n` (see `RunAsWritten` for the loop as written).
   */
  function Line(inbound: seq<byte>): (r: LineRead)
    ensures |r.rest| <= |inbound|
    ensures r.line.Some? ==> |r.rest| < |inbound|
    decreases |inbound|
  {
    if inbound == [] then LineRead(None, [])
    else if inbound[0] >= 128 then LineRead(None, inbound[1..])
    else if inbound[0] == 10 then LineRead(Some(""), inbound[1..])
    else if inbound[0] == 13 then Line(inbound[1..])
    else Prefixed([inbound[0] as char], Line(inbound[1..]))
  }

  /** `s` with every `\r` removed. */
  function WithoutReturns(s: string): string {
    if s == [] then [] else (if s[0] == '\r' then [] else [s[0]]) + WithoutReturns(s[1..])
  }

  /** Byte `i` is the first `\n` of `inbound`, and every byte before it is ASCII. */
  predicate NewlineAt(inbound: seq<byte>, i: int) {
    && 0 <= i < |inbound|
    && inbound[i] == 10
    && forall j :: 0 <= j < i ==> inbound[j] != 10 && inbound[j] < 128
  }

  /** A line ending at the first `\n` is the text before it without its `\r`s; the bytes after the `\n` remain. */
  lemma {:induction false} LineAt(inbound: seq<byte>, i: int)
    requires NewlineAt(inbound, i)
    ensures Line(inbound) == LineRead(Some(WithoutReturns(Chars(inbound[..i]))), inbound[i + 1..])
    decreases i
  {
    if i == 0 {
      assert inbound[..0] == [];
    } else {
      var c := inbound[0] as char;
      var tail := inbound[1..];
      assert NewlineAt(tail, i - 1) by {
        forall j | 0 <= j < i - 1 ensures tail[j] != 10 && tail[j] < 128 {
          assert tail[j] == inbound[j + 1];
        }
      }
      LineAt(tail, i - 1);
      assert tail[i - 1 + 1..] == inbound[i + 1..];
      var text := Chars(inbound[..i]);
      assert text[0] == c && text[1..] == Chars(tail[..i - 1]);
      var line := WithoutReturns(Chars(tail[..i - 1]));
      assert inbound[0] != 10 && inbound[0] < 128;
      if inbound[0] == 13 {
        assert c == '\r';
        assert WithoutReturns(text) == line;
      } else {
        assert c != '\r';
        assert WithoutReturns(text) == [c] + line;
        assert Line(inbound) == Prefixed([c], Line(tail));
      }
    }
  }

  /** `_read_line` returns a line only when the bytes hold a `\n` preceded by ASCII bytes alone. */
  lemma {:induction false} LineFound(inbound: seq<byte>)
    requires Line(inbound).line.Some?
    ensures exists i :: NewlineAt(inbound, i)
    decreases |inbound|
  {
    if inbound[0] == 10 {
      assert NewlineAt(inbound, 0);
    } else {
      var tail := inbound[1..];
      LineFound(tail);
      var i :| NewlineAt(tail, i);
      assert NewlineAt(inbound, i + 1) by {
        forall j | 0 <= j < i + 1 ensures inbound[j] != 10 && inbound[j] < 128 {
          if j > 0 {
            assert inbound[j] == tail[j - 1];
          }
        }
      }
    }
  }

  /** The loop of `_read_line`, reading byte by byte. */
  method ReadLine(inbound: seq<byte>) returns (r: LineRead)
    ensures r == Line(inbound)
  {
    var line := "";
    var i := 0;
    assert inbound[0..] == inbound;
    if Line(inbound).line.Some? {
      assert "" + Line(inbound).line.value == Line(inbound).line.value;
    }
    while i < |inbound|
      invariant 0 <= i <= |inbound|
      invariant Line(inbound) == Prefixed(line, Line(inbound[i..]))
    {
      var b := inbound[i];
      assert inbound[i..][0] == b && inbound[i..][1..] == inbound[i + 1..];
      if b >= 128 {
        return LineRead(None, inbound[i + 1..]);
      }
      if b == 10 {
        assert line + "" == line;
        return LineRead(Some(line), inbound[i + 1..]);
      }
      if b != 13 {
        var next := Line(inbound[i + 1..]);
        if next.line.Some? {
          assert line + ([b as char] + next.line.value) == (line + [b as char]) + next.line.value;
        }
        line := line + [b as char];
      }
      i := i + 1;
    }
    return LineRead(None, []);
  }

  /** The state of `_read_line`'s loop as written: still reading, or returned (a `None` line: raised). */
  datatype LineLoop = Reading(line: string, inbound: seq<byte>) | Returned(result: LineRead)

  /**
   * One iteration of `_read_line`'s loop as written. `closed` says whether
   * the adapter closed the connection after the remaining bytes: then
   * `recv(1)` returns `b''`, which decodes to `""`, is neither `\n` nor
   * `\r`, and is appended to the line, changing nothing.
   */
  function ReadLineStepAsWritten(line: string, inbound: seq<byte>, closed: bool): LineLoop {
    if inbound == [] then
      if closed then Reading(line + "", []) else Returned(LineRead(None, []))
    else if inbound[0] >= 128 then Returned(LineRead(None, inbound[1..]))
    else if inbound[0] == 10 then Returned(LineRead(Some(line), inbound[1..]))
    else if inbound[0] == 13 then Reading(line, inbound[1..])
    else Reading(line + [inbound[0] as char], inbound[1..])
  }

  /** `fuel` iterations of `_read_line`'s loop as written, from the line read so far. */
  function RunAsWritten(line: string, inbound: seq<byte>, closed: bool, fuel: nat): LineLoop
    decreases fuel
  {
    if fuel == 0 then Reading(line, inbound)
    else match ReadLineStepAsWritten(line, inbound, closed)
      case Returned(r) => Returned(r)
      case Reading(l, rest) => RunAsWritten(l, rest, closed, fuel - 1)
  }

  /**
   * As written, `_read_line` never returns once the adapter has closed the
   * connection without ending the line: no number of iterations gets out
   * of the loop.
   */
  lemma {:induction false} ReadLineAsWrittenSpins(line: string, inbound: seq<byte>, fuel: nat)
    requires forall j :: 0 <= j < |inbound| ==> inbound[j] != 10 && inbound[j] < 128
    ensures RunAsWritten(line, inbound, true, fuel).Reading?
    decreases fuel
  {
    if fuel > 0 {
      match ReadLineStepAsWritten(line, inbound, true)
      case Reading(l, rest) =>
        assert forall j :: 0 <= j < |rest| ==> rest[j] != 10 && rest[j] < 128 by {
          if inbound != [] {
            assert rest == inbound[1..];
          }
        }
        ReadLineAsWrittenSpins(l, rest, fuel - 1);
    }
  }

  /** As intended, the same bytes make `_read_line` raise and leave nothing unread. */
  lemma {:induction false} LineRunsOut(inbound: seq<byte>)
    requires forall j :: 0 <= j < |inbound| ==> inbound[j] != 10 && inbound[j] < 128
    ensures Line(inbound) == LineRead(None, [])
    decreases |inbound|
  {
    if inbound != [] {
      var tail := inbound[1..];
      assert forall j :: 0 <= j < |tail| ==> tail[j] != 10 && tail[j] < 128 by {
        forall j | 0 <= j < |tail| ensures tail[j] != 10 && tail[j] < 128 {
          assert tail[j] == inbound[j + 1];
        }
      }
      LineRunsOut(tail);
    }
  }

  // ---------------------------------------------------------------------------
  // _read_response
  // ---------------------------------------------------------------------------

  /** `line.split(":", 1)` with both parts stripped, when the line holds a `:`. */
  function HeaderField(line: string): Option<(string, string)> {
    FindSpec(line, [':']);
    match Find(line, [':'])
    case None => None
    case Some(i) => Some((Strip(line[..i]), Strip(line[i + 1..])))
  }

  /** The header lines and what follows them (`None` headers when reading a line raised). */
  datatype HeaderRead = HeaderRead(headers: Option<map<string, string>>, rest: seq<byte>)

  /** The header loop: read lines until the empty one; a later line with the same key wins; a line without `:` is skipped. */
  function Headers(inbound: seq<byte>, headers: map<string, string>): HeaderRead
    decreases |inbound|
  {
    var r := Line(inbound);
    if r.line.None? then HeaderRead(None, r.rest)
    else if r.line.value == "" then HeaderRead(Some(headers), r.rest)
    else Headers(r.rest, match HeaderField(r.line.value) case None => headers case Some((k, v)) => headers[k := v])
  }

  /** `int(headers.get("Content-Length", 0))`; `None` when `int` raises. */
  function ContentLength(headers: map<string, string>): Option<int> {
    if "Content-Length" in headers then PyInt(headers["Content-Length"]) else Some(0)
  }

  /** What `_read_response` returns (`None` for Python's `None`), and the bytes it left unread. */
  datatype Read = Read(response: Option<Json>, rest: seq<byte>)

  /**
   * `_read_response`: no response when reading the headers raised;
   * otherwise what `Content` reads after them.
   */
  function Response(inbound: seq<byte>, parse: seq<byte> -> Option<Json>): Read {
    var h := Headers(inbound, map[]);
    if h.headers.None? then Read(None, h.rest) else Content(h.headers.value, h.rest, parse)
  }

  /**
   * The body after the headers: none when the length is missing,
   * unparseable or not positive; otherwise `recv(length)` takes up to
   * `length` of the bytes available and the response is what `parse` makes
   * of them. With no bytes left, `recv` returns `b''` or times out, and
   * either way the result is `None`.
   */
  function Content(headers: map<string, string>, rest: seq<byte>, parse: seq<byte> -> Option<Json>): Read {
    match ContentLength(headers)
    case None => Read(None, rest)
    case Some(n) =>
      if n <= 0 then Read(None, rest)
      else if rest == [] then Read(None, [])
      else
        var k := if n < |rest| then n else |rest|;
        Read(parse(rest[..k]), rest[k..])
  }

  /** `_read_response`, with its header loop. */
  method ReadResponse(inbound: seq<byte>, parse: seq<byte> -> Option<Json>) returns (r: Read)
    ensures r == Response(inbound, parse)
  {
    var headers: map<string, string> := map[];
    var rest := inbound;
    while true
      invariant Headers(inbound, map[]) == Headers(rest, headers)
      decreases |rest|
    {
      var l := ReadLine(rest);
      if l.line.None? {
        return Read(None, l.rest);
      }
      if l.line.value == "" {
        r := ReadContent(headers, l.rest, parse);
        return;
      }
      rest := l.rest;
      match HeaderField(l.line.value) {
        case None =>
        case Some((key, value)) =>
          headers := headers[key := value];
      }
    }
  }

  /** The end of `_read_response`: the length, and one `recv` of the body. */
  method ReadContent(headers: map<string, string>, rest: seq<byte>, parse: seq<byte> -> Option<Json>) returns (r: Read)
    ensures r == Content(headers, rest, parse)
  {
    var length := ContentLength(headers);
    if length.None? || length.value <= 0 {
      return Read(None, rest);
    }
    if rest == [] {
      return Read(None, []);
    }
    var k := if length.value < |rest| then length.value else |rest|;
    return Read(parse(rest[..k]), rest[k..]);
  }

  /** A header line is split at its first `:`, and a line holding no `:` is no header. */
  lemma HeaderFieldSplitsAtFirstColon(line: string, i: nat)
    requires i < |line| && line[i] == ':' && forall j :: 0 <= j < i ==> line[j] != ':'
    ensures HeaderField(line) == Some((Strip(line[..i]), Strip(line[i + 1..])))
  {
    NoEarlyOccurrence(line, [':'], i);
    assert line[i..i + 1] == [':'];
    FindIs(line, [':'], i);
  }

  lemma HeaderFieldNeedsColon(line: string)
    requires forall j :: 0 <= j < |line| ==> line[j] != ':'
    ensures HeaderField(line).None?
  {
    NoEarlyOccurrence(line, [':'], |line|);
    FindSpec(line, [':']);
  }

  // ---------------------------------------------------------------------------
  // Reading back what the encoder writes
  // ---------------------------------------------------------------------------

  lemma {:induction false} WithoutReturnsAppend(a: string, b: string)
    ensures WithoutReturns(a + b) == WithoutReturns(a) + WithoutReturns(b)
    decreases |a|
  {
    if a == [] {
      assert a + b == b;
    } else {
      assert (a + b)[0] == a[0] && (a + b)[1..] == a[1..] + b;
      WithoutReturnsAppend(a[1..], b);
      var h: string := if a[0] == '\r' then [] else [a[0]];
      assert WithoutReturns(a + b) == h + (WithoutReturns(a[1..]) + WithoutReturns(b));
      assert WithoutReturns(a) == h + WithoutReturns(a[1..]);
    }
  }

  lemma {:induction false} WithoutReturnsNone(s: string)
    requires Avoids(s, '\r')
    ensures WithoutReturns(s) == s
    decreases |s|
  {
    if s != [] {
      WithoutReturnsNone(s[1..]);
    }
  }

  /** The first header line of an encoded frame is its `Content-Length` line. */
  lemma FirstLine(n: nat, rest: seq<byte>)
    ensures Line(Ascii(LengthLine(n)) + [13, 10] + rest) == LineRead(Some(LengthLine(n)), rest)
  {
    var text := LengthLine(n);
    LengthLineChars(n);
    var buf := Ascii(text) + [13, 10] + rest;
    var i := |text| + 1;
    assert NewlineAt(buf, i) by {
      forall j | 0 <= j < i ensures buf[j] != 10 && buf[j] < 128 {
        if j < |text| {
          assert buf[j] == text[j] as int;
        }
      }
    }
    LineAt(buf, i);
    assert buf[..i] == Ascii(text) + [13];
    assert Chars(buf[..i]) == text + "\r";
    WithoutReturnsAppend(text, "\r");
    WithoutReturnsNone(text);
    assert "\r"[1..] == [];
    assert WithoutReturns("\r") == [];
    assert text + [] == text;
    assert buf[i + 1..] == rest;
  }

  lemma NameStrips()
    ensures Strip("Content-Length") == "Content-Length"
  {
    StripNoSpace("Content-Length");
  }

  lemma DecimalStrips(n: nat)
    ensures Strip(" " + Decimal(n)) == Decimal(n)
  {
    var d := Decimal(n);
    assert IsDigit(d[0]) && IsDigit(d[|d| - 1]);
    assert " " + d == [' '] + d;
    StripLeadingSpace(' ', d);
  }

  /** The `Content-Length` line has its first `:` right after the name, and the decimal length after a space. */
  lemma LengthLineSplits(n: nat)
    ensures var line := LengthLine(n);
      && 14 < |line| && line[14] == ':' && (forall j :: 0 <= j < 14 ==> line[j] != ':')
      && line[..14] == "Content-Length" && line[15..] == " " + Decimal(n)
  {
    var line := LengthLine(n);
    assert line == LengthKey + (" " + Decimal(n));
    forall j | 0 <= j < 14 ensures line[j] != ':' {
      assert line[j] == LengthKey[j];
    }
  }

  /** The `Content-Length` line of an encoded frame is the header `Content-Length` with the decimal length. */
  lemma LengthField(n: nat)
    ensures HeaderField(LengthLine(n)) == Some(("Content-Length", Decimal(n)))
  {
    LengthLineSplits(n);
    HeaderFieldSplitsAtFirstColon(LengthLine(n), 14);
    NameStrips();
    DecimalStrips(n);
  }

  /** The empty line that ends a header. */
  lemma BlankLine(rest: seq<byte>)
    ensures Line([13, 10] + rest) == LineRead(Some(""), rest)
  {
    var buf := [13, 10] + rest;
    assert buf[0] == 13 && buf[1..] == [10] + rest;
    assert ([10] + rest)[0] == 10 && ([10] + rest)[1..] == rest;
  }

  /** The header of an encoded frame declares the body's length. */
  lemma EncodedHeaders(body: seq<byte>, more: seq<byte>)
    ensures Headers(Encode(body) + more, map[]) == HeaderRead(Some(map["Content-Length" := Decimal(|body|)]), body + more)
  {
    var n := |body|;
    var buf := Encode(body) + more;
    LengthLineChars(n);
    var after := [13, 10] + (body + more);
    assert buf == Ascii(LengthLine(n)) + [13, 10] + after;
    FirstLine(n, after);
    LengthField(n);
    var hs := map["Content-Length" := Decimal(n)];
    assert Headers(buf, map[]) == Headers(after, hs);
    BlankLine(body + more);
  }

  /**
   * Round trip with the encoder: `_read_response` reads exactly the body of
   * an encoded frame, leaving what follows it, and returns no response for
   * an empty body.
   */
  lemma ResponseReadsEncoded(body: seq<byte>, more: seq<byte>, parse: seq<byte> -> Option<Json>)
    ensures Response(Encode(body) + more, parse) == Read(if body == [] then None else parse(body), more)
  {
    var hs := map["Content-Length" := Decimal(|body|)];
    var rest := body + more;
    EncodedHeaders(body, more);
    DecimalRoundTrip(|body|);
    assert ContentLength(hs) == Some(|body|);
    assert Response(Encode(body) + more, parse) == Content(hs, rest, parse);
    if body != [] {
      assert rest[..|body|] == body && rest[|body|..] == more;
    }
  }

  /** A header without `Content-Length` yields no response, and so does a declared length of 0. */
  lemma NoLengthNoResponse(inbound: seq<byte>, parse: seq<byte> -> Option<Json>)
    requires Headers(inbound, map[]).headers.Some?
    requires var hs := Headers(inbound, map[]).headers.value;
      "Content-Length" !in hs || PyInt(hs["Content-Length"]) == Some(0)
    ensures Response(inbound, parse) == Read(None, Headers(inbound, map[]).rest)
  {
  }

  // ---------------------------------------------------------------------------
  // _send_request's frame
  // ---------------------------------------------------------------------------

  /** The request envelope `_send_request` serialises. */
  function RequestJson(seqNo: int, command: string, arguments: Object): Json {
    JObj(map["seq" := JNum(seqNo), "type" := JStr("request"), "command" := JStr(command), "arguments" := JObj(arguments)])
  }

  /**
   * The bytes `_send_request` writes: the serialised request (`serialize`
   * stands for `json.dumps` and UTF-8 encoding) behind a header that
   * declares its length in bytes.
   */
  function RequestFrame(serialize: Json -> seq<byte>, seqNo: int, command: string, arguments: Object): seq<byte> {
    Encode(serialize(RequestJson(seqNo, command, arguments)))
  }

  /** Both readers in this system, `DAPClient`'s decoder and `_read_response`, take the serialised request back out of the frame. */
  lemma RequestFrameReadsBack(serialize: Json -> seq<byte>, parse: seq<byte> -> Option<Json>, seqNo: int, command: string,
                              arguments: Object, more: seq<byte>)
    ensures var body := serialize(RequestJson(seqNo, command, arguments));
      && Step(DeclaredLength, RequestFrame(serialize, seqNo, command, arguments) + more) == Frame(body, more)
      && Response(RequestFrame(serialize, seqNo, command, arguments) + more, parse)
         == Read(if body == [] then None else parse(body), more)
  {
    var body := serialize(RequestJson(seqNo, command, arguments));
    LengthLineDeclares(|body|);
    EncodeThenStep(DeclaredLength, body, more);
    ResponseReadsEncoded(body, more, parse);
  }
}
