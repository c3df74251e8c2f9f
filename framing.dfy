/**
 * The Debug Adapter Protocol base framing both clients use:
 * `Content-Length: N\r\n\r\n` followed by N bytes of JSON body.
 *
 * `Step` is one pass of the inner loop of `DAPClient._receive_loop`
 * (cut one frame from the front of the buffer, or wait for more bytes, or
 * fail on the header); `Drain` repeats it; `Feed` is the outer loop that
 * appends each `recv` chunk before draining. `Encode` is the sender's side.
 *
 * The cutting is written for any header reader (a function from the header
 * text to the length it declares), so that what holds of the cutting is
 * proved once; `DeclaredLength` is the reader `DAPClient` uses.
 */
module Framing {
  import opened Wrappers
  import opened PyText

  /** `b'\r\n\r\n'`, the end of a header block. */
  const Separator: seq<byte> := [13, 10, 13, 10]

  /** The header line prefix the decoder looks for. */
  const LengthKey: string := "Content-Length:"

  /** What the header block declares about the body length. */
  datatype Declared = Length(n: int) | Unparseable

  /** Reads the length a header block declares. */
  type Reader = string -> Declared

  // ---------------------------------------------------------------------------
  // DAPClient's header reader
  // ---------------------------------------------------------------------------

  /**
   * The Content-Length scan over the header's lines: the first line that
   * starts with `Content-Length:` decides, its value being the text between the
   * first and the second `:`, stripped and read with `int`; no such line means 0.
   */
  function DeclaredLength(header: string): Declared
    decreases |header|
  {
    var lineEnd := Find(header, "\r\n");
    FindSpec(header, "\r\n");
    var line := if lineEnd.Some? then header[..lineEnd.value] else header;
    if StartsWith(line, LengthKey) then LineLength(line)
    else if lineEnd.Some? then DeclaredLength(header[lineEnd.value + 2..])
    else Length(0)
  }

  /** What a `Content-Length:` line declares: `int(line.split(':')[1].strip())`. */
  function LineLength(line: string): Declared
    requires StartsWith(line, LengthKey)
  {
    assert OccursAt(line, [':'], 14);
    FindSpec(line, [':']);
    match PyInt(Strip(SecondField(line, ':')))
    case Some(n) => Length(n)
    case None => Unparseable
  }

  /** `header.split('\r\n')`. */
  function Lines(header: string): (r: seq<string>)
    ensures |r| >= 1
    decreases |header|
  {
    var lineEnd := Find(header, "\r\n");
    FindSpec(header, "\r\n");
    if lineEnd.Some? then [header[..lineEnd.value]] + Lines(header[lineEnd.value + 2..]) else [header]
  }

  /** One line of the header scan: the first line decides, or the scan goes on with the lines after it. */
  lemma HeaderLines(header: string)
    ensures var e := Find(header, "\r\n");
      && (e.Some? ==> e.value + 2 <= |header| && Lines(header) == [header[..e.value]] + Lines(header[e.value + 2..]))
      && (e.None? ==> Lines(header) == [header])
      && DeclaredLength(header) ==
           if StartsWith(Lines(header)[0], LengthKey) then LineLength(Lines(header)[0])
           else if e.Some? then DeclaredLength(header[e.value + 2..])
           else Length(0)
  {
    FindSpec(header, "\r\n");
  }

  /** A header with no `Content-Length:` line declares length 0. */
  lemma {:induction false} NoLengthLineIsZero(header: string)
    requires forall i :: 0 <= i < |Lines(header)| ==> !StartsWith(Lines(header)[i], LengthKey)
    ensures DeclaredLength(header) == Length(0)
    decreases |header|
  {
    HeaderLines(header);
    var e := Find(header, "\r\n");
    assert !StartsWith(Lines(header)[0], LengthKey);
    if e.Some? {
      var tail := header[e.value + 2..];
      assert Lines(tail) == Lines(header)[1..];
      NoLengthLineIsZero(tail);
    }
  }

  /** The first `Content-Length:` line of a header alone decides the length; the lines after it are never read. */
  lemma {:induction false} FirstLengthLineDecides(header: string, i: nat)
    requires i < |Lines(header)| && StartsWith(Lines(header)[i], LengthKey)
    requires forall j :: 0 <= j < i ==> !StartsWith(Lines(header)[j], LengthKey)
    ensures DeclaredLength(header) == LineLength(Lines(header)[i])
    decreases |header|
  {
    HeaderLines(header);
    var e := Find(header, "\r\n");
    if i > 0 {
      assert !StartsWith(Lines(header)[0], LengthKey);
      var tail := header[e.value + 2..];
      assert Lines(tail) == Lines(header)[1..];
      FirstLengthLineDecides(tail, i - 1);
    }
  }

  /** The declared length of a header made of the key and a value with no `:` and no `\r`. */
  function ValueLength(v: string): Declared {
    match PyInt(Strip(v))
    case Some(n) => Length(n)
    case None => Unparseable
  }

  /** No character of `s` is `c`. */
  predicate Avoids(s: string, c: char) {
    forall i :: 0 <= i < |s| ==> s[i] != c
  }

  lemma KeyLineAvoidsCr(v: string)
    requires Avoids(v, '\r')
    ensures Avoids(LengthKey + v, '\r')
  {
    var line := LengthKey + v;
    forall i | 0 <= i < |line| ensures line[i] != '\r' {
      if i >= |LengthKey| {
        assert line[i] == v[i - |LengthKey|];
      }
    }
  }

  lemma SingleLine(line: string)
    requires Avoids(line, '\r')
    ensures Find(line, "\r\n") == None
  {
    NoEarlyOccurrence(line, "\r\n", |line|);
    FindSpec(line, "\r\n");
  }

  lemma KeyColon(v: string)
    ensures Find(LengthKey + v, [':']) == Some(14)
  {
    var line := LengthKey + v;
    assert line[14..15] == [':'];
    forall i | 0 <= i < 14 ensures line[i] != ':' {
      assert line[i] == LengthKey[i];
    }
    NoEarlyOccurrence(line, [':'], 14);
    FindIs(line, [':'], 14);
  }

  lemma KeyValue(v: string)
    requires Avoids(v, ':')
    ensures Find(LengthKey + v, [':']).Some? && SecondField(LengthKey + v, ':') == v
  {
    KeyColon(v);
    var line := LengthKey + v;
    assert line[15..] == v;
    var r := SecondField(line, ':');
    assert |r| < |v| ==> v[|r|] != ':';
  }

  /** A one-line header `Content-Length:<v>` declares what `int(v.strip())` reads. */
  lemma DeclaresValue(v: string)
    requires Avoids(v, ':') && Avoids(v, '\r')
    ensures DeclaredLength(LengthKey + v) == ValueLength(v)
  {
    KeyLineAvoidsCr(v);
    SingleLine(LengthKey + v);
    KeyColon(v);
    KeyValue(v);
    assert StartsWith(LengthKey + v, LengthKey);
  }

  // ---------------------------------------------------------------------------
  // Cutting one frame
  // ---------------------------------------------------------------------------

  /** The outcome of one pass of the extraction loop on a buffer. */
  datatype Cut =
    | NeedMore                                  // no complete frame yet: wait for data
    | BadHeader                                 // the length could not be read: the loop ends
    | Frame(body: seq<byte>, rest: seq<byte>)   // one body cut from the front

  /** Where the first separator starts, if the buffer holds one. */
  function HeaderEnd(buf: seq<byte>): (r: Option<nat>)
    ensures r.Some? ==> r.value + 4 <= |buf|
  {
    FindSpec(buf, Separator);
    Find(buf, Separator)
  }

  /** What the header in front of a separator at `h` declares, each byte read as one character. */
  function LengthAt(read: Reader, buf: seq<byte>, h: nat): Declared
    requires h <= |buf|
  {
    read(Chars(buf[..h]))
  }

  /** The declared length depends only on the header's bytes. */
  lemma LengthAtPrefix(read: Reader, x: seq<byte>, y: seq<byte>, h: nat)
    requires h <= |x|
    ensures LengthAt(read, x + y, h) == LengthAt(read, x, h)
  {
    assert (x + y)[..h] == x[..h];
  }

  /**
   * One pass of the extraction loop, with a negative declared length rejected
   * like a non-integer one (see `StepAsWritten` for the loop as written).
   */
  function Step(read: Reader, buf: seq<byte>): (r: Cut)
    ensures r.Frame? ==> |r.rest| < |buf|
  {
    match HeaderEnd(buf)
    case None => NeedMore
    case Some(h) =>
      match LengthAt(read, buf, h)
      case Unparseable => BadHeader
      case Length(n) =>
        if n < 0 then BadHeader
        else if |buf| >= h + 4 + n then Frame(buf[h + 4..h + 4 + n], buf[h + 4 + n..])
        else NeedMore
  }

  /**
   * `f` is exactly one frame carrying `body`: a header free of the separator,
   * the separator, then the body, whose length is what the header declares.
   */
  ghost predicate IsFrame(read: Reader, f: seq<byte>, body: seq<byte>) {
    exists h: nat ::
      && h + 4 + |body| == |f|
      && OccursAt(f, Separator, h)
      && (forall j :: 0 <= j < h ==> !OccursAt(f, Separator, j))
      && LengthAt(read, f, h) == Length(|body|)
      && f[h + 4..] == body
  }

  /** A cut frame is a well-formed frame taken off the front of the buffer. */
  lemma StepFrameIsFrame(read: Reader, buf: seq<byte>)
    requires Step(read, buf).Frame?
    ensures var s := Step(read, buf); IsFrame(read, buf[..|buf| - |s.rest|], s.body)
  {
    var s := Step(read, buf);
    var h := HeaderEnd(buf).value;
    var f := buf[..|buf| - |s.rest|];
    FindSpec(buf, Separator);
    assert f[h..h + 4] == buf[h..h + 4];
    forall j | 0 <= j < h
      ensures !OccursAt(f, Separator, j)
    {
      assert f[j..j + 4] == buf[j..j + 4];
      assert !OccursAt(buf, Separator, j);
    }
    LengthAtPrefix(read, f, s.rest, h);
    assert buf == f + s.rest;
    assert OccursAt(f, Separator, h);
  }

  /** Any well-formed frame in front of a buffer is exactly what `Step` cuts. */
  lemma FrameIsStep(read: Reader, f: seq<byte>, body: seq<byte>, more: seq<byte>)
    requires IsFrame(read, f, body)
    ensures Step(read, f + more) == Frame(body, more)
  {
    var h: nat :| h + 4 + |body| == |f| && OccursAt(f, Separator, h)
      && (forall j :: 0 <= j < h ==> !OccursAt(f, Separator, j))
      && LengthAt(read, f, h) == Length(|body|) && f[h + 4..] == body;
    var buf := f + more;
    FindIs(f, Separator, h);
    FindExtend(f, more, Separator);
    LengthAtPrefix(read, f, more, h);
    assert buf[h + 4..h + 4 + |body|] == body;
    assert buf[h + 4 + |body|..] == more;
  }

  /** A buffer with no separator, or too short for its declared body, is left as it is. */
  lemma StepWaits(read: Reader, buf: seq<byte>)
    requires HeaderEnd(buf).None? || (var h := HeaderEnd(buf).value;
      var d := LengthAt(read, buf, h); d.Length? && 0 <= d.n && |buf| < h + 4 + d.n)
    ensures Step(read, buf) == NeedMore
  {
  }

  /** Appending bytes after a buffer does not change what its first step decides. */
  lemma StepExtends(read: Reader, x: seq<byte>, y: seq<byte>)
    ensures Step(read, x).Frame? ==> Step(read, x + y) == Frame(Step(read, x).body, Step(read, x).rest + y)
    ensures Step(read, x).BadHeader? ==> Step(read, x + y).BadHeader?
  {
    if HeaderEnd(x).Some? {
      FindExtend(x, y, Separator);
      var h := HeaderEnd(x).value;
      LengthAtPrefix(read, x, y, h);
      match LengthAt(read, x, h)
      case Unparseable =>
      case Length(n) =>
        if n >= 0 && |x| >= h + 4 + n {
          assert (x + y)[h + 4..h + 4 + n] == x[h + 4..h + 4 + n];
          assert (x + y)[h + 4 + n..] == x[h + 4 + n..] + y;
        }
    }
  }

  // ---------------------------------------------------------------------------
  // Draining a buffer
  // ---------------------------------------------------------------------------

  /** The bodies cut from a buffer, the bytes left, and whether a bad header stopped it. */
  datatype Drained = Drained(bodies: seq<seq<byte>>, rest: seq<byte>, badHeader: bool)

  /** The inner extraction loop run to completion on one buffer. */
  function Drain(read: Reader, buf: seq<byte>): (d: Drained)
    ensures |d.rest| <= |buf|
    ensures if d.badHeader then Step(read, d.rest).BadHeader? else Step(read, d.rest).NeedMore?
    decreases |buf|
  {
    match Step(read, buf)
    case NeedMore => Drained([], buf, false)
    case BadHeader => Drained([], buf, true)
    case Frame(body, rest) =>
      var d := Drain(read, rest);
      Drained([body] + d.bodies, d.rest, d.badHeader)
  }

  /**
   * The extraction loop as `_receive_loop` runs it on its buffer: find the
   * separator, read the declared length, cut the frame if it is complete,
   * otherwise stop and wait for more bytes.
   */
  method DrainBuffer(read: Reader, buffer: seq<byte>) returns (bodies: seq<seq<byte>>, rest: seq<byte>, badHeader: bool)
    ensures Drained(bodies, rest, badHeader) == Drain(read, buffer)
  {
    bodies, rest, badHeader := [], buffer, false;
    while true
      invariant Drain(read, buffer) == Drained(bodies + Drain(read, rest).bodies, Drain(read, rest).rest, Drain(read, rest).badHeader)
      decreases |rest|
    {
      var headerEnd := HeaderEnd(rest);
      if headerEnd.None? {
        assert Drain(read, rest) == Drained([], rest, false);
        assert bodies + [] == bodies;
        return;
      }
      var h := headerEnd.value;
      var declared := LengthAt(read, rest, h);
      if declared.Unparseable? || declared.n < 0 {
        assert Drain(read, rest) == Drained([], rest, true);
        assert bodies + [] == bodies;
        badHeader := true;
        return;
      }
      var n := declared.n;
      if |rest| < h + 4 + n {
        assert Drain(read, rest) == Drained([], rest, false);
        assert bodies + [] == bodies;
        return;
      }
      var body, next := rest[h + 4..h + 4 + n], rest[h + 4 + n..];
      assert Step(read, rest) == Frame(body, next);
      ConcatAssoc(bodies, [body], Drain(read, next).bodies);
      bodies, rest := bodies + [body], next;
    }
  }

  lemma ConcatAssoc<T>(a: seq<T>, b: seq<T>, c: seq<T>)
    ensures a + (b + c) == (a + b) + c
  {
  }

  /** Draining a buffer that starts with a frame: that body, then whatever the rest drains to. */
  lemma DrainFrame(read: Reader, buf: seq<byte>)
    requires Step(read, buf).Frame?
    ensures var s := Step(read, buf); var d := Drain(read, s.rest);
      Drain(read, buf) == Drained([s.body] + d.bodies, d.rest, d.badHeader)
  {
  }

  /** Draining `x + y` is draining `x`, then draining what `x` left with `y` behind it. */
  lemma {:induction false} DrainAppend(read: Reader, x: seq<byte>, y: seq<byte>)
    requires !Drain(read, x).badHeader
    ensures var d := Drain(read, x); var e := Drain(read, d.rest + y);
      Drain(read, x + y) == Drained(d.bodies + e.bodies, e.rest, e.badHeader)
    decreases |x|
  {
    StepExtends(read, x, y);
    var s := Step(read, x);
    if s.NeedMore? {
      assert [] + Drain(read, x + y).bodies == Drain(read, x + y).bodies;
    } else if s.Frame? {
      var body, rest := s.body, s.rest;
      DrainFrame(read, x);
      DrainAppend(read, rest, y);
      DrainFrame(read, x + y);
      var d := Drain(read, rest);
      var e := Drain(read, d.rest + y);
      ConcatAssoc([body], d.bodies, e.bodies);
    }
  }

  /** Once a buffer hits a bad header, more bytes behind it change nothing before it. */
  lemma {:induction false} DrainAppendBad(read: Reader, x: seq<byte>, y: seq<byte>)
    requires Drain(read, x).badHeader
    ensures Drain(read, x + y).bodies == Drain(read, x).bodies && Drain(read, x + y).badHeader
    decreases |x|
  {
    StepExtends(read, x, y);
    match Step(read, x)
    case NeedMore =>
    case BadHeader =>
    case Frame(body, rest) =>
      DrainAppendBad(read, rest, y);
  }

  // ---------------------------------------------------------------------------
  // The outer receive loop over recv() chunks
  // ---------------------------------------------------------------------------

  /** All chunks, back to back. */
  function Flatten(chunks: seq<seq<byte>>): seq<byte> {
    if chunks == [] then [] else chunks[0] + Flatten(chunks[1..])
  }

  /** The chunks read before the first empty one, which is the peer closing the connection. */
  function Received(chunks: seq<seq<byte>>): seq<seq<byte>>
    decreases |chunks|
  {
    if chunks == [] || chunks[0] == [] then [] else [chunks[0]] + Received(chunks[1..])
  }

  /**
   * The outer loop: an empty read ends it (`if not data: break`); otherwise
   * the chunk is appended to the buffer (`buffer += data`) and drained; a bad
   * header ends the loop with the chunks after it never read.
   */
  function Feed(read: Reader, buffer: seq<byte>, chunks: seq<seq<byte>>): Drained
    decreases |chunks|
  {
    if chunks == [] || chunks[0] == [] then Drained([], buffer, false)
    else
      var d := Drain(read, buffer + chunks[0]);
      if d.badHeader then d
      else
        var f := Feed(read, d.rest, chunks[1..]);
        Drained(d.bodies + f.bodies, f.rest, f.badHeader)
  }

  /**
   * Feeding chunks to a drained buffer yields the bodies of draining, at
   * once, all the bytes received before the connection closed: bytes are
   * only ever appended and frames only cut from the front.
   */
  lemma {:induction false} FeedIsDrainOfAll(read: Reader, buffer: seq<byte>, chunks: seq<seq<byte>>)
    requires Step(read, buffer).NeedMore?
    ensures var f, d := Feed(read, buffer, chunks), Drain(read, buffer + Flatten(Received(chunks)));
      f.bodies == d.bodies && f.badHeader == d.badHeader && (!f.badHeader ==> f.rest == d.rest)
    decreases |chunks|
  {
    if chunks == [] || chunks[0] == [] {
      assert buffer + Flatten(Received(chunks)) == buffer;
    } else {
      var c := chunks[0];
      assert Flatten(Received(chunks)) == c + Flatten(Received(chunks[1..]));
      assert buffer + Flatten(Received(chunks)) == (buffer + c) + Flatten(Received(chunks[1..]));
      var d := Drain(read, buffer + c);
      if d.badHeader {
        DrainAppendBad(read, buffer + c, Flatten(Received(chunks[1..])));
      } else {
        DrainAppend(read, buffer + c, Flatten(Received(chunks[1..])));
        FeedIsDrainOfAll(read, d.rest, chunks[1..]);
      }
    }
  }

  lemma EmptyNeedsMore(read: Reader)
    ensures Step(read, []) == NeedMore
  {
    FindSpec([], Separator);
    assert !OccursAt([], Separator, 0);
  }

  /**
   * How the bytes received before the connection closes are split into
   * `recv` chunks does not change the decoded bodies.
   */
  lemma ChunkingIndependent(read: Reader, c1: seq<seq<byte>>, c2: seq<seq<byte>>)
    requires Flatten(Received(c1)) == Flatten(Received(c2))
    ensures Feed(read, [], c1).bodies == Feed(read, [], c2).bodies
    ensures Feed(read, [], c1).badHeader == Feed(read, [], c2).badHeader
  {
    EmptyNeedsMore(read);
    FeedIsDrainOfAll(read, [], c1);
    FeedIsDrainOfAll(read, [], c2);
  }

  // ---------------------------------------------------------------------------
  // The sender's side
  // ---------------------------------------------------------------------------

  /** The header line a sender writes for a body of `n` bytes. */
  function LengthLine(n: nat): string {
    LengthKey + " " + Decimal(n)
  }

  lemma LengthLineChars(n: nat)
    ensures IsAscii(LengthLine(n)) && Avoids(LengthLine(n), '\r')
  {
    var line := LengthLine(n);
    var d := Decimal(n);
    forall i | 0 <= i < |line| ensures line[i] as int < 128 && line[i] != '\r' {
      if i >= 16 {
        assert line[i] == d[i - 16];
      }
    }
  }

  lemma DecimalValueLength(n: nat)
    ensures ValueLength(" " + Decimal(n)) == Length(n)
  {
    var d := Decimal(n);
    StripLeadingSpace(' ', d);
    DecimalRoundTrip(n);
  }

  /** The decoder reads back the length a sender declares. */
  lemma LengthLineDeclares(n: nat)
    ensures DeclaredLength(LengthLine(n)) == Length(n)
  {
    var d := Decimal(n);
    var v := " " + d;
    assert LengthLine(n) == LengthKey + v;
    forall i | 0 <= i < |v| ensures v[i] != ':' && v[i] != '\r' {
      if i > 0 {
        assert v[i] == d[i - 1];
      }
    }
    DeclaresValue(v);
    DecimalValueLength(n);
  }

  /** `read` reads back every length line a sender writes. */
  ghost predicate ReadsLengthLines(read: Reader) {
    forall n: nat :: read(LengthLine(n)) == Length(n)
  }

  lemma DeclaredLengthReadsLengthLines()
    ensures ReadsLengthLines(DeclaredLength)
  {
    forall n: nat ensures DeclaredLength(LengthLine(n)) == Length(n) {
      LengthLineDeclares(n);
    }
  }

  /** A one-line header free of `\r`, then the separator: the header ends right after the line. */
  lemma HeaderOfLine(read: Reader, line: string, rest: seq<byte>)
    requires IsAscii(line) && Avoids(line, '\r')
    ensures var buf := Ascii(line) + Separator + rest;
      HeaderEnd(buf) == Some(|line|) && LengthAt(read, buf, |line|) == read(line)
  {
    var hdr := Ascii(line);
    var buf := hdr + Separator + rest;
    var h := |line|;
    assert buf[h..h + 4] == Separator;
    forall i | 0 <= i < h ensures buf[i] != Separator[0] {
      assert buf[i] == hdr[i] == line[i] as int;
    }
    NoEarlyOccurrence(buf, Separator, h);
    FindIs(buf, Separator, h);
    assert buf[..h] == hdr;
    CharsAscii(line);
  }

  /**
   * `Content-Length: n\r\n\r\n` followed by the body, `n` being the body's
   * byte count.
   */
  function Encode(body: seq<byte>): seq<byte> {
    LengthLineChars(|body|);
    Ascii(LengthLine(|body|)) + Separator + body
  }

  /** Round trip: the decoder cuts exactly the encoded body, leaving what follows. */
  lemma EncodeThenStep(read: Reader, body: seq<byte>, more: seq<byte>)
    requires read(LengthLine(|body|)) == Length(|body|)
    ensures Step(read, Encode(body) + more) == Frame(body, more)
  {
    var line := LengthLine(|body|);
    LengthLineChars(|body|);
    var buf := Encode(body) + more;
    assert buf == Ascii(line) + Separator + (body + more);
    HeaderOfLine(read, line, body + more);
    var h := |line|;
    assert buf[h + 4..h + 4 + |body|] == body;
    assert buf[h + 4 + |body|..] == more;
  }

  /** An encoded body is a frame carrying exactly that body. */
  lemma EncodeIsFrame(read: Reader, body: seq<byte>)
    requires read(LengthLine(|body|)) == Length(|body|)
    ensures IsFrame(read, Encode(body), body)
  {
    EncodeThenStep(read, body, []);
    assert Encode(body) + [] == Encode(body);
    StepFrameIsFrame(read, Encode(body));
  }

  /** Several encoded bodies back to back. */
  function EncodeAll(bodies: seq<seq<byte>>): seq<byte> {
    if bodies == [] then [] else Encode(bodies[0]) + EncodeAll(bodies[1..])
  }

  /** Round trip: draining a stream of encoded bodies yields those bodies, in order, and nothing left. */
  lemma {:induction false} DrainEncodeAll(read: Reader, bodies: seq<seq<byte>>)
    requires ReadsLengthLines(read)
    ensures Drain(read, EncodeAll(bodies)) == Drained(bodies, [], false)
  {
    if bodies == [] {
      EmptyNeedsMore(read);
    } else {
      EncodeThenStep(read, bodies[0], EncodeAll(bodies[1..]));
      DrainEncodeAll(read, bodies[1..]);
      assert [bodies[0]] + bodies[1..] == bodies;
    }
  }

  /** `DAPClient` decodes every stream of encoded bodies into exactly those bodies. */
  lemma DapDecodesEncoded(bodies: seq<seq<byte>>)
    ensures Drain(DeclaredLength, EncodeAll(bodies)) == Drained(bodies, [], false)
  {
    DeclaredLengthReadsLengthLines();
    DrainEncodeAll(DeclaredLength, bodies);
  }

  // ---------------------------------------------------------------------------
  // The extraction step as written, with a negative length
  // ---------------------------------------------------------------------------

  /**
   * One pass of the extraction loop exactly as written: a negative declared
   * length passes the completeness check and the slices follow Python's
   * negative-index rules.
   */
  function StepAsWritten(read: Reader, buf: seq<byte>): Cut {
    match HeaderEnd(buf)
    case None => NeedMore
    case Some(h) =>
      match LengthAt(read, buf, h)
      case Unparseable => BadHeader
      case Length(n) =>
        if |buf| >= h + 4 + n then Frame(PySlice(buf, h + 4, h + 4 + n), PySuffix(buf, h + 4 + n))
        else NeedMore
  }

  /** The corrected step differs from the written one only on a negative declared length. */
  lemma StepAsWrittenAgrees(read: Reader, buf: seq<byte>)
    requires HeaderEnd(buf).Some? ==> var d := LengthAt(read, buf, HeaderEnd(buf).value); !(d.Length? && d.n < 0)
    ensures StepAsWritten(read, buf) == Step(read, buf)
  {
  }

  /** The header text `Content-Length: -100`. */
  const NegativeHeader: string := LengthKey + " -100"

  /** A buffer holding only a header that declares `Content-Length: -100`. */
  function NegativeLengthFrame(): seq<byte> {
    assert IsAscii(NegativeHeader);
    Ascii(NegativeHeader) + Separator
  }

  lemma HundredDigits()
    ensures DigitText("100") && DigitsValue("100") == 100
  {
    assert "100"[..2] == "10";
    assert "10"[..1] == "1";
    assert "1"[..0] == "";
  }

  lemma StripMinusHundred()
    ensures Strip(" -100") == "-100"
  {
    assert " -100" == [' '] + "-100";
    StripLeadingSpace(' ', "-100");
  }

  lemma MinusHundred()
    ensures ValueLength(" -100") == Length(-100)
  {
    StripMinusHundred();
    StripNoSpace("-100");
    assert "-100"[1..] == "100";
    HundredDigits();
  }

  lemma NegativeHeaderDeclares()
    ensures DeclaredLength(NegativeHeader) == Length(-100)
  {
    DeclaresValue(" -100");
    MinusHundred();
  }

  lemma NegativeFrameHeader()
    ensures HeaderEnd(NegativeLengthFrame()) == Some(20)
    ensures LengthAt(DeclaredLength, NegativeLengthFrame(), 20) == Length(-100)
  {
    assert IsAscii(NegativeHeader) && Avoids(NegativeHeader, '\r');
    HeaderOfLine(DeclaredLength, NegativeHeader, []);
    assert NegativeLengthFrame() == Ascii(NegativeHeader) + Separator + [];
    NegativeHeaderDeclares();
  }

  /**
   * As written, a buffer holding only a header with `Content-Length: -100`
   * yields an empty body (dropped as invalid JSON) and leaves the buffer as it
   * was, so the loop finds the same header again forever.
   */
  lemma NegativeLengthStalls()
    ensures StepAsWritten(DeclaredLength, NegativeLengthFrame()) == Frame([], NegativeLengthFrame())
  {
    NegativeFrameHeader();
  }

  /** The corrected step stops the loop on such a header. */
  lemma NegativeLengthRejected()
    ensures Step(DeclaredLength, NegativeLengthFrame()) == BadHeader
  {
    NegativeFrameHeader();
  }
}
