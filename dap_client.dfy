/**
 * `DAPClient`: one connection to a debug adapter, a background loop that
 * reads frames off the socket and dispatches them, and requests that wait
 * for the response carrying their sequence number.
 *
 * The threads are replaced by sequential transitions. `_send_request` is
 * `SendRequest`: allocate a sequence number, register it as pending, send,
 * then let the receive loop handle the chunks that arrive before the wait
 * ends (an `Exchange` says which chunks those are and whether `send`
 * raises), and take the response if its event was set. Each step is
 * specified by a function over the client's `State`; the class's methods
 * are proved to compute exactly those functions.
 */
module Dap {
  import opened Wrappers
  import opened PyText
  import opened Json
  import opened Framing

  /** The address the socket was created for. */
  datatype Socket = Socket(host: string, port: int)

  /** Callbacks are opaque to the client: only which one is registered under a name matters. */
  type CallbackId = nat

  /** A request as the client wrote it to the socket. */
  datatype Request = Request(seqNo: int, command: string, arguments: Object)

  /** One run of a registered callback, with the body it was given. */
  datatype Call = Call(callback: CallbackId, body: Json)

  /**
   * What becomes of a frame's body: not UTF-8 (the decode raises and the
   * receive loop ends), not JSON (logged and dropped), or a JSON value.
   */
  datatype Decoded = NotText | NotJson | Message(value: Json)

  /**
   * What happens during one request: whether `send` raises, and the chunks
   * the receive loop reads before the wait for the response ends.
   */
  datatype Exchange = Exchange(sendFails: bool, arrivals: seq<seq<byte>>)

  /** The client's fields, plus the receive loop's buffer and whether that loop still runs. */
  datatype State = State(
    socket: Option<Socket>,
    sequenceNumber: int,
    pending: map<int, bool>,          // pending seq -> whether its event was set
    responses: map<int, Object>,
    callbacks: map<string, CallbackId>,
    isConnected: bool,
    sent: seq<Request>,
    calls: seq<Call>,
    buffer: seq<byte>,
    receiving: bool)

  /** A freshly constructed client. */
  const Initial: State := State(None, 1, map[], map[], map[], false, [], [], [], false)

  /** The `initialize` arguments `connect` sends. */
  const InitializeArguments: Object := map[
    "clientID" := JStr("debugpy-mcp-server"),
    "clientName" := JStr("Debugpy MCP Server"),
    "adapterID" := JStr("python"),
    "pathFormat" := JStr("path"),
    "linesStartAt1" := JBool(true),
    "columnsStartAt1" := JBool(true),
    "supportsVariableType" := JBool(true),
    "supportsVariablePaging" := JBool(true),
    "supportsRunInTerminalRequest" := JBool(false),
    "supportsMemoryReferences" := JBool(false),
    "supportsProgressReporting" := JBool(false),
    "supportsInvalidatedEvent" := JBool(false)]

  /** `message` is a response answering the request with sequence number `seqNo`. */
  predicate Answers(message: Object, seqNo: int) {
    && Get(message, "type", JNull) == JStr("response")
    && var r := Get(message, "request_seq", JNull);
       Hashable(r) && IntKey(r) == Some(seqNo)
  }

  /**
   * What the client promises between steps: sequence numbers start at 1 and
   * only grow; every pending or sent seq was allocated; the requests were
   * sent in increasing seq order; a stored response answers a pending
   * request whose event is set.
   */
  ghost predicate ValidState(s: State) {
    && s.sequenceNumber >= 1
    && (forall k :: k in s.pending ==> 1 <= k < s.sequenceNumber)
    && (forall i :: 0 <= i < |s.sent| ==> 1 <= s.sent[i].seqNo < s.sequenceNumber)
    && (forall i, j :: 0 <= i < j < |s.sent| ==> s.sent[i].seqNo < s.sent[j].seqNo)
    && (forall k :: k in s.responses ==> k in s.pending && s.pending[k] && Answers(s.responses[k], k))
  }

  lemma InitialValid()
    ensures ValidState(Initial)
  {
  }

  // ---------------------------------------------------------------------------
  // _handle_message
  // ---------------------------------------------------------------------------

  /**
   * `_handle_message`: a response whose `request_seq` is pending is stored
   * and its event set; an event runs the callback registered for its name
   * with the message's body (`{}` if absent); anything else is ignored.
   * `None` when the handler raises: the message is not a dict, or the key
   * looked up is an unhashable list or dict.
   */
  function Handle(s: State, message: Json): Option<State> {
    match message
    case JObj(m) =>
      var kind := Get(m, "type", JNull);
      if kind == JStr("response") then
        var r := Get(m, "request_seq", JNull);
        if !Hashable(r) then None
        else if IntKey(r).Some? && IntKey(r).value in s.pending then
          var k := IntKey(r).value;
          Some(s.(responses := s.responses[k := m], pending := s.pending[k := true]))
        else Some(s)
      else if kind == JStr("event") then
        var e := Get(m, "event", JNull);
        if !Hashable(e) then None
        else if e.JStr? && e.s in s.callbacks then
          Some(s.(calls := s.calls + [Call(s.callbacks[e.s], Get(m, "body", Empty))]))
        else Some(s)
      else Some(s)
    case _ => None
  }

  /** What the receive side never touches: allocation, the send log, the connection, and which seqs are pending. */
  predicate Untouched(s: State, t: State) {
    && t.pending.Keys == s.pending.Keys
    && t.sequenceNumber == s.sequenceNumber
    && t.sent == s.sent
    && t.isConnected == s.isConnected
    && t.socket == s.socket
  }

  /** Storing a response that answers a pending seq keeps the client's promises. */
  lemma StoreValid(s: State, m: Object, k: int)
    requires ValidState(s) && k in s.pending && Answers(m, k)
    ensures ValidState(s.(responses := s.responses[k := m], pending := s.pending[k := true]))
  {
    var t := s.(responses := s.responses[k := m], pending := s.pending[k := true]);
    forall j | j in t.responses
      ensures j in t.pending && t.pending[j] && Answers(t.responses[j], j)
    {
      if j != k {
        assert t.responses[j] == s.responses[j];
      }
    }
  }

  /** A handled message keeps the client's promises, and leaves the sending side as it was. */
  lemma HandleValid(s: State, message: Json, t: State)
    requires ValidState(s) && Handle(s, message) == Some(t)
    ensures ValidState(t) && Untouched(s, t) && t.buffer == s.buffer
  {
    var m := message.fields;
    var r := Get(m, "request_seq", JNull);
    if Get(m, "type", JNull) == JStr("response") && IntKey(r).Some? && IntKey(r).value in s.pending {
      StoreValid(s, m, IntKey(r).value);
    }
  }

  /** A response whose `request_seq` is not pending changes nothing. */
  lemma UnmatchedResponseIgnored(s: State, m: Object)
    requires Get(m, "type", JNull) == JStr("response")
    requires var r := Get(m, "request_seq", JNull); Hashable(r) && (IntKey(r).None? || IntKey(r).value !in s.pending)
    ensures Handle(s, JObj(m)) == Some(s)
  {
  }

  /** A response for a pending seq is stored under that seq and sets its event; nothing else changes. */
  lemma MatchedResponseStored(s: State, m: Object, k: int)
    requires Answers(m, k) && k in s.pending
    ensures Handle(s, JObj(m)) == Some(s.(responses := s.responses[k := m], pending := s.pending[k := true]))
  {
  }

  /** An event runs exactly the callback registered under its name, if any, and changes nothing else. */
  lemma EventRunsItsCallback(s: State, m: Object)
    requires Get(m, "type", JNull) == JStr("event")
    requires Hashable(Get(m, "event", JNull))
    ensures var e := Get(m, "event", JNull); var t := Handle(s, JObj(m)).value;
      && Handle(s, JObj(m)).Some?
      && t.(calls := s.calls) == s
      && (if e.JStr? && e.s in s.callbacks
          then t.calls == s.calls + [Call(s.callbacks[e.s], Get(m, "body", Empty))]
          else t.calls == s.calls)
  {
  }

  // ---------------------------------------------------------------------------
  // _receive_loop
  // ---------------------------------------------------------------------------

  /** Handle one cut body; `None` when that ends the receive loop. */
  function HandleBody(s: State, body: seq<byte>, decode: seq<byte> -> Decoded): Option<State> {
    match decode(body)
    case NotText => None
    case NotJson => Some(s)
    case Message(j) => Handle(s, j)
  }

  /** Handle the cut bodies in order until one ends the receive loop. */
  function HandleAll(s: State, bodies: seq<seq<byte>>, decode: seq<byte> -> Decoded): State
    decreases |bodies|
  {
    if bodies == [] then s
    else match HandleBody(s, bodies[0], decode)
      case None => s.(receiving := false)
      case Some(t) => HandleAll(t, bodies[1..], decode)
  }

  /**
   * One pass of the outer receive loop with `data` as what `recv` returned:
   * the loop stops when the client is disconnected or has no socket, or on
   * an empty read; otherwise the data is appended to the buffer, complete
   * frames are cut and handled, and a bad header ends the loop.
   */
  function Receive(s: State, data: seq<byte>, decode: seq<byte> -> Decoded): State {
    if !s.receiving then s
    else if !s.isConnected || s.socket.None? || data == [] then s.(receiving := false)
    else
      var d := Drain(DeclaredLength, s.buffer + data);
      var t := HandleAll(s.(buffer := d.rest), d.bodies, decode);
      if d.badHeader then t.(receiving := false) else t
  }

  /** Several passes of the receive loop, one per chunk. */
  function ReceiveAll(s: State, chunks: seq<seq<byte>>, decode: seq<byte> -> Decoded): State
    decreases |chunks|
  {
    if chunks == [] then s else ReceiveAll(Receive(s, chunks[0], decode), chunks[1..], decode)
  }

  lemma {:induction false} HandleAllValid(s: State, bodies: seq<seq<byte>>, decode: seq<byte> -> Decoded)
    requires ValidState(s)
    ensures var t := HandleAll(s, bodies, decode); ValidState(t) && Untouched(s, t) && t.buffer == s.buffer
    decreases |bodies|
  {
    if bodies != [] {
      var h := HandleBody(s, bodies[0], decode);
      if h.Some? {
        if decode(bodies[0]).Message? {
          HandleValid(s, decode(bodies[0]).value, h.value);
        }
        HandleAllValid(h.value, bodies[1..], decode);
      }
    }
  }

  /** One pass of the receive loop keeps the client's promises and leaves the sending side as it was. */
  lemma ReceiveValid(s: State, data: seq<byte>, decode: seq<byte> -> Decoded)
    requires ValidState(s)
    ensures var t := Receive(s, data, decode); ValidState(t) && Untouched(s, t)
  {
    if s.receiving && s.isConnected && s.socket.Some? && data != [] {
      var d := Drain(DeclaredLength, s.buffer + data);
      HandleAllValid(s.(buffer := d.rest), d.bodies, decode);
    }
  }

  /** The receive loop keeps the client's promises, never drops a pending seq and sends nothing. */
  lemma {:induction false} ReceiveAllValid(s: State, chunks: seq<seq<byte>>, decode: seq<byte> -> Decoded)
    requires ValidState(s)
    ensures var t := ReceiveAll(s, chunks, decode); ValidState(t) && Untouched(s, t)
    decreases |chunks|
  {
    if chunks != [] {
      ReceiveValid(s, chunks[0], decode);
      ReceiveAllValid(Receive(s, chunks[0], decode), chunks[1..], decode);
    }
  }

  /** A body that is not JSON is logged and dropped, and the loop goes on; one that is not UTF-8 ends the loop. */
  lemma UndecodedBodies(s: State, b: seq<byte>, bs: seq<seq<byte>>, decode: seq<byte> -> Decoded)
    ensures decode(b).NotJson? ==> HandleAll(s, [b] + bs, decode) == HandleAll(s, bs, decode)
    ensures decode(b).NotText? ==> HandleAll(s, [b] + bs, decode) == s.(receiving := false)
  {
    assert ([b] + bs)[0] == b && ([b] + bs)[1..] == bs;
  }

  /** An empty read, a missing connection or a bad header ends the receive loop. */
  lemma ReceiveStops(s: State, data: seq<byte>, decode: seq<byte> -> Decoded)
    requires data == [] || !s.isConnected || s.socket.None? || Drain(DeclaredLength, s.buffer + data).badHeader
    ensures !Receive(s, data, decode).receiving
  {
  }

  /** Once the receive loop has ended, further chunks are never read. */
  lemma {:induction false} StoppedReceivesNothing(s: State, chunks: seq<seq<byte>>, decode: seq<byte> -> Decoded)
    requires !s.receiving
    ensures ReceiveAll(s, chunks, decode) == s
    decreases |chunks|
  {
    if chunks != [] {
      StoppedReceivesNothing(Receive(s, chunks[0], decode), chunks[1..], decode);
    }
  }

  /** Handling one message does not depend on the buffer, and never touches it, `receiving` or the connection. */
  lemma HandleFrame(s: State, message: Json, buffer: seq<byte>)
    ensures var h := Handle(s, message);
      && Handle(s.(buffer := buffer), message) == (if h.Some? then Some(h.value.(buffer := buffer)) else None)
      && (h.Some? ==> Untouched(s, h.value) && h.value.buffer == s.buffer && h.value.receiving == s.receiving)
  {
    if message.JObj? {
      var m := message.fields;
      if Get(m, "type", JNull) == JStr("response") {
        var r := Get(m, "request_seq", JNull);
        if Hashable(r) && IntKey(r).Some? && IntKey(r).value in s.pending {
          var k := IntKey(r).value;
          assert Handle(s, message) == Some(s.(responses := s.responses[k := m], pending := s.pending[k := true]));
        }
      } else if Get(m, "type", JNull) == JStr("event") {
        var e := Get(m, "event", JNull);
        if Hashable(e) && e.JStr? && e.s in s.callbacks {
          assert Handle(s, message) == Some(s.(calls := s.calls + [Call(s.callbacks[e.s], Get(m, "body", Empty))]));
        }
      }
    }
  }

  /** Handling one body never touches the buffer, `receiving` or the connection. */
  lemma HandleBodyFrame(s: State, body: seq<byte>, decode: seq<byte> -> Decoded, buffer: seq<byte>)
    ensures var h := HandleBody(s, body, decode);
      && HandleBody(s.(buffer := buffer), body, decode) == (if h.Some? then Some(h.value.(buffer := buffer)) else None)
      && (h.Some? ==> Untouched(s, h.value) && h.value.buffer == s.buffer && h.value.receiving == s.receiving)
  {
    if decode(body).Message? {
      HandleFrame(s, decode(body).value, buffer);
    }
  }

  /** Handling bodies never touches the buffer or the connection, and only a body that ends the loop clears `receiving`. */
  lemma {:induction false} HandleAllFrame(s: State, bodies: seq<seq<byte>>, decode: seq<byte> -> Decoded, buffer: seq<byte>)
    ensures var t := HandleAll(s, bodies, decode);
      && HandleAll(s.(buffer := buffer), bodies, decode) == t.(buffer := buffer)
      && Untouched(s, t) && t.buffer == s.buffer && (t.receiving ==> s.receiving)
    decreases |bodies|
  {
    if bodies != [] {
      HandleBodyFrame(s, bodies[0], decode, buffer);
      var h := HandleBody(s, bodies[0], decode);
      if h.Some? {
        HandleAllFrame(h.value, bodies[1..], decode, buffer);
      }
    }
  }

  /** Handling two runs of bodies is handling the first, then the second if the loop still runs. */
  lemma {:induction false} HandleAllAppend(s: State, b1: seq<seq<byte>>, b2: seq<seq<byte>>, decode: seq<byte> -> Decoded)
    requires s.receiving
    ensures var u := HandleAll(s, b1, decode);
      HandleAll(s, b1 + b2, decode) == if u.receiving then HandleAll(u, b2, decode) else u
    decreases |b1|
  {
    if b1 == [] {
      assert b1 + b2 == b2;
    } else {
      assert (b1 + b2)[0] == b1[0] && (b1 + b2)[1..] == b1[1..] + b2;
      var h := HandleBody(s, b1[0], decode);
      if h.Some? {
        assert h.value.receiving == s.receiving;
        HandleAllAppend(h.value, b1[1..], b2, decode);
      }
    }
  }

  /**
   * The client's receive loop decodes what `Feed` decodes: over chunks read
   * on a live connection, it handles exactly `Feed`'s bodies in order until
   * one of them ends the loop, stops on a bad header, and, while it still
   * runs, keeps `Feed`'s leftover as its buffer.
   */
  lemma {:induction false} ReceiveAllFeeds(s: State, chunks: seq<seq<byte>>, decode: seq<byte> -> Decoded)
    requires s.receiving && s.isConnected && s.socket.Some?
    requires forall i :: 0 <= i < |chunks| ==> chunks[i] != []
    ensures var f := Feed(DeclaredLength, s.buffer, chunks);
      var t := HandleAll(s.(buffer := f.rest), f.bodies, decode);
      var r := ReceiveAll(s, chunks, decode);
      && r.(buffer := f.rest) == (if f.badHeader then t.(receiving := false) else t)
      && (r.receiving ==> r.buffer == f.rest)
    decreases |chunks|
  {
    var f := Feed(DeclaredLength, s.buffer, chunks);
    if chunks == [] {
      assert HandleAll(s.(buffer := f.rest), f.bodies, decode) == s;
    } else {
      var d := Drain(DeclaredLength, s.buffer + chunks[0]);
      var t1 := HandleAll(s.(buffer := d.rest), d.bodies, decode);
      var s1 := Receive(s, chunks[0], decode);
      assert s1 == if d.badHeader then t1.(receiving := false) else t1;
      HandleAllFrame(s.(buffer := d.rest), d.bodies, decode, f.rest);
      if d.badHeader {
        StoppedReceivesNothing(s1, chunks[1..], decode);
      } else {
        var g := Feed(DeclaredLength, d.rest, chunks[1..]);
        assert f == Drained(d.bodies + g.bodies, g.rest, g.badHeader);
        HandleAllAppend(s.(buffer := f.rest), d.bodies, g.bodies, decode);
        if t1.receiving {
          ReceiveAllFeeds(t1, chunks[1..], decode);
        } else {
          StoppedReceivesNothing(t1, chunks[1..], decode);
        }
      }
    }
  }

  // ---------------------------------------------------------------------------
  // _send_request
  // ---------------------------------------------------------------------------

  /** The client after a request, and the response the request returned (`None` for Python's `None`). */
  datatype Reply = Reply(state: State, response: Option<Object>)

  /**
   * `_send_request`: nothing happens unless the client is connected and has a
   * socket. Otherwise the request takes the current sequence number, which is
   * pending until the request returns; it returns the stored response if the
   * receive loop set its event during the wait, and `None` when `send` raises
   * or the wait times out.
   */
  function Send(s: State, command: string, arguments: Object, x: Exchange, decode: seq<byte> -> Decoded): Reply {
    if !s.isConnected || s.socket.None? then Reply(s, None)
    else
      var n := s.sequenceNumber;
      if x.sendFails then Reply(Abandon(s), None)
      else Finish(ReceiveAll(Begin(s, command, arguments), x.arrivals, decode), n)
  }

  /** Seq allocation, the pending entry and the logged request of a request whose `send` returned. */
  function Begin(s: State, command: string, arguments: Object): State {
    var n := s.sequenceNumber;
    s.(sequenceNumber := n + 1, pending := s.pending[n := false], sent := s.sent + [Request(n, command, arguments)])
  }

  /** A request whose `send` raised: its seq is consumed and its pending entry removed again. */
  function Abandon(s: State): State {
    var n := s.sequenceNumber;
    s.(sequenceNumber := n + 1, pending := s.pending[n := false] - {n})
  }

  /** The end of the wait for `n`: pop the response if the event was set, then drop the pending entry. */
  function Finish(s: State, n: int): Reply {
    if n in s.pending && s.pending[n] then
      Reply(s.(responses := s.responses - {n}, pending := s.pending - {n}),
            if n in s.responses then Some(s.responses[n]) else None)
    else Reply(s.(pending := s.pending - {n}), None)
  }

  /** Registering the current seq as pending and logging its request keeps the client's promises. */
  lemma BeginValid(s: State, command: string, arguments: Object)
    requires ValidState(s)
    ensures var t := Begin(s, command, arguments);
      && ValidState(t)
      && t.pending.Keys == s.pending.Keys + {s.sequenceNumber}
      && s.sequenceNumber !in s.pending
  {
    var n := s.sequenceNumber;
    var t := Begin(s, command, arguments);
    assert n !in s.responses;
    forall k | k in t.responses
      ensures k in t.pending && t.pending[k] && Answers(t.responses[k], k)
    {
      assert k in s.pending && k != n;
    }
  }

  /** An abandoned request consumes its seq and nothing else. */
  lemma AbandonValid(s: State)
    requires ValidState(s)
    ensures var t := Abandon(s);
      ValidState(t) && t.pending == s.pending && t.sent == s.sent && t.sequenceNumber == s.sequenceNumber + 1
  {
    assert s.sequenceNumber !in s.pending;
  }

  /** Ending the wait keeps the client's promises, and what it returns answers `n`. */
  lemma FinishValid(s: State, n: int)
    requires ValidState(s) && n in s.pending
    ensures var r := Finish(s, n);
      && ValidState(r.state)
      && r.state.pending.Keys == s.pending.Keys - {n}
      && r.state.sent == s.sent && r.state.sequenceNumber == s.sequenceNumber
      && (r.response.Some? ==> Answers(r.response.value, n))
  {
    if !s.pending[n] {
      assert n !in s.responses;
    }
  }

  /**
   * The pending lifecycle and seq allocation of a request: every request
   * keeps the client's promises and leaves the pending set as it found it;
   * a disconnected client consumes no seq and sends nothing; a connected one
   * consumes exactly the current seq and sends one request under it unless
   * `send` raises; and a returned response answers that seq.
   */
  lemma SendValid(s: State, command: string, arguments: Object, x: Exchange, decode: seq<byte> -> Decoded)
    requires ValidState(s)
    ensures var r := Send(s, command, arguments, x, decode);
      && ValidState(r.state)
      && r.state.pending.Keys == s.pending.Keys
      && r.state.isConnected == s.isConnected && r.state.socket == s.socket
      && (if !s.isConnected || s.socket.None? then r.state == s
          else
            && r.state.sequenceNumber == s.sequenceNumber + 1
            && r.state.sent == s.sent + (if x.sendFails then [] else [Request(s.sequenceNumber, command, arguments)]))
      && (r.response.Some? ==> Answers(r.response.value, s.sequenceNumber))
  {
    if s.isConnected && s.socket.Some? {
      if x.sendFails {
        AbandonValid(s);
      } else {
        var n := s.sequenceNumber;
        var b := Begin(s, command, arguments);
        BeginValid(s, command, arguments);
        ReceiveAllValid(b, x.arrivals, decode);
        var s2 := ReceiveAll(b, x.arrivals, decode);
        assert Send(s, command, arguments, x, decode) == Finish(s2, n);
        FinishValid(s2, n);
        assert (s.pending.Keys + {n}) - {n} == s.pending.Keys;
      }
    }
  }

  // ---------------------------------------------------------------------------
  // connect / disconnect / on_event
  // ---------------------------------------------------------------------------

  /** What `connect` returns, reduced to its truthiness, and the client after it. */
  datatype Outcome = Outcome(state: State, ok: bool)

  /** `response and response.get("success", default)`, as a truth value. */
  predicate Succeeded(response: Option<Object>, default: Json) {
    response.Some? && Truthy(JObj(response.value)) && Truthy(Get(response.value, "success", default))
  }

  /** The client once the socket to `host:port` is connected and the receive loop started on an empty buffer. */
  function Opened(s: State, host: string, port: int): State {
    s.(socket := Some(Socket(host, port)), isConnected := true, receiving := true, buffer := [])
  }

  /** The `initialize` request `connect` makes on a freshly opened socket. */
  function Handshake(s: State, host: string, port: int, init: Exchange, decode: seq<byte> -> Decoded): Reply {
    Send(Opened(s, host, port), "initialize", InitializeArguments, init, decode)
  }

  /**
   * `connect`: the new socket replaces the old one even when connecting
   * fails (`reachable` false), which clears `is_connected`; otherwise
   * `initialize` is sent, and `configurationDone` only after a successful
   * `initialize` response.
   */
  function Connecting(s: State, host: string, port: int, reachable: bool, init: Exchange, config: Exchange,
                   decode: seq<byte> -> Decoded): Outcome {
    if !reachable then Outcome(s.(socket := Some(Socket(host, port)), isConnected := false), false)
    else
      var r := Handshake(s, host, port, init, decode);
      if Succeeded(r.response, JNull) then
        var c := Send(r.state, "configurationDone", map[], config, decode);
        Outcome(c.state, Succeeded(c.response, JBool(true)))
      else Outcome(r.state, false)
  }

  /** `initialize` goes out under the current seq on the opened socket, which stays connected. */
  lemma HandshakeValid(s: State, host: string, port: int, init: Exchange, decode: seq<byte> -> Decoded)
    requires ValidState(s)
    ensures var r := Handshake(s, host, port, init, decode).state;
      && ValidState(r)
      && r.socket == Some(Socket(host, port)) && r.isConnected
      && r.sequenceNumber == s.sequenceNumber + 1
      && r.sent == s.sent + (if init.sendFails then [] else [Request(s.sequenceNumber, "initialize", InitializeArguments)])
    ensures init.sendFails ==> Handshake(s, host, port, init, decode).response.None?
  {
    var s1 := Opened(s, host, port);
    assert ValidState(s1);
    SendValid(s1, "initialize", InitializeArguments, init, decode);
  }

  /** `connect` keeps the client's promises; the client is connected afterwards exactly when the socket connected. */
  lemma ConnectValid(s: State, host: string, port: int, reachable: bool, init: Exchange, config: Exchange,
                     decode: seq<byte> -> Decoded)
    requires ValidState(s)
    ensures var o := Connecting(s, host, port, reachable, init, config, decode);
      && ValidState(o.state)
      && o.state.socket == Some(Socket(host, port))
      && o.state.isConnected == reachable
  {
    if reachable {
      HandshakeValid(s, host, port, init, decode);
      var r := Handshake(s, host, port, init, decode);
      if Succeeded(r.response, JNull) {
        SendValid(r.state, "configurationDone", map[], config, decode);
      }
    }
  }

  /**
   * The connect handshake: `initialize` goes out first under the current
   * seq, `configurationDone` follows under the next one only when
   * `initialize` succeeded, and `connect` succeeds only then; so a failed
   * `initialize` makes `connect` fail (while, by `ConnectValid`, the client
   * stays connected), and a refused connection sends nothing.
   */
  lemma ConnectHandshake(s: State, host: string, port: int, reachable: bool, init: Exchange, config: Exchange,
                         decode: seq<byte> -> Decoded)
    requires ValidState(s)
    ensures var o := Connecting(s, host, port, reachable, init, config, decode);
      var n := s.sequenceNumber;
      var initialized := reachable && Succeeded(Handshake(s, host, port, init, decode).response, JNull);
      && o.state.sent == s.sent
           + (if reachable && !init.sendFails then [Request(n, "initialize", InitializeArguments)] else [])
           + (if initialized && !config.sendFails then [Request(n + 1, "configurationDone", map[])] else [])
      && (o.ok ==> initialized)
  {
    var n := s.sequenceNumber;
    if !reachable {
      assert s.sent + [] + [] == s.sent;
    } else {
      HandshakeValid(s, host, port, init, decode);
      var r := Handshake(s, host, port, init, decode);
      var first := if init.sendFails then [] else [Request(n, "initialize", InitializeArguments)];
      if Succeeded(r.response, JNull) {
        ConfigurationSent(s, host, port, init, config, decode);
      } else {
        assert s.sent + first + [] == s.sent + first;
      }
    }
  }

  /** After a successful `initialize`, `configurationDone` goes out under the next seq unless its `send` raises. */
  lemma ConfigurationSent(s: State, host: string, port: int, init: Exchange, config: Exchange, decode: seq<byte> -> Decoded)
    requires ValidState(s) && Succeeded(Handshake(s, host, port, init, decode).response, JNull)
    ensures Connecting(s, host, port, true, init, config, decode).state.sent
      == s.sent + [Request(s.sequenceNumber, "initialize", InitializeArguments)]
         + (if config.sendFails then [] else [Request(s.sequenceNumber + 1, "configurationDone", map[])])
  {
    HandshakeValid(s, host, port, init, decode);
    var r := Handshake(s, host, port, init, decode);
    SendValid(r.state, "configurationDone", map[], config, decode);
  }

  /** The arguments of the `disconnect` request. */
  const DisconnectArguments: Object := map["restart" := JBool(false)]

  /**
   * `disconnect` as written: `is_connected` is cleared before the
   * `disconnect` request is made, so `_send_request` returns at once; then
   * the socket is closed and dropped, which ends the receive loop.
   */
  function DisconnectAsWritten(s: State, x: Exchange, decode: seq<byte> -> Decoded): State {
    var s1 := s.(isConnected := false);
    var s2 := if s1.socket.Some? then Send(s1, "disconnect", DisconnectArguments, x, decode).state.(socket := None) else s1;
    s2.(receiving := false)
  }

  /** As written, `disconnect` never sends the `disconnect` request, whatever the adapter would do. */
  lemma DisconnectAsWrittenSendsNothing(s: State, x: Exchange, decode: seq<byte> -> Decoded)
    requires ValidState(s) && s.isConnected && s.socket.Some? && !x.sendFails
    ensures DisconnectAsWritten(s, x, decode).sent == s.sent
    ensures Send(s, "disconnect", DisconnectArguments, x, decode).state.sent
         == s.sent + [Request(s.sequenceNumber, "disconnect", DisconnectArguments)]
  {
    SendValid(s, "disconnect", DisconnectArguments, x, decode);
  }

  /** `disconnect` as intended: the request is made while still connected, then the connection is torn down. */
  function Disconnecting(s: State, x: Exchange, decode: seq<byte> -> Decoded): State {
    var s1 := if s.socket.Some? then Send(s, "disconnect", DisconnectArguments, x, decode).state.(socket := None) else s;
    s1.(isConnected := false, receiving := false)
  }

  /**
   * Disconnecting keeps the client's promises and leaves it without a
   * socket and disconnected; a connected client whose `send` succeeds has
   * told the adapter with one `disconnect` request under the next seq.
   */
  lemma DisconnectSendsRequest(s: State, x: Exchange, decode: seq<byte> -> Decoded)
    requires ValidState(s)
    ensures var t := Disconnecting(s, x, decode);
      && ValidState(t)
      && t.socket.None? && !t.isConnected && !t.receiving
      && t.pending.Keys == s.pending.Keys
      && t.sent == s.sent + (if s.isConnected && s.socket.Some? && !x.sendFails
                             then [Request(s.sequenceNumber, "disconnect", DisconnectArguments)] else [])
  {
    if s.socket.Some? {
      SendValid(s, "disconnect", DisconnectArguments, x, decode);
    }
  }

  /** `on_event`: one callback per event name, the last registration wins. */
  function Register(s: State, name: string, callback: CallbackId): State {
    s.(callbacks := s.callbacks[name := callback])
  }

  /** After registering `callback` for `name`, an event named `name` runs that callback and no earlier one. */
  lemma LastRegistrationWins(s: State, name: string, callback: CallbackId, m: Object)
    requires Get(m, "type", JNull) == JStr("event") && Get(m, "event", JNull) == JStr(name)
    ensures var t := Register(s, name, callback);
      Handle(t, JObj(m)) == Some(t.(calls := t.calls + [Call(callback, Get(m, "body", Empty))]))
  {
  }

  // ---------------------------------------------------------------------------
  // set_breakpoints / evaluate arguments
  // ---------------------------------------------------------------------------

  /** `conditions and i < len(conditions) and conditions[i]`: the condition attached to the `i`-th line, if any. */
  function ConditionAt(conditions: Option<seq<Option<string>>>, i: nat): Option<string> {
    if conditions.Some? && i < |conditions.value| && conditions.value[i].Some? && conditions.value[i].value != ""
    then conditions.value[i] else None
  }

  /** The `setBreakpoints` entry for one line. */
  function BreakpointEntry(line: int, condition: Option<string>): Json {
    JObj(map["line" := JNum(line)] + (if condition.Some? then map["condition" := JStr(condition.value)] else map[]))
  }

  /** The `breakpoints` list of a `setBreakpoints` request. */
  function BreakpointEntries(lines: seq<int>, conditions: Option<seq<Option<string>>>): seq<Json> {
    seq(|lines|, i requires 0 <= i < |lines| => BreakpointEntry(lines[i], ConditionAt(conditions, i)))
  }

  /**
   * The loop of `set_breakpoints`: one entry per line, in order, holding
   * the line, and a `condition` exactly when `conditions` is given, reaches
   * that index and holds a non-empty string there.
   */
  method BuildBreakpoints(lines: seq<int>, conditions: Option<seq<Option<string>>>) returns (entries: seq<Json>)
    ensures entries == BreakpointEntries(lines, conditions)
    ensures |entries| == |lines|
    ensures forall i :: 0 <= i < |entries| ==>
      && entries[i].JObj?
      && entries[i].fields.Keys <= {"line", "condition"}
      && "line" in entries[i].fields && entries[i].fields["line"] == JNum(lines[i])
      && ("condition" in entries[i].fields <==>
            conditions.Some? && i < |conditions.value| && conditions.value[i].Some? && conditions.value[i].value != "")
      && ("condition" in entries[i].fields ==> entries[i].fields["condition"] == JStr(conditions.value[i].value))
  {
    entries := [];
    for i := 0 to |lines|
      invariant |entries| == i
      invariant forall j :: 0 <= j < i ==> entries[j] == BreakpointEntry(lines[j], ConditionAt(conditions, j))
    {
      var bp := map["line" := JNum(lines[i])];
      if conditions.Some? && i < |conditions.value| && conditions.value[i].Some? && conditions.value[i].value != "" {
        bp := bp["condition" := JStr(conditions.value[i].value)];
      }
      assert JObj(bp) == BreakpointEntry(lines[i], ConditionAt(conditions, i));
      entries := entries + [JObj(bp)];
    }
  }

  /** The arguments of a `setBreakpoints` request. */
  function SetBreakpointsArguments(filePath: string, entries: seq<Json>): Object {
    map["source" := JObj(map["path" := JStr(filePath)]), "breakpoints" := JArr(entries)]
  }

  /** `evaluate`'s arguments: the expression and context, and `frameId` exactly when a frame is given. */
  function EvaluateArguments(expression: string, frameId: Option<int>, context: string): (r: Object)
    ensures r.Keys == {"expression", "context"} + (if frameId.Some? then {"frameId"} else {})
    ensures r["expression"] == JStr(expression) && r["context"] == JStr(context)
    ensures frameId.Some? ==> r["frameId"] == JNum(frameId.value)
  {
    var base := map["expression" := JStr(expression), "context" := JStr(context)];
    if frameId.Some? then base["frameId" := JNum(frameId.value)] else base
  }

  // ---------------------------------------------------------------------------
  // The client object
  // ---------------------------------------------------------------------------

  /**
   * `DAPClient`. The fields are the Python object's, plus the receive loop's
   * buffer and whether that loop runs; `sent` and `calls` log what went out
   * on the socket and which callbacks ran. `decode` is how a body becomes a
   * message (UTF-8 decoding and `json.loads`).
   */
  class DapClient {
    var socket: Option<Socket>
    var sequenceNumber: int
    var pending: map<int, bool>
    var responses: map<int, Object>
    var callbacks: map<string, CallbackId>
    var isConnected: bool
    var sent: seq<Request>
    var calls: seq<Call>
    var buffer: seq<byte>
    var receiving: bool
    const decode: seq<byte> -> Decoded

    /** The client's fields as a `State`. */
    function Abs(): State
      reads this
    {
      State(socket, sequenceNumber, pending, responses, callbacks, isConnected, sent, calls, buffer, receiving)
    }

    ghost predicate Valid()
      reads this
    {
      ValidState(Abs())
    }

    constructor (decode: seq<byte> -> Decoded)
      ensures Abs() == Initial && this.decode == decode
      ensures Valid()
    {
      socket := None;
      sequenceNumber := 1;
      pending := map[];
      responses := map[];
      callbacks := map[];
      isConnected := false;
      sent := [];
      calls := [];
      buffer := [];
      receiving := false;
      this.decode := decode;
      InitialValid();
    }

    /** `_handle_message`; `ok` is false when the handler raises, and then nothing changed. */
    method HandleMessage(message: Json) returns (ok: bool)
      modifies this
      ensures ok == Handle(old(Abs()), message).Some?
      ensures Abs() == Handle(old(Abs()), message).GetOr(old(Abs()))
    {
      if !message.JObj? {
        return false;
      }
      var m := message.fields;
      var kind := Get(m, "type", JNull);
      if kind == JStr("response") {
        var r := Get(m, "request_seq", JNull);
        if !Hashable(r) {
          return false;
        }
        var k := IntKey(r);
        if k.Some? && k.value in pending {
          responses := responses[k.value := m];
          pending := pending[k.value := true];
        }
      } else if kind == JStr("event") {
        var e := Get(m, "event", JNull);
        if !Hashable(e) {
          return false;
        }
        if e.JStr? && e.s in callbacks {
          calls := calls + [Call(callbacks[e.s], Get(m, "body", Empty))];
        }
      }
      return true;
    }

    /** One pass of `_receive_loop` with `data` as what `recv` returned. */
    method ReceiveChunk(data: seq<byte>)
      modifies this
      ensures Abs() == Receive(old(Abs()), data, decode)
    {
      if !receiving {
        return;
      }
      if !isConnected || socket.None? || data == [] {
        receiving := false;
        return;
      }
      var bodies, rest, badHeader := DrainBuffer(DeclaredLength, buffer + data);
      buffer := rest;
      HandleBodies(bodies);
      if badHeader {
        receiving := false;
      }
    }

    /** The inner receive loop's handling of the cut bodies, in order, until one ends the loop. */
    method HandleBodies(bodies: seq<seq<byte>>)
      modifies this
      ensures Abs() == HandleAll(old(Abs()), bodies, decode)
    {
      var i := 0;
      while i < |bodies|
        invariant 0 <= i <= |bodies|
        invariant HandleAll(old(Abs()), bodies, decode) == HandleAll(Abs(), bodies[i..], decode)
        decreases |bodies| - i
      {
        assert bodies[i..][0] == bodies[i] && bodies[i..][1..] == bodies[i + 1..];
        var ok := true;
        match decode(bodies[i]) {
          case NotText =>
            ok := false;
          case NotJson =>
          case Message(j) =>
            ok := HandleMessage(j);
        }
        if !ok {
          receiving := false;
          return;
        }
        i := i + 1;
      }
    }

    /**
     * `_send_request`: the chunks in `x.arrivals` are read by the receive
     * loop while the request waits.
     */
    method SendRequest(command: string, arguments: Object, x: Exchange) returns (response: Option<Object>)
      modifies this
      ensures Reply(Abs(), response) == Send(old(Abs()), command, arguments, x, decode)
    {
      if !isConnected || socket.None? {
        return None;
      }
      var n := sequenceNumber;
      sequenceNumber := n + 1;
      pending := pending[n := false];
      if x.sendFails {
        pending := pending - {n};
        return None;
      }
      sent := sent + [Request(n, command, arguments)];
      ghost var start := Abs();
      for i := 0 to |x.arrivals|
        invariant ReceiveAll(start, x.arrivals, decode) == ReceiveAll(Abs(), x.arrivals[i..], decode)
      {
        ReceiveChunk(x.arrivals[i]);
      }
      if n in pending && pending[n] {
        response := if n in responses then Some(responses[n]) else None;
        responses := responses - {n};
      } else {
        response := None;
      }
      pending := pending - {n};
    }

    /**
     * `connect`: `reachable` says whether the socket connects, `init` and
     * `config` what happens during the two handshake requests; `ok` is the
     * truth value of what `connect` returns.
     */
    method Connect(host: string, port: int, reachable: bool, init: Exchange, config: Exchange) returns (ok: bool)
      modifies this
      requires Valid()
      ensures Outcome(Abs(), ok) == Connecting(old(Abs()), host, port, reachable, init, config, decode)
      ensures Valid() && isConnected == reachable
    {
      ghost var s0 := Abs();
      ConnectValid(s0, host, port, reachable, init, config, decode);
      socket := Some(Socket(host, port));
      if !reachable {
        isConnected := false;
        return false;
      }
      isConnected := true;
      receiving := true;
      buffer := [];
      assert Abs() == Opened(s0, host, port);
      var response := SendRequest("initialize", InitializeArguments, init);
      assert Reply(Abs(), response) == Handshake(s0, host, port, init, decode);
      if response.Some? && Truthy(JObj(response.value)) && Truthy(Get(response.value, "success", JNull)) {
        assert Succeeded(response, JNull);
        var configResponse := SendRequest("configurationDone", map[], config);
        return configResponse.Some? && Truthy(JObj(configResponse.value))
          && Truthy(Get(configResponse.value, "success", JBool(true)));
      }
      return false;
    }

    /** `disconnect`, with the `disconnect` request made before the client marks itself disconnected. */
    method Disconnect(x: Exchange)
      modifies this
      requires Valid()
      ensures Abs() == Disconnecting(old(Abs()), x, decode)
      ensures Valid() && !isConnected && socket.None?
    {
      DisconnectSendsRequest(Abs(), x, decode);
      if socket.Some? {
        var _ := SendRequest("disconnect", DisconnectArguments, x);
        socket := None;
      }
      isConnected := false;
      receiving := false;
    }

    /** `on_event`. */
    method OnEvent(name: string, callback: CallbackId)
      modifies this
      ensures Abs() == Register(old(Abs()), name, callback)
    {
      callbacks := callbacks[name := callback];
    }

    /** `set_breakpoints`: build the list of entries, then request `setBreakpoints` for the file. */
    method SetBreakpoints(filePath: string, lines: seq<int>, conditions: Option<seq<Option<string>>>, x: Exchange)
      returns (response: Option<Object>)
      modifies this
      ensures Reply(Abs(), response)
           == Send(old(Abs()), "setBreakpoints",
                   SetBreakpointsArguments(filePath, BreakpointEntries(lines, conditions)), x, decode)
    {
      var entries := BuildBreakpoints(lines, conditions);
      response := SendRequest("setBreakpoints", SetBreakpointsArguments(filePath, entries), x);
    }

    /** `evaluate`. */
    method Evaluate(expression: string, frameId: Option<int>, context: string, x: Exchange)
      returns (response: Option<Object>)
      modifies this
      ensures Reply(Abs(), response) == Send(old(Abs()), "evaluate", EvaluateArguments(expression, frameId, context), x, decode)
    {
      response := SendRequest("evaluate", EvaluateArguments(expression, frameId, context), x);
    }
  }
}
