# debugpy MCP server: a Dafny model of its debug-adapter clients

The debugpy MCP server exposes a Python debugger to MCP tools. It talks to
`debugpy` over the Debug Adapter Protocol. Every message in that protocol is
framed as `Content-Length: N\r\n\r\n`, followed by N bytes of JSON. This
project models the parts of the server that hold logic.

- **`Framing`** (`framing.dfy`) models the base framing that both clients use.
  - The receiver side is the buffer-cutting loop of `DAPClient._receive_loop`. `Step` cuts one frame, `Drain` cuts all complete frames, and `Feed` appends one `recv` chunk at a time until an empty read. `Dap.ReceiveAllFeeds` proves that the client's receive loop handles exactly the bodies `Feed` cuts.
  - The sender side is the encoder (`Encode`).
  - The model proves the round trip between the two and that `recv` chunking does not matter.
- **`Dap`** (`dap_client.dfy`) models the threaded `DAPClient` as a class over its fields: sequence number, pending requests, responses, event callbacks, `is_connected` and socket.
  - Each thread interleaving becomes a sequential transition.
  - `Exchange` says whether `send` raises and which chunks arrive before the 10-second wait ends.
  - Every method is proved equal to a function on the abstract `State`, and the lemmas prove that those functions keep the client's invariant.
- **`DebugpyWire`** (`debugpy_wire.dfy`) models the synchronous framing helpers of `DebugpyClient`: `_read_line`, `_read_response` and the frame `_send_request` writes.
- **`Debugpy`** (`debugpy_client.dfy`) models `DebugpyClient`, the registry of sessions, connections and breakpoints that the servers use.
  - It is a class whose methods are proved equal to functions on `Registry`.
  - The lemmas prove the registry invariant, and what each operation leaves unchanged, over those functions.
- **`Server`** (`server.dfy`) models the source window and the debugpy-port extraction of `server.py`. `stdio_server.py` repeats both verbatim and reuses them here.
- **`StdioServer`** (`stdio_server.dfy`) models the tool dispatch of `handle_call_tool`. That covers its defaults, its result dictionaries, the "Unknown tool" fallback and the catch-all `except`, over a `DebugpyClient`.
- **`Models`** models the pydantic records and their defaults.
- **Supporting modules:**
  - `Json` is a JSON value, with Python truthiness and `dict.get`.
  - `PyText` holds Python's `str.strip`, `int()`, `find` and slicing.
  - `Wrappers` holds `Option`.

The following are parameters of the model, not computed by it:

- **Sockets.** A socket is the bytes the peer will still send, plus a log of the frames written to it. `Dial` says whether `socket.connect` succeeds.
- **JSON.** `json.dumps`/`json.loads` are the two functions of a `Codec` (or a `decode` function).
- **Fresh session ids.** `uuid4` is the caller's choice of a fresh id.
- **The environment** (`Environment`): the file system, which maps each existing path to its lines or to the text of the exception reading it raises, and `psutil`'s process table.

## Model

| member | source | states |
|---|---|---|
| PyText.RStrip | debugpy_mcp_server/server.py:483 | the result is a prefix of the input, does not end in whitespace, and everything removed is whitespace |
| PyText.LStrip | debugpy_mcp_server/debugpy_client.py:367 | the result is a suffix of the input, does not start with whitespace, and everything removed is whitespace |
| PyText.StripNoSpace | debugpy_mcp_server/debugpy_client.py:367 | `strip` leaves text with no surrounding whitespace unchanged |
| PyText.StripLeadingSpace | debugpy_mcp_server/dap_client.py:205 | `strip` removes the space after the `:` of a header |
| PyText.PyInt | debugpy_mcp_server/server.py:536 | `int()` succeeds only on text that is not blank once stripped; stripped digit text reads as the number its digits spell; any result is an optional sign followed by digit text, and its value is the digits' value with that sign |
| PyText.DigitTextStartsWithDigit | debugpy_mcp_server/server.py:536 | digit text starts with a digit, so it is never read as signed |
| PyText.Decimal | debugpy_mcp_server/debugpy_client.py:345 | the decimal rendering of a length is non-empty and all digits |
| PyText.DecimalValue | debugpy_mcp_server/debugpy_client.py:345 | the digits of a rendered length have that length's value |
| PyText.DecimalRoundTrip | debugpy_mcp_server/debugpy_client.py:370 | `int(str(n)) == n` for every length n |
| PyText.FindFromSpec | debugpy_mcp_server/dap_client.py:198 | searching from k finds the first occurrence at or after k, or reports that there is none |
| PyText.FindSpec | debugpy_mcp_server/dap_client.py:198 | `find` returns the first occurrence, and none exactly when the pattern does not occur |
| PyText.FindIs | debugpy_mcp_server/dap_client.py:198 | an occurrence with no earlier one is what `find` returns |
| PyText.FindExtend | debugpy_mcp_server/dap_client.py:194-198 | appending bytes does not move the first separator already in the buffer |
| PyText.SecondField | debugpy_mcp_server/server.py:536 | `split(sep)[1]` is the text after the first separator, up to the next separator or the end |
| PyText.SliceBound | debugpy_mcp_server/dap_client.py:212-213 | a slice bound is clamped into the sequence and is unchanged when already inside it |
| PyText.Ascii | debugpy_mcp_server/dap_client.py:168 | encoding ASCII text gives one byte per character with the same code |
| PyText.Chars | debugpy_mcp_server/debugpy_client.py:384 | each byte becomes the character with the same code |
| PyText.CharsAscii | debugpy_mcp_server/dap_client.py:199 | decoding encoded ASCII text gives the text back |
| Json.Get | debugpy_mcp_server/debugpy_client.py:401 | `dict.get` returns the entry for a present key and the default otherwise |
| Json.IntKey | debugpy_mcp_server/dap_client.py:236-237 | a number keys the pending table as itself; only numbers and booleans can match an int key |
| Json.DictElements | debugpy_mcp_server/debugpy_client.py:226 | iterating a list yields its items |
| Models.DebugSessionDefaults | debugpy_mcp_server/models.py:9-16 | a new session is disconnected, with no process id and status "disconnected" |
| Models.BreakpointDefaults | debugpy_mcp_server/models.py:19-26 | a new breakpoint is enabled, unconditional and has hit count 0 |
| Models.FrameAndVariableDefaults | debugpy_mcp_server/models.py:29-45 | a frame has no column and no source by default; a variable is not expandable by default |
| Models.ProcessAndResultDefaults | debugpy_mcp_server/models.py:56-71 | a process is not debuggable and has no port by default; an expression result is no error by default |
| Framing.KeyValue | debugpy_mcp_server/dap_client.py:204-205 | the value of a `Content-Length:` line is the text after its colon |
| Framing.DeclaresValue | debugpy_mcp_server/dap_client.py:202-206 | a one-line `Content-Length` header declares the integer its value reads as |
| Framing.NoLengthLineIsZero | debugpy_mcp_server/dap_client.py:202-206 | a header with no line starting with `Content-Length:` declares length 0 |
| Framing.FirstLengthLineDecides | debugpy_mcp_server/dap_client.py:203-206 | the first `Content-Length:` line alone decides the declared length; later lines are never read |
| Framing.HeaderEnd | debugpy_mcp_server/dap_client.py:197-198 | a found separator lies wholly inside the buffer |
| Framing.LengthAtPrefix | debugpy_mcp_server/dap_client.py:199-206 | the declared length depends only on the bytes before the separator |
| Framing.Step | debugpy_mcp_server/dap_client.py:197-223 | (corrected: a negative length is a bad header) cutting a frame always shortens the buffer |
| Framing.StepFrameIsFrame | debugpy_mcp_server/dap_client.py:208-213 | a cut is a whole frame taken from the front: header, first separator, then exactly the declared number of body bytes |
| Framing.FrameIsStep | debugpy_mcp_server/dap_client.py:208-213 | a whole frame at the front is cut, and exactly what follows it is kept |
| Framing.StepWaits | debugpy_mcp_server/dap_client.py:197-223 | without a separator, or with fewer bytes than declared, nothing is cut |
| Framing.StepExtends | debugpy_mcp_server/dap_client.py:194-213 | appending data does not change a cut already possible, or a header already bad |
| Framing.Drain | debugpy_mcp_server/dap_client.py:197-223 | draining stops only when the rest needs more data or has a bad header |
| Framing.DrainBuffer | debugpy_mcp_server/dap_client.py:197-223 | the nested extraction loop computes `Drain` |
| Framing.DrainFrame | debugpy_mcp_server/dap_client.py:197-213 | draining is the first cut body followed by the drain of the rest |
| Framing.DrainAppend | debugpy_mcp_server/dap_client.py:194-223 | draining x + y is draining x, then draining its leftover with y |
| Framing.DrainAppendBad | debugpy_mcp_server/dap_client.py:225-228 | after a bad header, later data yields no more bodies |
| Framing.FeedIsDrainOfAll | debugpy_mcp_server/dap_client.py:186-223 | the chunk-by-chunk loop, which an empty read ends, decodes what one drain of all the bytes received before that read would |
| Framing.EmptyNeedsMore | debugpy_mcp_server/dap_client.py:186 | the empty initial buffer holds no frame |
| Framing.ChunkingIndependent | debugpy_mcp_server/dap_client.py:186-223 | the decoded bodies do not depend on how the bytes received before the connection closes are split into `recv` chunks |
| Framing.LengthLineDeclares | debugpy_mcp_server/dap_client.py:167 | the header line the encoder writes declares the body length to the decoder |
| Framing.HeaderOfLine | debugpy_mcp_server/dap_client.py:198-199 | one ASCII header line before the separator is exactly the header that is read |
| Framing.EncodeThenStep | debugpy_mcp_server/dap_client.py:167 | the decoder cuts exactly the encoded body and leaves what follows |
| Framing.EncodeIsFrame | debugpy_mcp_server/dap_client.py:167 | an encoded body is one whole frame |
| Framing.DrainEncodeAll | debugpy_mcp_server/dap_client.py:167 | draining a stream of encoded bodies yields exactly those bodies and no leftover |
| Framing.DapDecodesEncoded | debugpy_mcp_server/dap_client.py:166-223 | `DAPClient`'s decoder reads back every stream its encoder writes |
| Framing.StepAsWrittenAgrees | debugpy_mcp_server/dap_client.py:208-213 | the loop as written and the corrected one agree unless the declared length is negative |
| Framing.NegativeLengthStalls | debugpy_mcp_server/dap_client.py:208-213 | as written, `Content-Length: -100` "cuts" an empty body and leaves the buffer unchanged |
| Framing.NegativeLengthRejected | debugpy_mcp_server/dap_client.py:208-213 | corrected, a negative length is a bad header |
| Dap.InitialValid | debugpy_mcp_server/dap_client.py:19-27 | a new client starts at seq 1 with nothing pending and satisfies the invariant |
| Dap.StoreValid | debugpy_mcp_server/dap_client.py:236-239 | storing a response for a pending seq keeps the invariant |
| Dap.HandleValid | debugpy_mcp_server/dap_client.py:230-249 | handling a message keeps the invariant and never allocates, sends or drops a pending seq |
| Dap.UnmatchedResponseIgnored | debugpy_mcp_server/dap_client.py:234-239 | a response whose `request_seq` is not pending changes nothing |
| Dap.MatchedResponseStored | debugpy_mcp_server/dap_client.py:234-239 | a response to a pending seq is stored and its event set |
| Dap.EventRunsItsCallback | debugpy_mcp_server/dap_client.py:241-245 | an event runs exactly the callback registered under its name, with its body or `{}`, and changes nothing else |
| Dap.HandleAllValid | debugpy_mcp_server/dap_client.py:214-220 | handling cut bodies keeps the invariant and the sending side |
| Dap.ReceiveValid | debugpy_mcp_server/dap_client.py:186-228 | one pass of the receive loop keeps the invariant and the sending side |
| Dap.ReceiveAllValid | debugpy_mcp_server/dap_client.py:186-228 | the receive loop never drops a pending seq and sends nothing |
| Dap.UndecodedBodies | debugpy_mcp_server/dap_client.py:211-220 | a body that is not JSON is dropped and the loop goes on with the next; one that is not UTF-8 ends the loop |
| Dap.ReceiveStops | debugpy_mcp_server/dap_client.py:188-192 | an empty read, a disconnected client or a bad header ends the receive loop |
| Dap.StoppedReceivesNothing | debugpy_mcp_server/dap_client.py:188 | once the loop has ended, no further chunk is read and nothing changes |
| Dap.HandleAllFrame | debugpy_mcp_server/dap_client.py:214-220 | handling bodies leaves the buffer and the connection alone and only a body that ends the loop clears it |
| Dap.HandleAllAppend | debugpy_mcp_server/dap_client.py:197-220 | handling two runs of bodies is handling the first, then the second while the loop runs |
| Dap.ReceiveAllFeeds | debugpy_mcp_server/dap_client.py:186-228 | on a live connection, the receive loop handles exactly the bodies `Framing.Feed` cuts, in order, until one ends the loop; stops on a bad header; keeps `Feed`'s leftover as its buffer while it runs |
| Dap.BeginValid | debugpy_mcp_server/dap_client.py:149-162 | a request takes a seq not yet pending and registers exactly it |
| Dap.AbandonValid | debugpy_mcp_server/dap_client.py:178-182 | a failed send consumes its seq and leaves the pending set as it was |
| Dap.FinishValid | debugpy_mcp_server/dap_client.py:171-182 | the wait removes exactly its seq from pending; a returned response answers that seq |
| Dap.SendValid | debugpy_mcp_server/dap_client.py:144-182 | disconnected: nothing happens; otherwise exactly one seq is consumed, the request is logged unless `send` raised, pending is restored, and any response answers that seq |
| Dap.HandshakeValid | debugpy_mcp_server/dap_client.py:32-56 | `initialize` goes out under the current seq on the new, connected socket |
| Dap.ConnectValid | debugpy_mcp_server/dap_client.py:29-68 | `connect` keeps the invariant, records the new socket, and is connected exactly when the socket connected |
| Dap.ConnectHandshake | debugpy_mcp_server/dap_client.py:58-63 | `configurationDone` is sent only after a successful `initialize`, under the next seq; success requires `initialize` to succeed |
| Dap.ConfigurationSent | debugpy_mcp_server/dap_client.py:58-61 | after a successful `initialize`, `configurationDone` is logged under the next seq unless its `send` raises |
| Dap.DisconnectAsWrittenSendsNothing | debugpy_mcp_server/dap_client.py:70-81 | as written, no `disconnect` request is sent, although a connected client would send one |
| Dap.DisconnectSendsRequest | debugpy_mcp_server/dap_client.py:70-84 | corrected, a connected client sends `disconnect` under its current seq, then drops the socket and stops receiving |
| Dap.LastRegistrationWins | debugpy_mcp_server/dap_client.py:251-253 | after `on_event`, an event of that name runs the last callback registered |
| Dap.BuildBreakpoints | debugpy_mcp_server/dap_client.py:89-94 | one entry per line, in order; `condition` is present exactly when a non-empty condition is given at that index |
| Dap.EvaluateArguments | debugpy_mcp_server/dap_client.py:132-137 | `frameId` is present exactly when a frame id is given |
| Dap.DapClient.constructor | debugpy_mcp_server/dap_client.py:19-27 | the fields start as the initial state |
| Dap.DapClient.HandleMessage | debugpy_mcp_server/dap_client.py:230-249 | the fields become `Handle` of the old state |
| Dap.DapClient.ReceiveChunk | debugpy_mcp_server/dap_client.py:188-228 | one pass of the receive loop |
| Dap.DapClient.HandleBodies | debugpy_mcp_server/dap_client.py:214-220 | handles the cut bodies in order |
| Dap.DapClient.SendRequest | debugpy_mcp_server/dap_client.py:144-182 | computes `Send` on the fields |
| Dap.DapClient.Connect | debugpy_mcp_server/dap_client.py:29-68 | computes `Connecting`; connected exactly when the socket connected |
| Dap.DapClient.Disconnect | debugpy_mcp_server/dap_client.py:70-84 | computes the corrected `Disconnecting`; afterwards not connected and no socket |
| Dap.DapClient.OnEvent | debugpy_mcp_server/dap_client.py:251-253 | registers the callback under the name |
| Dap.DapClient.SetBreakpoints | debugpy_mcp_server/dap_client.py:86-99 | sends `setBreakpoints` with the built entries |
| Dap.DapClient.Evaluate | debugpy_mcp_server/dap_client.py:129-138 | sends `evaluate` with the built arguments |
| DebugpyWire.Line | debugpy_mcp_server/debugpy_client.py:380-389 | reading a line consumes input, strictly when a line is returned |
| DebugpyWire.LineAt | debugpy_mcp_server/debugpy_client.py:380-389 | the line is the characters before the first `\n` with every `\r` removed, and reading resumes after that `\n` |
| DebugpyWire.LineFound | debugpy_mcp_server/debugpy_client.py:380-389 | a line is returned only when the input holds a `\n` |
| DebugpyWire.ReadLine | debugpy_mcp_server/debugpy_client.py:380-389 | the byte-at-a-time loop computes `Line` |
| DebugpyWire.ReadLineAsWrittenSpins | debugpy_mcp_server/debugpy_client.py:383-388 | as written, once the bytes run out without a `\n` the loop never ends, for any amount of fuel |
| DebugpyWire.LineRunsOut | debugpy_mcp_server/debugpy_client.py:380-389 | corrected, running out of bytes without a `\n` raises and consumes everything |
| DebugpyWire.ReadResponse | debugpy_mcp_server/debugpy_client.py:355-378 | the header loop and body read compute `Response` |
| DebugpyWire.ReadContent | debugpy_mcp_server/debugpy_client.py:369-373 | the body read computes `Content` |
| DebugpyWire.HeaderFieldSplitsAtFirstColon | debugpy_mcp_server/debugpy_client.py:365-367 | a header line splits at its first `:` and both parts are stripped |
| DebugpyWire.HeaderFieldNeedsColon | debugpy_mcp_server/debugpy_client.py:365 | a line without `:` is skipped |
| DebugpyWire.FirstLine | debugpy_mcp_server/debugpy_client.py:361 | the encoded length line reads back as itself |
| DebugpyWire.LengthField | debugpy_mcp_server/debugpy_client.py:366-367 | the encoded length line is the field `Content-Length` with the decimal length |
| DebugpyWire.BlankLine | debugpy_mcp_server/debugpy_client.py:362-363 | `\r\n` reads as the empty line that ends the headers |
| DebugpyWire.EncodedHeaders | debugpy_mcp_server/debugpy_client.py:359-367 | the headers of an encoded frame are exactly its `Content-Length` |
| DebugpyWire.ResponseReadsEncoded | debugpy_mcp_server/debugpy_client.py:355-373 | reading an encoded frame parses exactly its body (none when empty) and leaves what follows |
| DebugpyWire.NoLengthNoResponse | debugpy_mcp_server/debugpy_client.py:370-371 | a missing or zero `Content-Length` gives no response and reads no body |
| DebugpyWire.RequestFrameReadsBack | debugpy_mcp_server/debugpy_client.py:341-345 | the frame `_send_request` writes is read back as its serialised request by both decoders |
| Debugpy.RequestFrames | debugpy_mcp_server/debugpy_client.py:323-353 | without a socket: no seq consumed, no response; with one: exactly one seq consumed, one frame appended that decodes to the request, and the response read from the socket |
| Debugpy.NextId | debugpy_mcp_server/debugpy_client.py:117 | the corrected new id is positive and above every id in the list |
| Debugpy.AppendNextKeepsUnique | debugpy_mcp_server/debugpy_client.py:117 | appending a breakpoint with the corrected id keeps ids unique |
| Debugpy.IdsRepeatAsWritten | debugpy_mcp_server/debugpy_client.py:117 | as written, after clearing breakpoint 1 of [1, 2] the next id is 2 again |
| Debugpy.FindId | debugpy_mcp_server/debugpy_client.py:151-152 | the first index whose id matches, or none when no id matches |
| Debugpy.WithoutKeepsUnique | debugpy_mcp_server/debugpy_client.py:160 | `pop(i)` removes exactly entry i, keeps the others in order and keeps ids unique |
| Debugpy.FileEntriesCount | debugpy_mcp_server/debugpy_client.py:155-158 | the corrected request for a file lists one entry per breakpoint of that file, each of them |
| Debugpy.SetDropsSiblingsAsWritten | debugpy_mcp_server/debugpy_client.py:120-126 | as written, `setBreakpoints` carries one entry while the file has one more breakpoint than before |
| Debugpy.ClearDropsSiblingsAsWritten | debugpy_mcp_server/debugpy_client.py:155-158 | as written, the clearing request carries no entry while the file keeps all its other breakpoints |
| Debugpy.SetRequestListsFile | debugpy_mcp_server/debugpy_client.py:120-126 | corrected, the request lists the file's breakpoints in order, the new one last |
| Debugpy.VariableOfMirrors | debugpy_mcp_server/debugpy_client.py:266-272 | a variable record carries the response's name, value, type (default "unknown") and scope, and is expandable exactly when `variablesReference > 0` |
| Debugpy.FetchKeepsLink | debugpy_mcp_server/debugpy_client.py:255-273 | fetching scope variables keeps the socket and never lowers the seq |
| Debugpy.FalsyScopeSkipped | debugpy_mcp_server/debugpy_client.py:257-259 | a scope with a falsy `variablesReference` sends nothing and adds nothing |
| Debugpy.FetchWithoutSocket | debugpy_mcp_server/debugpy_client.py:255-262 | without a socket, fetching changes nothing |
| Debugpy.ResumedTruthy | debugpy_mcp_server/debugpy_client.py:175 | a resume counts as successful exactly when the response's `success` is true |
| Debugpy.FrameOfMirrors | debugpy_mcp_server/debugpy_client.py:227-233 | a frame record carries the response's id, name, line and source path, and a column exactly when one is given |
| Debugpy.FrameListMirrors | debugpy_mcp_server/debugpy_client.py:226-234 | one frame per entry, in order |
| Debugpy.VariableListMirrors | debugpy_mcp_server/debugpy_client.py:265-273 | one variable per entry, in order |
| Debugpy.EvaluationCases | debugpy_mcp_server/debugpy_client.py:295-311 | no success means an error with result `""` and type `"error"`; a success has no message; an error has no message exactly when a failed response's `message` is `null`; messages "No response" and "Unknown error" as the cases demand |
| Debugpy.EvaluationSucceeds | debugpy_mcp_server/debugpy_client.py:295-302 | a successful response gives its body's result and type |
| Debugpy.FreshValid | debugpy_mcp_server/debugpy_client.py:24-29 | the empty registry satisfies the invariant |
| Debugpy.RequestedFrames | debugpy_mcp_server/debugpy_client.py:323-353 | a request touches only its own session's socket and the shared seq; without a connection it changes nothing |
| Debugpy.RequestedValid | debugpy_mcp_server/debugpy_client.py:323-353 | a request keeps the registry invariant |
| Debugpy.CreatingValid | debugpy_mcp_server/debugpy_client.py:31-45 | a new id gets a "created", unconnected session and an empty breakpoint list; everything else is kept |
| Debugpy.CreatingGrows | debugpy_mcp_server/debugpy_client.py:41 | the session list grows by one |
| Debugpy.ConnectingValid | debugpy_mcp_server/debugpy_client.py:47-86 | connecting keeps the invariant and the breakpoints; an unknown id fails and changes nothing |
| Debugpy.AcceptedValid | debugpy_mcp_server/debugpy_client.py:55-81 | a connected socket keeps the invariant, the breakpoints and the set of sessions |
| Debugpy.ConnectingOutcome | debugpy_mcp_server/debugpy_client.py:47-86 | success exactly when the socket connects: then connected, status "connected", one `initialize` seq; otherwise status "connection_failed: …" and the connections unchanged |
| Debugpy.DisconnectingValid | debugpy_mcp_server/debugpy_client.py:88-103 | success exactly for a known id: its connection is removed, it becomes "disconnected", breakpoints and seq are kept; an unknown id changes nothing |
| Debugpy.SettingValid | debugpy_mcp_server/debugpy_client.py:109-143 | unknown or unconnected session: nothing; otherwise one seq, and on success exactly one breakpoint with the file, line and condition and an id no other breakpoint has; other sessions untouched |
| Debugpy.SettingIdAsWritten | debugpy_mcp_server/debugpy_client.py:117 | as written, the new id is the list's length plus one |
| Debugpy.ClearingValid | debugpy_mcp_server/debugpy_client.py:145-167 | success exactly when the session has a breakpoint with that id; then exactly the first match is removed; otherwise nothing changes |
| Debugpy.SteppingValid | debugpy_mcp_server/debugpy_client.py:169-241 | stepping and stack traces keep the invariant; without a connection they change nothing and return falsy / empty |
| Debugpy.InspectingWithoutSocket | debugpy_mcp_server/debugpy_client.py:247-252 | without a connection, no variables and nothing changes |
| Debugpy.InspectingValid | debugpy_mcp_server/debugpy_client.py:243-279 | getting variables keeps the invariant, the sessions, the breakpoints and the connected ids |
| Debugpy.EvaluatingValid | debugpy_mcp_server/debugpy_client.py:281-311 | evaluating keeps the invariant; without a connection the result is the "No response" error |
| Debugpy.ScopeVariables | debugpy_mcp_server/debugpy_client.py:264-273 | the loop over a variables response computes `VariablesOf` |
| Debugpy.StackFrames | debugpy_mcp_server/debugpy_client.py:224-236 | the loop over a stack trace response computes `FramesOf` |
| Debugpy.DebugpyClient.constructor | debugpy_mcp_server/debugpy_client.py:24-29 | empty maps and seq 1 |
| Debugpy.DebugpyClient.CreateSession | debugpy_mcp_server/debugpy_client.py:31-45 | computes `Creating` and returns the id, and keeps the registry invariant |
| Debugpy.DebugpyClient.ConnectSession | debugpy_mcp_server/debugpy_client.py:47-86 | computes `Connecting`, and keeps the registry invariant |
| Debugpy.DebugpyClient.DisconnectSession | debugpy_mcp_server/debugpy_client.py:88-107 | computes `Disconnecting`, and keeps the registry invariant |
| Debugpy.DebugpyClient.SendRequest | debugpy_mcp_server/debugpy_client.py:323-353 | computes `Requested`, and keeps the registry invariant when it held |
| Debugpy.DebugpyClient.SetBreakpoint | debugpy_mcp_server/debugpy_client.py:109-143 | computes the corrected `Setting`, and keeps the registry invariant |
| Debugpy.DebugpyClient.ClearBreakpoint | debugpy_mcp_server/debugpy_client.py:145-167 | computes the corrected `Clearing`, and keeps the registry invariant |
| Debugpy.DebugpyClient.GetVariables | debugpy_mcp_server/debugpy_client.py:243-279 | computes `Inspecting`, and keeps the registry invariant |
| Debugpy.DebugpyClient.FetchVariables | debugpy_mcp_server/debugpy_client.py:254-273 | the loop over scopes computes `FetchScopes` on the session's channel |
| Debugpy.DebugpyClient.EvaluateExpression | debugpy_mcp_server/debugpy_client.py:281-321 | computes `Evaluating`, and keeps the registry invariant |
| Debugpy.DebugpyClient.Step | debugpy_mcp_server/debugpy_client.py:169-215 | computes `Stepping`, and keeps the registry invariant |
| Debugpy.DebugpyClient.GetStackTrace | debugpy_mcp_server/debugpy_client.py:217-241 | computes `Tracing`, and keeps the registry invariant |
| Debugpy.DebugpyClient.GetSession | debugpy_mcp_server/debugpy_client.py:391-393 | the session exactly when the id is known |
| Debugpy.DebugpyClient.ListSessions | debugpy_mcp_server/debugpy_client.py:395-397 | on a valid registry, lists every session and nothing else, with no session twice and as many entries as sessions |
| Debugpy.DebugpyClient.ListBreakpoints | debugpy_mcp_server/debugpy_client.py:399-401 | the session's list, empty for an unknown id |
| Server.SourceWindow | debugpy_mcp_server/server.py:476-485 | the append loop computes `Window` |
| Server.WindowLines | debugpy_mcp_server/server.py:476-483 | every emitted line number is in [1, total], they are consecutive from start + 1, and each content is the right-stripped line |
| Server.WindowSize | debugpy_mcp_server/server.py:476-480 | the count is max(0, end - start), at most 2 * ctx + 1 when ctx >= 0 |
| Server.WindowTarget | debugpy_mcp_server/server.py:484 | `is_target` exactly on the requested line; no entry marked when it is outside the file; exactly one when inside |
| Server.GetSourceCode | debugpy_mcp_server/server.py:466-500 | computes `SourceCode`, including the `except` for a file that cannot be read |
| Server.SourceCodeCases | debugpy_mcp_server/server.py:466-500 | the call fails exactly for a missing file, with "File not found: path", or for an unreadable one, with the exception's text; otherwise it gives the file's path, target line, total lines and in-range line numbers |
| Server.Lower | debugpy_mcp_server/server.py:521 | `lower()` maps exactly the letters A-Z to a-z |
| Server.ListenIndex | debugpy_mcp_server/server.py:532 | `cmdline.index('--listen')`: the first exact match, or none |
| Server.PortOf | debugpy_mcp_server/server.py:535-536 | a port is only read from an address holding `:` |
| Server.PortConditions | debugpy_mcp_server/server.py:526-538 | a port is found exactly when the command mentions `debugpy` and `--listen`, `--listen` is an element followed by an argument, and that argument yields the port |
| Server.PortImpliesDebuggable | debugpy_mcp_server/server.py:526-536 | a process with a port is debuggable |
| Server.Debuggable | debugpy_mcp_server/server.py:557 | exactly the debuggable processes, no longer than the list |
| Server.DebuggableCounts | debugpy_mcp_server/server.py:557 | each debuggable process is counted as often as the list holds it, and no other process is counted |
| Server.ReportCounts | debugpy_mcp_server/server.py:517-558 | `total_count` is the number of processes, at most the table's; `debuggable_count <= total_count`; each process describes a python entry of the table |
| Server.CollectedAppend | debugpy_mcp_server/server.py:519-555 | the table is read entry by entry: two tables back to back list the first's processes, then the second's |
| Server.CollectedAt | debugpy_mcp_server/server.py:519-555 | entry i adds its own description once, after those of earlier entries and before those of later ones, so every readable Python process is listed, in table order |
| Server.ListDebuggableProcesses | debugpy_mcp_server/server.py:517-558 | the loop over the process table computes `Report` |
| StdioServer.NameSelects | debugpy_mcp_server/stdio_server.py:236-426 | every tool's name selects that tool |
| StdioServer.RunAnswersOnce | debugpy_mcp_server/stdio_server.py:235-472 | every tool answers with one result carrying `success` |
| StdioServer.CallingAnswersOnce | debugpy_mcp_server/stdio_server.py:233-476 | one result with `success`; an unknown name gives "Unknown tool: name" and changes nothing; a tool's name runs that tool |
| StdioServer.MissingSessionId | debugpy_mcp_server/stdio_server.py:474-476 | a missing `session_id` gives the error "'session_id'" and changes nothing |
| StdioServer.StartDefaults | debugpy_mcp_server/stdio_server.py:237-247 | host "localhost" and port 5678 by default; the new session id is returned |
| StdioServer.StartSucceedsWhenConnected | debugpy_mcp_server/stdio_server.py:241-250 | `success` is whether the socket connected |
| StdioServer.InspectDefaults | debugpy_mcp_server/stdio_server.py:368-378 | `frame_id` defaults to 0 and is passed on |
| StdioServer.SourceUnreadable | debugpy_mcp_server/stdio_server.py:391-424 | a file that exists but cannot be read answers with the exception's text and leaves the registry alone |
| StdioServer.SourceDefaults | debugpy_mcp_server/stdio_server.py:391-424 | `context_lines` defaults to 5 and the source is the window of 5 lines |
| StdioServer.EvaluateSuccess | debugpy_mcp_server/stdio_server.py:380-389 | `success` is the negation of `is_error`, unless the arguments are rejected |
| StdioServer.ProcessCounts | debugpy_mcp_server/stdio_server.py:462-467 | `0 <= debuggable_count <= total_count <= ` the table's size |
| StdioServer.RunValid | debugpy_mcp_server/stdio_server.py:235-470 | every tool keeps the registry invariant |
| StdioServer.CallingValid | debugpy_mcp_server/stdio_server.py:233-476 | every call keeps the registry invariant |
| StdioServer.HandleStart | debugpy_mcp_server/stdio_server.py:236-250 | computes `StartCall` on the client |
| StdioServer.HandleStop | debugpy_mcp_server/stdio_server.py:252-259 | computes `StopCall` |
| StdioServer.HandleSessions | debugpy_mcp_server/stdio_server.py:261-267 | computes `SessionsCall` |
| StdioServer.HandleStatus | debugpy_mcp_server/stdio_server.py:269-282 | computes `StatusCall` |
| StdioServer.HandleSet | debugpy_mcp_server/stdio_server.py:284-301 | computes `SetCall` |
| StdioServer.HandleClear | debugpy_mcp_server/stdio_server.py:303-310 | computes `ClearCall` |
| StdioServer.HandleBreakpoints | debugpy_mcp_server/stdio_server.py:312-320 | computes `BreakpointsCall` |
| StdioServer.HandleResume | debugpy_mcp_server/stdio_server.py:322-356 | computes `ResumeCall` for continue and the three steps |
| StdioServer.HandleStack | debugpy_mcp_server/stdio_server.py:358-366 | computes `StackCall` |
| StdioServer.HandleVariables | debugpy_mcp_server/stdio_server.py:368-378 | computes `VariablesCall` |
| StdioServer.HandleEvaluate | debugpy_mcp_server/stdio_server.py:380-389 | computes `EvaluateCall` |
| StdioServer.HandleSource | debugpy_mcp_server/stdio_server.py:391-424 | computes `SourceCall` with the shared window |
| StdioServer.HandleCallTool | debugpy_mcp_server/stdio_server.py:233-476 | computes `Calling` on the client, and keeps its registry invariant |

## Left out

- Sockets, `settimeout`, `close` and the 30-second timeouts are not modelled. A socket is the bytes the peer will still send plus a log of written frames. Exceptions from `close()` (debugpy_client.py:105-107) are not modelled.
- Debugpy.Request: `sock.send` raising (debugpy_client.py:345, 351-353) is not modelled; the frame is always written. In the source that path consumes the seq, writes nothing and returns `None`.
- Threads are reduced to sequential transitions: the receive thread, `threading.Event.wait(timeout=10)`, the lock and `join`. The race where a response lands between the timeout and the `finally` pop is not modelled.
- Logging is not modelled.
- PyText.PyInt: only the ASCII digits 0-9 are read. Python's `int()` also accepts other Unicode decimal digits, such as the fullwidth `５６７８` in a `--listen` argument (server.py:536); the model reads no number there.
- Json: there are no floating-point numbers; every JSON number is an integer. `json.loads` yields a float for `1.0`, and `"request_seq": 1.0` would still match pending seq 1 (dap_client.py:237), since `1.0 == 1` in Python.
- JSON serialisation and parsing are parameters (`Codec`, `decode`), as are `format_response` and the text it produces. Result dictionaries hold records where the source calls `model_dump`.
- StdioServer.Calling: tool arguments are typed. An argument of a JSON type the tool does not take (a session id that is not a string, a line or frame id that is not a number) ends the call with the modelled error "unsupported value for key". The source does not check types. Such a call often goes through: a non-string session id is looked up, is not found, and answers as for an unknown session (`stop_debug_session` or `list_breakpoints` with `"session_id": 5`); `inspect_variables` with `"frame_id": "a"` sends it to the adapter and answers success with no variables. Where the source does raise, the text is pydantic's or Python's. Pydantic validation and coercion are not modelled.
- StdioServer.SetCall and StdioServer.ClearCall: they run the corrected `set_breakpoint` and `clear_breakpoint`, not the code as written (debugpy_client.py:117, 120-126 and 155-158). The ids they hand out are above every id in the list, and the request lists the file's remaining breakpoints. The as-written behaviour is the `AsWritten` variant of `Debugpy.Setting` and `Debugpy.Clearing`, shown by the findings below.
- StdioServer.ClearCall: a non-integer `breakpoint_id` is rejected as an argument error, where the source would find no match and answer "Failed to clear breakpoint".
- StdioServer.StartCall: the `timeout` argument (stdio_server.py:239) is not read, because `create_session` ignores it.
- StdioServer.SessionsCall: sessions are dumped as a set, so the order `list_sessions` gives is not modelled.
- Debugpy.DebugpyClient.ListSessions: states that every session appears exactly once, not the dict's insertion order.
- Debugpy.FrameOfMirrors, Debugpy.FrameOf: frame fields are read strictly. An `id`, `line` or `column` that is not a JSON number counts as a raised exception, so `get_stack_trace` reports no frames. Pydantic's lax mode would coerce some of them: `"id": "7"` becomes 7, and `"line": true` becomes 1. That coercion is not modelled.
- Debugpy.EvaluationOf, Debugpy.ValidationMessage: when the response body fails pydantic validation, the model's error text is one fixed message. Pydantic's `ValidationError` text has several lines, counts the failing fields and names each of them; it is not modelled.
- Framing.Step, Dap.Receive, Dap.DapClient.ReceiveChunk: they reject a negative `Content-Length` as a bad header, which ends the receive loop. The source slices with the negative end instead (dap_client.py:212-213), as the findings below show.
- Dap.Handle: event callbacks never fail. In the source a callback that raises (dap_client.py:245) escapes to the outer `except` (dap_client.py:225-228), which ends the receive loop.
- `uuid4` is the caller's choice of an id not yet in the registry. `event_handlers` is never used by the source and is left out.
- DebugpyWire.Content: `recv(n)` returns up to n of the available bytes. Shorter partial reads of a live socket are not modelled.
- Framing.LengthAt: the header is decoded one byte to one character, so only ASCII headers are modelled. A header with multi-byte UTF-8 is misread: `Content-Length: 12` followed by a no-break space (bytes C2 A0) declares 12 in the source, because `strip()` removes the space, but is unparseable in the model. A header that is not valid UTF-8 is not modelled either.
- The `DAPClient` encoder uses `len(message)`, a character count. The model uses the byte length, which is the same because `json.dumps` escapes non-ASCII by default.
- `DAPClient.continue_execution`, `step_over`, `step_into`, `step_out`, `get_stack_trace`, `get_scopes`, `get_variables` and `get_threads` (dap_client.py:101-127, 140-142) each make one fixed `_send_request` call. `Dap.DapClient.SendRequest` covers them, so they are not modelled separately.
- Server.Lower: only ASCII letters are lowered. Python's Unicode case mapping is not modelled.
- `DebugEvent`, `SourceLocation`, `DebugCommand` and `DebugResponse` (models.py:48-53, 74-94) are not modelled, since no modelled code uses them.
- The MCP registration, tool schemas, the tool wrappers of server.py other than `get_source_code` and `list_debuggable_processes`, `main`, argparse and the stdio transport are not modelled.
- The files' contents and the process table are parameters (`Environment`). Processes that vanish during `psutil.process_iter` are left out of the table.
- `examples/`, `test_mcp_server.py` and `__init__.py` are not part of this model.

## Findings

| source | as written | input that shows it | evidently intended | confidence | as-written member | corrected member |
|---|---|---|---|---|---|---|
| debugpy_mcp_server/dap_client.py:208-213 | a negative `Content-Length` n passes the length check and the buffer is sliced with a negative end. When `header_end + 4 + n <= -len(buffer)` the buffer is left unchanged and the inner loop repeats forever. A smaller negative n cuts a wrong piece instead: with `-1` the buffer shrinks to `\n` and the loop waits for data | the 24 bytes `Content-Length: -100\r\n\r\n` | reject a negative length like a malformed one and end the loop | not executed; high | Framing.NegativeLengthStalls | Framing.NegativeLengthRejected |
| debugpy_mcp_server/debugpy_client.py:383-388 | when the peer closes before a `\n`, `recv(1)` returns `b''` forever and `_read_line` never returns | any header bytes without `\n`, then end of stream | give up when the stream ends | not executed; high | DebugpyWire.ReadLineAsWrittenSpins | DebugpyWire.LineRunsOut |
| debugpy_mcp_server/dap_client.py:70-81 | `is_connected` is cleared before `_send_request("disconnect")`, which then returns at once, so the adapter is never told | any connected client | send `disconnect`, then mark the client disconnected | not executed; high | Dap.DisconnectAsWrittenSendsNothing | Dap.DisconnectSendsRequest |
| debugpy_mcp_server/debugpy_client.py:117 | the new id is `len(list) + 1`, which repeats a surviving id after a clear | set breakpoints 1 and 2, clear 1, set another: it gets id 2 | ids unique within a session | not executed; high | Debugpy.IdsRepeatAsWritten | Debugpy.AppendNextKeepsUnique |
| debugpy_mcp_server/debugpy_client.py:120-126 | `setBreakpoints` replaces all of a file's breakpoints, but only the new one is sent, so earlier ones in the file are dropped at the adapter | two `set_breakpoint` calls on the same file | send every breakpoint of the file | not executed; medium | Debugpy.SetDropsSiblingsAsWritten | Debugpy.SetRequestListsFile |
| debugpy_mcp_server/debugpy_client.py:155-158 | clearing sends an empty list for the file, which drops its other breakpoints at the adapter while the local list keeps them | two breakpoints in one file, clear one | send the file's remaining breakpoints | not executed; medium | Debugpy.ClearDropsSiblingsAsWritten | Debugpy.FileEntriesCount |
