# stream-tags session, modelled in Dafny

The `stream-tags <path> [--timeout <seconds>]` command of the Tappy USB demo connects to a
Tappy NFC reader, sends a *stream tags* command (basic NFC family, GENERAL polling, the
given timeout, 0 meaning indefinite) and prints one line per tag the reader reports,
until the reader reports the scan timeout or something fails. All of its logic sits in
`index.js`: a connect callback, an error listener, a message listener and the helper
`closeAndQuit`. This project models that logic:

- `hex.dfy` (module `Hex`): the UID text, `tagCode.toString("hex").toUpperCase()`, with
  an independent decoder as its inverse.
- `tag_report.dfy` (module `TagReport`): the tag line, `UID: <HEX>` with
  `, Tag Description: <description>` when the tag-type lookup finds one, and a parser
  that reads it back.
- `classify.dfy` (module `Classify`): the error listener's switch, the choice of resolver
  (NFC family first, then system family) and what each resolved response leads to.
- `lifecycle.dfy` (module `Lifecycle`): the session as a transition system over callbacks
  (connect completed, transport error, message received, disconnect completed), with the
  invariants every reachable state keeps and whole-session scenarios.
- `session.dfy` (module `Session`): the class `StreamTagsSession`, whose handler methods
  mirror the listeners statement by statement and are proved to do what
  `Lifecycle.Handle` says.

The JavaScript keeps no state variable of its own. What it changes is the world, so a
session state is the trace of what the world sees (console lines, connect, send,
disconnect, exit), the disconnect continuations handed to `tappy.disconnect` that have
not yet run (each with the code it passes to `process.exit`), and the exit code once
`process.exit` has run. Once the process has exited nothing more runs. Before that,
nothing guards the listeners: an error or a message that arrives while a disconnect is
pending is handled like any other, and `closeAndQuit` can run more than once.

`NOT_CONNECTED` exits at once with code 1 and never calls disconnect (index.js:32-35).
The console texts are those of index.js ("Tappy not connected",
"Connection error", "Received invalid frame", "Received invalid packet", "Unknown error
occurred", "Unexpected response").

`session.dfy` also holds `TimeoutClient`, a usage scenario without a contract of its own
(one tag, then the scan timeout, then a late error that changes nothing); it has no row
below.

## Model

| member | source | states |
|---|---|---|
| `Hex.ToUpperCase` | index.js:71 | upper-casing keeps the length and upper-cases each character in place |
| `Hex.BufferHex` | index.js:71 | `toString("hex")` writes two lower-case hex digits per byte |
| `Hex.UidText` | index.js:71 | the printed UID is twice as long as the tag code and holds only 0-9 and A-F |
| `Hex.UidTextCons` | index.js:71 | a leading byte becomes the first two upper-case digits, high nibble first, followed by the UID of the rest |
| `Hex.UidTextAt` | index.js:71 | byte i of the tag code is written at positions 2i and 2i+1, high nibble first, with no separators |
| `Hex.DecodeUidText` | index.js:71 | decoding the printed UID gives back the tag code |
| `Hex.UidTextInjective` | index.js:71 | two tag codes with the same printed UID are equal |
| `Hex.UidTextUpperIdempotent` | index.js:71 | upper-casing the printed UID again leaves it unchanged |
| `TagReport.TagLine` | index.js:68-75 | the line starts with "UID: " and the UID text, and is exactly that long when no description was found |
| `TagReport.ParseTagLineRoundTrip` | index.js:68-75 | the printed line determines the tag code, whether a description was found, and which |
| `TagReport.DescribedTagLine` | index.js:69-72 | bytes 04 A2 FE 01 with description "MIFARE Ultralight" print "UID: 04A2FE01, Tag Description: MIFARE Ultralight" |
| `TagReport.UndescribedTagLine` | index.js:74 | the same bytes without a description print "UID: 04A2FE01" |
| `Classify.ErrorReaction` | index.js:30-49 | every error writes to stderr; only INVALID_HDLC and INVALID_TCMP let the session go on; only NOT_CONNECTED exits at once; every other kind ends with code 1; an unnamed kind is "Unknown error occurred" then disconnect |
| `Classify.ResolveMessage` | index.js:54-60 | the listener's choice of resolver; a message resolves only if one of the two families accepts it (the ordering is stated by `NfcFamilyFirst`, `SystemFamilyOnlyWhenNfcDeclines` and `UnclaimedMessageUnresolved`) |
| `Classify.NfcFamilyFirst` | index.js:56-57 | when the NFC family accepts a message, its resolution is the result and the system resolver plays no part |
| `Classify.SystemFamilyOnlyWhenNfcDeclines` | index.js:58-60 | when the NFC family declines, the result depends only on the system resolver |
| `Classify.UnclaimedMessageUnresolved` | index.js:54-60 | a message neither family accepts resolves to null |
| `Classify.ResponseReaction` | index.js:62-86 | only TagFound lets the session go on, printing its tag line with the looked-up description; exit code 0 is chosen exactly for ScanTimeout, after "Timeout reached" on stdout; anything else is "Unexpected response" then disconnect and exit 1; no response exits without disconnecting |
| `Classify.UnexpectedMessageIsFatal` | index.js:81-86 | an unresolved message, or one resolved to another type, leads to "Unexpected response", disconnect and exit 1 |
| `Lifecycle.Start` | index.js:89 | after the listeners are registered the first action is the connect call, and this state meets every session invariant |
| `Lifecycle.React` | index.js:23-28 | logging appends one line; exiting at once appends the line and the exit; `closeAndQuit` appends the line and a disconnect and queues the exit code, leaving the exit for later |
| `Lifecycle.Handle` | index.js:30-92 | a callback only appends to the trace, and changes the exit code only as the disconnect continuation or on NOT_CONNECTED |
| `Lifecycle.Step` | index.js:23-80 | once the process has exited nothing changes; otherwise the process exits only when a queued disconnect completes, with that disconnect's code, or on NOT_CONNECTED with code 1 |
| `Lifecycle.Run` | index.js:30-92 | delivering events in order only appends to the trace |
| `Lifecycle.StepConsistent` | index.js:17-92 | every callback keeps the session invariants (connect first, send only after "Tappy connected!", exit once and last, exit code 0 only after the timeout, exit only after a disconnect or NOT_CONNECTED) |
| `Lifecycle.RunConsistent` | index.js:17-92 | the invariants hold after any sequence of callbacks |
| `Lifecycle.ExitHappensOnceAndLast` | index.js:23-80 | in any session `process.exit` runs at most once, is the last action, and matches the recorded code |
| `Lifecycle.CommandSentOnlyAfterConnect` | index.js:89-92 | the stream command is sent only right after "Tappy connected!", inside the connect callback |
| `Lifecycle.RunSendsOnly` | index.js:89-92 | callbacks only ever send the session's own command |
| `Lifecycle.SentCommandIsStreamTags` | index.js:20-21 | in any session every command sent is StreamTags with the session's timeout and GENERAL polling |
| `Lifecycle.ExitZeroOnlyAfterTimeout` | index.js:76-80 | a session that exits with 0 printed "Timeout reached" and called disconnect right after |
| `Lifecycle.ExitOnlyAfterDisconnectOrNotConnected` | index.js:23-35 | every exit follows a disconnect call, except the one straight after "Tappy not connected"; the exit code is 0 or 1 |
| `Lifecycle.FramingErrorOnlyLogs` | index.js:39-44 | INVALID_HDLC and INVALID_TCMP write "Received invalid frame" or "Received invalid packet" and change nothing else |
| `Lifecycle.NotConnectedExitsAtOnce` | index.js:32-35 | NOT_CONNECTED writes "Tappy not connected" and exits with 1 without calling disconnect |
| `Lifecycle.FatalErrorDisconnectsFirst` | index.js:36-47 | CONNECTION_ERROR and unnamed kinds write their message and call disconnect; the process has not exited yet and exit code 1 waits in the queue |
| `Lifecycle.TagFoundKeepsStreaming` | index.js:63-75 | a found tag appends exactly its tag line to stdout and nothing else changes |
| `Lifecycle.ScanTimeoutDisconnects` | index.js:76-80 | the scan timeout prints "Timeout reached", calls disconnect and queues exit code 0 |
| `Lifecycle.StreamsUntilTerminalEvent` | index.js:30-86 | connects, framing errors and found tags, in any number and order, never disconnect or exit |
| `Lifecycle.TimeoutSession` | index.js:76-92 | connect, timeout, completion: the trace is connect, "Tappy connected!", send, "Timeout reached", one disconnect, exit 0 |
| `Lifecycle.ConnectionErrorSession` | index.js:23-38 | connect, CONNECTION_ERROR, completion: "Connection error", one disconnect, exit 1 |
| `Lifecycle.NotConnectedSession` | index.js:32-35 | NOT_CONNECTED first: "Tappy not connected", exit 1, no disconnect, and nothing after |
| `Session.StreamTagsSession.constructor` | index.js:15-21 | the session holds the stream command for the timeout, the given resolvers and lookup, and starts with the connect call |
| `Session.StreamTagsSession.CloseAndQuit` | index.js:23-28 | writes the message to stderr, calls disconnect and queues exit code 1 |
| `Session.StreamTagsSession.OnConnected` | index.js:89-92 | prints "Tappy connected!" and then sends the stream command |
| `Session.StreamTagsSession.OnError` | index.js:30-49 | the switch does what `Lifecycle.Handle` gives for the error |
| `Session.StreamTagsSession.OnMessage` | index.js:51-86 | resolving with the NFC family, else the system family, and dispatching does what `Lifecycle.Handle` gives for the message |
| `Session.StreamTagsSession.OnDisconnectDone` | index.js:25-27 | the oldest waiting disconnect continuation calls `process.exit` with its code |
| `Session.StreamTagsSession.Deliver` | index.js:17-92 | a callback delivered to the live process is one `Lifecycle.Step` and keeps the invariants |
| `Session.StartStreaming` | index.js:13-21 | a new session whose connect completes has printed "Tappy connected!" and sent StreamTags with the given timeout and GENERAL polling, and has neither disconnected nor exited |

## Left out

- Command-line parsing with `commander` (index.js:9-14, 95): the timeout reaches the model as an integer; the device path only feeds the transport and does not appear.
- The serial transport and the `Tappy` object's connect, send and disconnect (index.js:17-18, 25, 78, 89-91): they are actions in the trace, and their completions are events.
- Disconnect completions run the waiting continuations oldest first; what the library does when disconnect is called again before it completes is not part of this model.
- The family libraries (`checkFamily`, `resolveResponse`, `isTypeOf`) and HDLC/TCMP validation: resolvers are arbitrary functions, and a resolved response is already one of TagFound, ScanTimeout or another type.
- The table behind `Tappy.resolveTagType` (index.js:65): it is an arbitrary function from tag type to an optional description.
- The `data` argument of the error listener: the code never reads it.
- Hex.UpperCase: only ASCII letters are upper-cased; `toUpperCase` also maps other scripts, but it is only applied to hex text here.
- `console` formatting and `process.exit` itself: lines and exits are trace entries.
- Asynchrony and the event loop: callbacks are delivered one at a time, in order.
- gulpfile.js is build tooling and is not part of this model.
