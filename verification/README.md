# Event monitor: a verified model of its messaging stack

The page of the event monitor talks to its server through a STOMP client over a SockJS
client; the server runs each incoming event through INSERT, UPDATE and DELETE. This project
models that code in Dafny and proves what it promises over whole runs.

| part | modules |
|---|---|
| strings as UTF-16 code units, numerals | `Text` |
| quoting, JSON arrays | `Json` (a reader written from RFC 8259), `Quote` |
| octet counts | `Utf8` (`encodeURI` of ECMA-262, the UTF-8 of RFC 3629) |
| STOMP frames | `StompFrame` (writer and reader), `StompRoundTrip`, `StompSyntax` |
| batching sender, chunking | `Sender`, `EndToEnd`, `Posting` (the connection with its sender) |
| choice of transports, time limits | `Protocols` |
| SockJS connection | `Connection` (state machine), `ConnectionSafety` (its invariant over all runs), `ConnectionEvents` (what each event does), `SockJs` (the object) |
| receiving transports | `Receive`, `ReceiveSafety`, `Responses`, `PollLoop` (XHR), `Jsonp`, `JsonpAnswers`, `JsonpTransport`, `WebSocket` |
| the connection over its transports | `Stack`, `Arrival` (from the server's frames to the STOMP callbacks) |
| STOMP client | `StompClient` (numbering, routing), `StompHandler` (the client as handler of its socket), `StompRequests` (what requests put on the wire), `StompOverSockJs` (the object) |
| the page | `PageHandlers` (what its clients and callbacks do), `Page` (all sockets of a run), `PageTimers` (its reconnects), `EventMonitor` (the script) |
| the server | `EventPipeline` (interleaved consumers), `PipelineSafety` (their properties), `EventService` (the classes) |

Each stateful part comes twice: as a state machine on values, about which lemmas over all
runs are proved, and as a class with the fields, loops and calls of the program, whose
methods are proved to do what the state machine does.

Code that runs above a transport is a parameter (`Receive.Consumer`); the lemmas about
transports hold for every such code that lets a transport go and never returns to it
(`Receive.LetsGo`), and `Stack` proves that the SockJS connection is one. User handlers are
functions of the events they have seen: they may close, send or throw at any point.

Parameters stand for the environment: the answer and the duration of the info request, the
clock, what the browser can do at each moment, status and growth of each response, the order
of callbacks and timers, the random user and the time of day on the server, and what its
repository returns from a delete.

Some findings, stated as lemmas:

- A heart-beat before the first frame breaks the reading of the stream (`StompRoundTrip.StreamRoundTrip`).
- A content-length supplied by the caller is sent along with the computed one, wins, and can cut the body (`StompRoundTrip.CallerLengthTruncates`).
- A POST that fails while messages wait behind it strands them, until the next one is sent (`Sender.FailureStrands`).
- Clean-up stops neither the sender nor a request that has not started: POSTs may follow CLOSED, and a poll may be opened after it (`Posting.PostsAfterClosedIff`, `ReceiveSafety.RequestOutlivesIff`).
- A handler that throws on the last lines of a response stops the poll loop for good (`ReceiveSafety.StalledStays`).
- The last case of the JSONP wrapper is never reached, so the hook of an aborted receive is never removed (`JsonpAnswers.ReceivesOnce`, `Jsonp.AbortedHookStays`).
- A subscription id of the caller's that looks generated is taken over later, and a headers object used twice replaces the first subscription (`StompClient.SuppliedIdCollides`, `StompClient.ReusedHeadersReplace`).
- Each ERROR frame costs a reconnect timer beside the one for the loss of the connection, and a timer too many takes down the next connection (`PageTimers.LossStartsTimers`, `PageTimers.CalmStepIff`, `Page.SpareTimerReplacesOpen`).
- A message that arrives with the id of an existing row ends with that row deleted, and one that names a row another consumer uses mixes their notifications (`PipelineSafety.PipelineLeavesNoTrace`, `PipelineSafety.SharedIdBreaksOrder`). Ids come in with the body of `PUT /rest`.

## Model

| member | source | states |
|---|---|---|
| Text.NumeralInjective | src/main/webapp/resources/js/stomp.js:364 | numbers written in base 10 or 16 are told apart by their text |
| Json.DecodeTokens | src/main/webapp/resources/js/sockjs-0.3.4.js:356-405 | any way of writing units as JSON characters or escapes reads back as those units, up to the closing quotation mark |
| Json.ArrayRoundTrip | src/main/webapp/resources/js/sockjs-0.3.4.js:1303 | `[` + strings joined by `,` + `]` reads as the list of what the strings denote |
| Quote.ExtraLookupIsSafe | src/main/webapp/resources/js/sockjs-0.3.4.js:393-423 | the replacement table built from `extra_escapable` touches no ASCII, and writes each of its units as an escape of that unit |
| Quote.ReplaceTokens | src/main/webapp/resources/js/sockjs-0.3.4.js:428-442 | the second pass of `quote` turns escaped text into escaped text of the same units |
| Quote.QuoteRoundTrip | src/main/webapp/resources/js/sockjs-0.3.4.js:428-442 | for every sequence of units, lone surrogates included, `quote` yields a JSON string that reads back as it and holds no unit of `extra_escapable` |
| Quote.QuotedArrayRoundTrip | src/main/webapp/resources/js/sockjs-0.3.4.js:1303 | an array of quoted messages reads back as the messages |
| Quote.UnrollLookup | src/main/webapp/resources/js/sockjs-0.3.4.js:409-423 | the table has exactly the escapable units as keys, each with its four-digit escape |
| Quote.Quoter.QuoteText | src/main/webapp/resources/js/sockjs-0.3.4.js:428-442 | with the lazily built table and the early return, the method returns the quoted string and that denotes the input |
| Utf8.EncodeURIMatches | src/main/webapp/resources/js/stomp.js:45-51 | `encodeURI` throws exactly on lone surrogates; otherwise its text has one match of the pattern per octet |
| Utf8.SizeIsOctetCount | src/main/webapp/resources/js/stomp.js:45-51 | `sizeOfUTF8` is the number of UTF-8 octets of every well-formed string, and throws on the others |
| Utf8.OctetsCoverUnits | src/main/webapp/resources/js/stomp.js:69-73 | a well-formed string has at least as many octets as units, and at most three times as many |
| Utf8.EncodeInjective | src/main/webapp/resources/js/stomp.js:45-51 | the octets counted determine the string: the encoding is the real one |
| StompFrame.MarshalFrame | src/main/webapp/resources/js/stomp.js:29-43 | the loop over the headers builds the marshalled text, or throws as `sizeOfUTF8` does |
| StompFrame.CollectHeaders | src/main/webapp/resources/js/stomp.js:61-67 | the backward loop over header lines builds the map of first values |
| StompFrame.ScanBody | src/main/webapp/resources/js/stomp.js:73-82 | the loop collects the units up to the first NUL |
| StompFrame.UnmarshallSingle | src/main/webapp/resources/js/stomp.js:53-84 | one piece is read as command, headers and body, by length or by NUL |
| StompFrame.UnmarshallFrames | src/main/webapp/resources/js/stomp.js:86-100 | the text is split at NULs with the LFs after them, and each non-empty piece read |
| StompRoundTrip.FirstValueWins | src/main/webapp/resources/js/stomp.js:62-67 | each header name has the first of its values in the frame, and no other name is there (STOMP 1.2, "Repeated Header Entries") |
| StompRoundTrip.ParsedHead | src/main/webapp/resources/js/stomp.js:53-67 | of a written frame the reader finds the divider, the command, exactly the headers, and where the body starts, whatever the body holds |
| StompRoundTrip.ParseIntDecimal | src/main/webapp/resources/js/stomp.js:71 | a content-length reads back as the number written |
| StompRoundTrip.LengthCoversBody | src/main/webapp/resources/js/stomp.js:38-40 | the content-length found is empty or at least the units of the body |
| StompRoundTrip.BodyBranchesAgree | src/main/webapp/resources/js/stomp.js:69-83 | reading by content-length and reading up to NUL give the same body, the one written |
| StompRoundTrip.RoundTripFrom | src/main/webapp/resources/js/stomp.js:86-106 | a stream of frames, each followed by any number of LFs, reads as exactly those frames with the added content-length |
| StompRoundTrip.StreamRoundTrip | src/main/webapp/resources/js/stomp.js:86-106 | a stream of frames and LF heart-beats reads as its frames, in order, if and only if it does not start with a heart-beat |
| StompRoundTrip.LeadingLineFeed | src/main/webapp/resources/js/stomp.js:53-67 | text that starts with LF reads as a first frame without a command |
| StompRoundTrip.SurvivesIffNoNul | src/main/webapp/resources/js/stomp.js:90 | a well-formed frame is read back unchanged if and only if its body has no NUL, the content-length notwithstanding |
| StompRoundTrip.CallerLengthTruncates | src/main/webapp/resources/js/stomp.js:62-73 | a content-length of the caller's decides what is read as the body: that many units of it; for a negative length the last units before it; for one that is not a number all that comes before it |
| StompSyntax.FrameIsSpelled | src/main/webapp/resources/js/stomp.js:29-43 | a frame's text is its command, a line of name, colon and value for each header sent, an empty line and the body |
| StompSyntax.HeaderIsTrimmed | src/main/webapp/resources/js/stomp.js:58-67 | a header is read without the white space around its name and value |
| StompSyntax.ParseIntReads | src/main/webapp/resources/js/stomp.js:70-73 | a content-length is read past white space and a sign up to the end of its digits, and is not a number without digits |
| Sender.StepKeeps | src/main/webapp/resources/js/sockjs-0.3.4.js:1266-1314 | a call, completion or timer keeps one POST or timer at most, and adds to posted + buffered exactly what was given |
| Sender.PostsIff | src/main/webapp/resources/js/sockjs-0.3.4.js:1266-1314 | a POST is made if and only if a message comes with none under way and no wait on, or a wait ends with messages there, and takes them all; a wait follows a POST that succeeds, and nothing one that fails |
| Sender.NothingLost | src/main/webapp/resources/js/sockjs-0.3.4.js:1266-1314 | over every run: posted batches followed by the buffer are what `doSend` was given, at most one POST is in flight, and at rest without failure all is posted |
| Sender.FailureStrands | src/main/webapp/resources/js/sockjs-0.3.4.js:1300-1314 | over every run that has come to rest: something given has not been posted if and only if a POST failed while messages waited behind it and none was given since |
| Sender.StrandedIff | src/main/webapp/resources/js/sockjs-0.3.4.js:1300-1314 | over every run: messages wait with nothing to move them if and only if the same happened |
| Sender.BufferedSender.DoSend | src/main/webapp/resources/js/sockjs-0.3.4.js:1271-1277 | a message is buffered, and posted at once if nothing is under way |
| Sender.BufferedSender.SendSchedule | src/main/webapp/resources/js/sockjs-0.3.4.js:1300-1314 | a non-empty buffer becomes one array payload in flight |
| Sender.BufferedSender.OnCompleted | src/main/webapp/resources/js/sockjs-0.3.4.js:1300-1314 | a completion frees the sender and starts the 25 ms wait, or reports the failure |
| Sender.BufferedSender.OnTimer | src/main/webapp/resources/js/sockjs-0.3.4.js:1287-1298 | the end of the wait posts what has gathered |
| EndToEnd.ChunksCover | src/main/webapp/resources/js/stomp.js:137-154 | the chunks of a transmission join to the whole text, and all but the last are full |
| EndToEnd.WireSpells | src/main/webapp/resources/js/stomp.js:137-154 | over every run, the posted arrays and the buffered rest decode to the text of everything written |
| EndToEnd.FramesArrive | src/main/webapp/resources/js/sockjs-0.3.4.js:1170-1178 | for every chunk size and every interleaving of sends, completions and timers, what was posted and buffered reads as exactly the frames written, if and only if no heart-beat came first |
| EndToEnd.FramesArriveQuiescent | src/main/webapp/resources/js/sockjs-0.3.4.js:1300-1314 | at rest without a failed POST, the posted arrays alone read as exactly the frames written |
| EndToEnd.FramesArriveByWebSocket | src/main/webapp/resources/js/sockjs-0.3.4.js:1229-1231 | the same when every chunk is an array of its own |
| EndToEnd.TransmittingClient.Transmit | src/main/webapp/resources/js/stomp.js:137-154 | the loop hands the sender the quoted chunks of the frame in order; it throws, before sending, exactly on a body with a lone surrogate |
| Protocols.DetectAscends | src/main/webapp/resources/js/sockjs-0.3.4.js:465-513 | detected transports are available and admitted, at most one of each kind, websocket before streaming before polling |
| Protocols.DetectIff | src/main/webapp/resources/js/sockjs-0.3.4.js:465-513 | a protocol is detected if and only if it is a WebSocket the server has, or the streaming or the polling transport chosen |
| Protocols.StreamingIff | src/main/webapp/resources/js/sockjs-0.3.4.js:488-498 | which streaming transport is chosen, by availability, origin, cookies and order: an if and only if for each |
| Protocols.PollingIff | src/main/webapp/resources/js/sockjs-0.3.4.js:500-511 | which polling transport is chosen, likewise |
| Protocols.NeverEmptyWithJsonp | src/main/webapp/resources/js/sockjs-0.3.4.js:465-513 | a caller who admits JSONP polling has something to try |
| Protocols.CountRTO | src/main/webapp/resources/js/sockjs-0.3.4.js:270-278 | the time-out is longer than the measured round trip: above 300 ms for slow ones, in (200, 300] for fast ones |
| Protocols.PatienceIsEnough | src/main/webapp/resources/js/sockjs-0.3.4.js:1135-1143 | no transport is given less than the expected round trip, none but JSONP less than two, none more than three; five seconds without an estimate |
| Protocols.TotalIsBounded | src/main/webapp/resources/js/sockjs-0.3.4.js:270-278 | the patience of all transports tried together is at most 8 x rto (2 + 3 + 3 round trips), or 15 s by default |
| ConnectionSafety.DidCloseKeeps | src/main/webapp/resources/js/sockjs-0.3.4.js:1035-1071 | not called on CLOSED, `_didClose` does not throw and keeps the invariant: a next transport with its timer, or a CLOSED connection with one close event on its way; which of the two it is, ConnectionEvents.DidCloseFallsBack and ConnectionEvents.EventMeans say |
| ConnectionEvents.DidCloseFallsBack | src/main/webapp/resources/js/sockjs-0.3.4.js:1035-1071 | while CONNECTING, and for every code but 1000 and 3000-4999: the first protocol of the plan that the browser has is constructed; there is none, if and only if the connection closes, and then it says that all failed |
| ConnectionEvents.LossInRun | src/main/webapp/resources/js/sockjs-0.3.4.js:1102-1149 | over every run: that is what a failed transport, its time-out or a close frame does to a connection that is CONNECTING |
| ConnectionEvents.InfoOpens | src/main/webapp/resources/js/sockjs-0.3.4.js:973-984 | the answer of the info request plans the transports detected and constructs the first, with its time-out; there is none, if and only if the connection closes |
| ConnectionEvents.AllAreTried | src/main/webapp/resources/js/sockjs-0.3.4.js:1102-1149 | from the start, for any number of transports lost one after the other in a browser that keeps what it had: all that were detected are tried, in order, and the loss of the last closes the connection |
| ConnectionEvents.FrameOnOpen | src/main/webapp/resources/js/sockjs-0.3.4.js:1073-1096 | each frame on an open connection: what is dispatched; a close frame closes it with its code, a second open frame with 1006 |
| ConnectionEvents.FrameOnConnecting | src/main/webapp/resources/js/sockjs-0.3.4.js:1073-1096 | each frame before that: the opening frame opens, a close frame leads to the next transport unless its code is one of purpose, and messages are dropped |
| ConnectionEvents.EventMeans | src/main/webapp/resources/js/sockjs-0.3.4.js:964-1049 | each event of the environment on every reachable connection: what is lost closes it with 1006, an info request without answer with 1002, unless there is another transport to try |
| ConnectionEvents.CloseMeans | src/main/webapp/resources/js/sockjs-0.3.4.js:1157-1168 | `close` throws for codes other than 1000 and 3000-4999, ends a connection with the code given or 1000 even while it has transports to try, and does nothing on CLOSED |
| ConnectionEvents.SendMeans | src/main/webapp/resources/js/sockjs-0.3.4.js:1170-1178 | `send` throws exactly while CONNECTING, and hands on exactly on an open connection |
| ConnectionSafety.OpenNextKeeps | src/main/webapp/resources/js/sockjs-0.3.4.js:1111-1154 | the loop of `_try_next_protocol` constructs one transport with its timer, or uses up the list |
| ConnectionSafety.DidMessageKeeps | src/main/webapp/resources/js/sockjs-0.3.4.js:1073-1098 | any frame, with any handler that closes or throws in the middle, keeps the invariant |
| ConnectionSafety.InfoKeeps | src/main/webapp/resources/js/sockjs-0.3.4.js:973-984 | the answer of the info request starts the first transport of the detected ones, or closes when there is none |
| ConnectionSafety.StepKeeps | src/main/webapp/resources/js/sockjs-0.3.4.js:969-1178 | every event of the environment keeps the invariant, moves the ready state only forward, and changes nothing final |
| ConnectionSafety.ReachableInv | src/main/webapp/resources/js/sockjs-0.3.4.js:969-1178 | in every reachable state: never CLOSING between events; CONNECTING with exactly one of info receiver and transport, a transport with its timer; OPEN with a transport; CLOSED with neither |
| ConnectionSafety.EventGrammar | src/main/webapp/resources/js/sockjs-0.3.4.js:1005-1098 | over every run: at most one open event, messages and heart-beats only after it, at most one close event, nothing after that; `wasClean` exactly for codes 1000 and 3000 to 4999 |
| ConnectionSafety.ClosedIsFinal | src/main/webapp/resources/js/sockjs-0.3.4.js:1035-1071 | from CLOSED no transport is made and nothing more is handed to one to send, and only the one close event is still dispatched |
| Posting.StepKeeps | src/main/webapp/resources/js/sockjs-0.3.4.js:1170-1178 | every event of a connection and its sender keeps: posted batches and buffer are what the connection sent while OPEN, quoted, in order |
| Posting.SentIsPosted | src/main/webapp/resources/js/sockjs-0.3.4.js:1170-1178 | over every run of a connection with its sender: the same; at rest without a failed POST all of it is posted, whether or not the connection is CLOSED by then |
| Posting.FailureCloses | src/main/webapp/resources/js/sockjs-0.3.4.js:1304-1311 | a POST that fails closes an open connection with code 1006 |
| Posting.PostsAfterClosedIff | src/main/webapp/resources/js/sockjs-0.3.4.js:1651-1657 | from any reachable CLOSED state another POST is made in some continuation if and only if messages wait behind a POST or wait that is not over: clean-up does not stop the sender |
| Posting.Drains | src/main/webapp/resources/js/sockjs-0.3.4.js:1287-1314 | that POST takes all the messages that wait |
| ConnectionSafety.PerformThrowsIff | src/main/webapp/resources/js/sockjs-0.3.4.js:1157-1178 | past CONNECTING, the calls a handler makes throw exactly at a throw of its own or a `close` with a forbidden code |
| ConnectionSafety.ArrayIsCut | src/main/webapp/resources/js/sockjs-0.3.4.js:1080-1085 | of an array frame the user sees exactly the messages up to the first whose handler closes or throws |
| ConnectionSafety.FallbackIsBounded | src/main/webapp/resources/js/sockjs-0.3.4.js:1100-1155 | a connection constructs at most three transports, pairwise different, in order of kind |
| ConnectionSafety.AllFailedMeansAllTried | src/main/webapp/resources/js/sockjs-0.3.4.js:1056-1065 | "all transports failed" is reported only after every detected transport was tried, while the browser keeps what it had |
| ConnectionSafety.ConnectingIsBrief | src/main/webapp/resources/js/sockjs-0.3.4.js:1135-1144 | if timers fire on time, CONNECTING ends within 8 x rto after the info (15 s for an rto of zero) |
| SockJs.SockJS.constructor | src/main/webapp/resources/js/sockjs-0.3.4.js:969-972 | a new object is CONNECTING and waits for the info request |
| SockJs.SockJS.TryNextProtocol | src/main/webapp/resources/js/sockjs-0.3.4.js:1100-1155 | the loop on the fields does what the state machine does |
| SockJs.SockJS.DidClose | src/main/webapp/resources/js/sockjs-0.3.4.js:1035-1071 | the method on the fields, the throw on CLOSED included; while CONNECTING and without a code of purpose it constructs the first usable protocol of the plan, and closes if and only if there is none |
| SockJs.SockJS.Close | src/main/webapp/resources/js/sockjs-0.3.4.js:1157-1168 | throws on other codes, does nothing after CLOSED, otherwise closes |
| SockJs.SockJS.DispatchOpen | src/main/webapp/resources/js/sockjs-0.3.4.js:1005-1019 | opens and stops the timer, or reports a lost session |
| SockJs.SockJS.DeliverAll | src/main/webapp/resources/js/sockjs-0.3.4.js:1080-1085 | the loop over an array frame is the recursive delivery that `ArrayIsCut` is about |
| SockJs.SockJS.DidMessage | src/main/webapp/resources/js/sockjs-0.3.4.js:1073-1098 | the switch over frame types |
| SockJs.SockJS.OnInfo | src/main/webapp/resources/js/sockjs-0.3.4.js:973-988 | both outcomes of the info request |
| SockJs.SockJS.HandleEvent | src/main/webapp/resources/js/sockjs-0.3.4.js:969-1178 | one turn of the event loop on the object keeps the invariant and is a step of the state machine |
| Receive.LinesSplit | src/main/webapp/resources/js/sockjs-0.3.4.js:2317-2328 | cutting a text where a line starts cuts its list of complete lines |
| ReceiveSafety.FeedLinesShape | src/main/webapp/resources/js/sockjs-0.3.4.js:2317-2328 | the lines of a chunk reach the connection one by one up to the first that makes it let go or throw, and the position moves past the rest |
| ReceiveSafety.ChunkKeeps | src/main/webapp/resources/js/sockjs-0.3.4.js:2317-2328 | a chunk keeps the invariant: what was given is the lines before the position, which is the start of a line |
| ReceiveSafety.StepKeeps | src/main/webapp/resources/js/sockjs-0.3.4.js:2150-2185 | so does every other event of the browser or the connection |
| Responses.LinesArrive | src/main/webapp/resources/js/sockjs-0.3.4.js:2312-2345 | for every cutting of any number of responses: the connection gets the complete lines of what the browser reports, a function of its events alone, in order and once each until it lets go, and has them all unless its handler threw; the position is always the start of a line |
| Responses.LostIff | src/main/webapp/resources/js/sockjs-0.3.4.js:2165-2176 | the end of a request tells the connection of a loss if and only if its status is not 200 |
| ReceiveSafety.OneReceiver | src/main/webapp/resources/js/sockjs-0.3.4.js:2150-2185 | at most one receiver is listened to, none after clean-up; at most one request is under way; and each close is handled once |
| ReceiveSafety.AbortIsSilent | src/main/webapp/resources/js/sockjs-0.3.4.js:2338-2345 | clean-up runs the close handler of the poll loop synchronously, and yet the connection hears nothing and no receiver is made |
| ReceiveSafety.RequestOutlivesIff | src/main/webapp/resources/js/sockjs-0.3.4.js:810-846 | when the connection lets its transport go, a request is under way at some later time if and only if the one aborted had not started: its delayed start is not cancelled |
| ReceiveSafety.GoneIsSilent | src/main/webapp/resources/js/sockjs-0.3.4.js:2338-2345 | after clean-up the browser can change nothing but the state of requests |
| ReceiveSafety.PollsAgainIff | src/main/webapp/resources/js/sockjs-0.3.4.js:2167-2176 | a response leads to the next request if and only if it was good, the connection is still there and no handler threw |
| ReceiveSafety.StalledStays | src/main/webapp/resources/js/sockjs-0.3.4.js:2328-2334 | a handler that throws on the last lines stops the loop for good: whatever happens then, to the connection or in the browser, no further request and no further line |
| PollLoop.Polling.TakeLine | src/main/webapp/resources/js/sockjs-0.3.4.js:2319-2327 | one round of `onchunk` takes the next complete line or finds none |
| PollLoop.Polling.OnChunk | src/main/webapp/resources/js/sockjs-0.3.4.js:2317-2328 | the `while(1)` loop, with connections that abort it in the middle, does what the state machine does |
| PollLoop.Polling.OnFinish | src/main/webapp/resources/js/sockjs-0.3.4.js:2328-2334 | the end of a response, its last lines included |
| PollLoop.Polling.OnClose | src/main/webapp/resources/js/sockjs-0.3.4.js:2167-2176 | a closed request is followed by the next one, or the connection is told it is lost |
| PollLoop.Polling.AbortPoll | src/main/webapp/resources/js/sockjs-0.3.4.js:2179-2185 | the abort of the poll loop |
| PollLoop.Polling.AbortReceiver | src/main/webapp/resources/js/sockjs-0.3.4.js:2338-2345 | the abort of a receiver: request closed, close handler run, request object dropped |
| PollLoop.Polling.OnBegin | src/main/webapp/resources/js/sockjs-0.3.4.js:832-846 | the delayed start of a request, cancelled or not |
| PollLoop.Polling.OnProgress | src/main/webapp/resources/js/sockjs-0.3.4.js:2317-2328 | a chunk or an end reported by the browser, as a step that keeps the invariant and Responses.LinesArrive |
| PollLoop.Polling.OnExternal | src/main/webapp/resources/js/sockjs-0.3.4.js:1651-1657 | anything else that happens to the connection, with the clean-up it may cause |
| Jsonp.CleanupIsSilent | src/main/webapp/resources/js/sockjs-0.3.4.js:1576-1584 | clean-up calls the hook of the outstanding receive, yet the connection hears nothing and no receive starts |
| Jsonp.CloseShape | src/main/webapp/resources/js/sockjs-0.3.4.js:1417-1433 | closing the live script hands its frame to the connection unless empty, and starts the next receive unless that let go or threw |
| Jsonp.StepKeeps | src/main/webapp/resources/js/sockjs-0.3.4.js:1413-1516 | every event keeps: one outstanding receive at most, each called back once it is closed |
| JsonpAnswers.ReceivesOnce | src/main/webapp/resources/js/sockjs-0.3.4.js:1413-1625 | under every interleaving a receive calls back at most once, two are never outstanding, none after clean-up, the hook of a finished one is left behind if and only if it was aborted, and the connection gets the frames that the events end receives with, a function of the events alone, in order: all of them while a receive is outstanding |
| JsonpAnswers.AnswerIsGiven | src/main/webapp/resources/js/sockjs-0.3.4.js:1588-1625 | the frame that the server's script calls the hook with, or the broken-close text for a script that is loaded, timed out or in error without a call, is the answer of the receive and is what the connection is given, unless it is empty |
| Jsonp.GoneIsSilent | src/main/webapp/resources/js/sockjs-0.3.4.js:1576-1584 | after clean-up no receive starts and the connection hears nothing |
| Jsonp.AbortedHookStays | src/main/webapp/resources/js/sockjs-0.3.4.js:1588-1625 | an aborted receive keeps its global hook whatever the server calls: the last case is never reached |
| JsonpTransport.JsonPTransport.CloseScript | src/main/webapp/resources/js/sockjs-0.3.4.js:1417-1433 | the closure on the fields, through all callbacks and a clean-up in the middle |
| JsonpTransport.JsonPTransport.WrapperCallback | src/main/webapp/resources/js/sockjs-0.3.4.js:1597-1614 | the three cases of the wrapper |
| JsonpTransport.JsonPTransport.DoCleanup | src/main/webapp/resources/js/sockjs-0.3.4.js:1576-1584 | clean-up stops the outstanding receive |
| JsonpTransport.JsonPTransport.OnReadyStateChange | src/main/webapp/resources/js/sockjs-0.3.4.js:1459-1472 | the ready-state handler of the script tag |
| WebSocket.StepKeeps | src/main/webapp/resources/js/sockjs-0.3.4.js:1213-1226 | a message, a break or another event gives the connection exactly its frame, if the transport is still live |
| WebSocket.MessagesArrive | src/main/webapp/resources/js/sockjs-0.3.4.js:1213-1242 | the connection gets the frames in order and once each, then the break; nothing after it lets go, even if the socket reports its close inside `close()` |
| Stack.ConnectionLetsGo | src/main/webapp/resources/js/sockjs-0.3.4.js:1046-1049 | the SockJS connection meets what the transport lemmas assume of it |
| Stack.ConnectionOverXhr | src/main/webapp/resources/js/sockjs-0.3.4.js:1638-1657 | a connection over XHR keeps invariant and event grammar, handles the lines that the browser reports in order and once each until it lets go, and then has no receiver left |
| Stack.ConnectionOverWebSocket | src/main/webapp/resources/js/sockjs-0.3.4.js:1201-1242 | the same over a WebSocket |
| Stack.ConnectionOverJsonp | src/main/webapp/resources/js/sockjs-0.3.4.js:1538-1584 | the same over JSONP |
| Arrival.MessagesReachUser | src/main/webapp/resources/js/sockjs-0.3.4.js:1069-1095 | from the construction of an XHR transport on, for any lines decoded in any way, any cutting of the responses and anything else that happens: with handlers that do not throw, the user is shown the messages sent after the opening frame, in order, up to a close, and all of them while the connection is open |
| Arrival.MessagesReachUserByWebSocket | src/main/webapp/resources/js/sockjs-0.3.4.js:1213-1226 | the same over a WebSocket |
| Arrival.MessagesReachUserByJsonp | src/main/webapp/resources/js/sockjs-0.3.4.js:1540-1567 | the same over JSONP, all of them as long as a receive is outstanding |
| Arrival.SessionSends | src/main/webapp/resources/js/sockjs-0.3.4.js:1069-1095 | the lines of a session, an opening frame and then heart-beats and quoted arrays in any number, send exactly the messages of the arrays |
| Arrival.FramesReachCallbacks | src/main/webapp/resources/js/stomp.js:235-304 | a server that sends frames and heart-beats, any number a message, over any such session has exactly its frames handed to the callbacks of the STOMP client on the connection, in order, up to a close, and all of them while the connection is open |
| Arrival.FramesReachCallbacksByWebSocket | src/main/webapp/resources/js/stomp.js:235-304 | the same over a WebSocket |
| Arrival.FramesReachCallbacksByJsonp | src/main/webapp/resources/js/stomp.js:235-304 | the same over JSONP, all of them as long as a receive is outstanding |
| StompClient.IssuedNamesNeverRepeat | src/main/webapp/resources/js/stomp.js:358-387 | over every run no `sub-n` or `tx-n` is made up twice |
| StompClient.RegisteredIsLast | src/main/webapp/resources/js/stomp.js:358-383 | the map holds an id if and only if some operation subscribed under it and none unsubscribed since, and then the callback of the last |
| StompClient.MessageGoesToLast | src/main/webapp/resources/js/stomp.js:270-291 | over every run a MESSAGE goes to the last callback subscribed and not unsubscribed under the id in its header `subscription`, or under "undefined" without that header, and otherwise to `onreceive` or nobody |
| StompClient.OtherTargets | src/main/webapp/resources/js/stomp.js:261-301 | CONNECTED, RECEIPT and ERROR, and no other commands, go to their own callbacks |
| StompClient.ConnectedIff | src/main/webapp/resources/js/stomp.js:262-337 | over every run the client is connected if and only if it got CONNECTED and did not disconnect since |
| StompClient.GeneratedIsPrivate | src/main/webapp/resources/js/stomp.js:358-383 | under a generated id that no caller supplies, messages go to its callback if and only if it has not been unsubscribed |
| StompClient.GeneratedIsPrivateByPrefix | src/main/webapp/resources/js/stomp.js:363-365 | it is enough that callers' ids do not start with `sub-` |
| StompClient.SuppliedIdCollides | src/main/webapp/resources/js/stomp.js:363-367 | without that, a generated subscription takes messages from the caller's own |
| StompClient.ReusedHeadersReplace | src/main/webapp/resources/js/stomp.js:363-367 | a headers object used for two subscriptions replaces the first callback |
| StompClient.HistoryDelivers | src/main/webapp/resources/js/stomp.js:257-303 | the frames of a message are handed over once each and in order, whatever callbacks do: those up to and including the first whose callback throws, all if none does; one that disconnects does not stop the rest |
| StompHandler.OpsThrowIff | src/main/webapp/resources/js/stomp.js:137-154 | the calls that the client makes on its socket for a run of operations include one that throws if and only if a callback threw, or a body had a lone surrogate |
| StompHandler.MessageThrowsIff | src/main/webapp/resources/js/stomp.js:257-303 | handling a message throws if and only if a callback does on a frame that it is handed |
| StompHandler.LossIsTold | src/main/webapp/resources/js/stomp.js:306-316 | the close event of the socket disconnects a client that listens for it and runs its error callback up to a throw; one that has disconnected does nothing |
| StompRequests.SubscribeWrites | src/main/webapp/resources/js/stomp.js:358-376 | on an open connection `subscribe` writes one SUBSCRIBE frame: its reader gets the destination, the id the callback is registered under (the caller's, or sub-n) and the caller's other headers, and nothing else |
| StompRequests.UnsubscribeWrites | src/main/webapp/resources/js/stomp.js:378-383 | one UNSUBSCRIBE frame with the id |
| StompRequests.BeginWrites | src/main/webapp/resources/js/stomp.js:385-388 | one BEGIN frame with the transaction given, or tx-n |
| StompRequests.SendWrites | src/main/webapp/resources/js/stomp.js:347-356 | one SEND frame with the destination, the caller's headers, the octet count of a body that is not empty unless the caller gave a length, and the body |
| StompRequests.DisconnectWrites | src/main/webapp/resources/js/stomp.js:329-335 | one DISCONNECT frame, and the connection closes with 1000 |
| StompRequests.OpenConnects | src/main/webapp/resources/js/stomp.js:317-326 | when the connection opens, one CONNECT frame with versions and heart-beats |
| StompOverSockJs.Client.Transmit | src/main/webapp/resources/js/stomp.js:137-154 | the chunks of the frame reach an open socket, none any other; it throws exactly while CONNECTING or on a lone surrogate |
| StompOverSockJs.Client.Subscribe | src/main/webapp/resources/js/stomp.js:358-376 | id, counter, map, the caller's headers and the frame, whether or not the transmission throws; StompRequests.SubscribeWrites reads the frame |
| StompOverSockJs.Client.Unsubscribe | src/main/webapp/resources/js/stomp.js:378-383 | the id is dropped whether or not the transmission throws; StompRequests.UnsubscribeWrites reads the frame |
| StompOverSockJs.Client.Begin | src/main/webapp/resources/js/stomp.js:385-388 | the given or generated transaction name, and the frame |
| StompOverSockJs.Client.SendMessage | src/main/webapp/resources/js/stomp.js:347-356 | the destination header and the frame; it throws exactly while CONNECTING or on a lone surrogate |
| StompOverSockJs.Client.Perform | src/main/webapp/resources/js/stomp.js:329-388 | one call of a callback, on the client or on the socket itself: client and connection are as `StompClient.Step` and the calls of `StompHandler.OpCalls` make them, and it throws exactly if the request does |
| StompOverSockJs.Client.Serve | src/main/webapp/resources/js/stomp.js:257-303 | what a callback does is carried out up to its first exception, on the client and on the connection |
| StompOverSockJs.Client.Dispatch | src/main/webapp/resources/js/stomp.js:261-301 | the callback that command and subscription select, by StompClient.MessageGoesToLast and StompClient.OtherTargets |
| StompOverSockJs.Client.OnMessage | src/main/webapp/resources/js/stomp.js:235-304 | a message is read into frames, each dispatched under the subscriptions of that moment with what its callback does to client and connection carried out before the next, until one throws |
| StompOverSockJs.Client.OnEvent | src/main/webapp/resources/js/stomp.js:234-326 | dispatching an event to the client object does to client, connection and callbacks what module StompHandler says of the handler of the socket: the object is that handler |
| StompOverSockJs.Client.Disconnect | src/main/webapp/resources/js/stomp.js:329-345 | throws and changes nothing while CONNECTING, otherwise sends DISCONNECT if open, stops listening for the close event, and closes |
| PageHandlers.HandlerIsTheClient | src/main/webapp/resources/js/stomp.js:234-326 | the calls that the page's sockets get are those of its STOMP client, and no callback of the page makes the client deaf to the close event |
| PageHandlers.FramesStart | src/main/webapp/resources/js/stomp.js:296-297 | dispatching frames starts one reconnect timer for each frame handed to the error callback |
| PageHandlers.MessageStartsIff | src/main/webapp/resources/js/stomp.js:257-303 | a message starts a reconnect timer if and only if it holds an ERROR frame and no callback throws on a frame before that |
| Page.DisconnectCloses | src/main/webapp/resources/js/stomp.js:329-335 | after `disconnect` the socket is CLOSED, and only an open one was sent anything |
| Page.StepKeeps | src/main/webapp/resources/js/eventMonitor.js:7-29 | connects, timers and all events of all sockets ever made keep the page's invariant |
| Page.OneLiveSocket | src/main/webapp/resources/js/eventMonitor.js:7-23 | over every run at most one SockJS object is not CLOSED, and it is the current client's |
| Page.ConnectThrowsIff | src/main/webapp/resources/js/eventMonitor.js:7-14 | in every reachable state `connect` throws if and only if the current socket is CONNECTING, and then changes nothing; otherwise it closes the old socket before making one new one |
| Page.OldSocketsAreSilent | src/main/webapp/resources/js/stomp.js:329-335 | nothing that happens to a replaced socket starts a reconnect timer, hands anything more to a transport or shows anything but its close event |
| Page.PageRecovers | src/main/webapp/resources/js/eventMonitor.js:25-29 | over every run, a page whose socket is CLOSED has a timer, or a close event that starts one, and that timer makes a new socket |
| PageTimers.ErrorsIff | src/main/webapp/resources/js/stomp.js:257-303 | events start timers besides those for a loss if and only if a message among them has an ERROR frame ahead of any callback that throws |
| PageTimers.ErrorsInIff | src/main/webapp/resources/js/sockjs-0.3.4.js:1069-1095 | whatever happens to a socket starts such a timer if and only if it is a frame, on an open socket, with an ERROR frame in a message that is shown, ahead of any callback that throws |
| PageTimers.SocketConserves | src/main/webapp/resources/js/stomp.js:296-315 | whatever happens to any socket ever made: timers plus the live current socket grow by one for each ERROR frame handed to the page, and are conserved otherwise |
| PageTimers.CalmWithoutErrors | src/main/webapp/resources/js/eventMonitor.js:25-29 | over every run of a page loaded once in which no ERROR frame arrives: at most one reconnect is pending, counting a live current socket as one |
| PageTimers.CalmStepIff | src/main/webapp/resources/js/eventMonitor.js:25-29 | in every reachable calm state a socket event keeps that if and only if it is not the arrival of an ERROR frame, as a condition on the event, the events before and what callbacks do |
| PageTimers.CalmTimerReplacesLost | src/main/webapp/resources/js/eventMonitor.js:7-12 | on a calm page a timer fires only for a lost connection whose loss was heard, does not throw and takes nothing down |
| PageTimers.TimerSpends | src/main/webapp/resources/js/eventMonitor.js:7-12 | a timer that fires while the current socket is live is spent: what is pending falls by one |
| PageTimers.LossStartsTimers | src/main/webapp/resources/js/stomp.js:296-315 | from a live socket to the news of its loss, over all runs of socket events between: one timer is started, and one more for each ERROR frame |
| PageTimers.ErrorBreaksCalm | src/main/webapp/resources/js/stomp.js:296-297 | a message that is an ERROR frame, on an open connection, does break the calm |
| Page.SpareTimerReplacesOpen | src/main/webapp/resources/js/eventMonitor.js:7-12 | a timer that fires while the page is connected closes that connection and starts over |
| EventMonitor.Script.Connect | src/main/webapp/resources/js/eventMonitor.js:7-23 | the function on real client and socket objects is the page's `connect`; the new client and socket are fresh |
| EventMonitor.Script.Reconnect | src/main/webapp/resources/js/eventMonitor.js:25-29 | one more timer |
| EventMonitor.Script.OnTimer | src/main/webapp/resources/js/eventMonitor.js:25-29 | a timer that fires is a move of the page |
| EventMonitor.Script.OnSocketEvent | src/main/webapp/resources/js/stomp.js:306-316 | an event on one socket object is a move of the page and touches no other socket |
| EventPipeline.MapperRoundTrip | src/main/java/info/ernestas/eventmonitor/service/mapper/EventEventDtoMapper.java:11-27 | converting there and back loses nothing, either way, and no entity makes an empty dto |
| EventPipeline.InsertSaves | src/main/java/info/ernestas/eventmonitor/service/EventServiceImpl.java:65-71 | the save of INSERT puts the name of the message, the user and the time into the row that the message names, or a new one, and touches no other |
| EventPipeline.UpdateSaves | src/main/java/info/ernestas/eventmonitor/service/EventServiceImpl.java:96-109 | the save of UPDATE puts what the dto says into its row, and touches no other |
| PipelineSafety.SaveAgain | src/main/java/info/ernestas/eventmonitor/service/EventServiceImpl.java:96-109 | UPDATE of an unchanged row changes nothing |
| PipelineSafety.AdvanceKeeps | src/main/java/info/ernestas/eventmonitor/service/EventServiceImpl.java:62-94 | each step of a consumer, interleaved with any others, keeps the invariant on rows, keys and log; a save of INSERT needs the guard that its message names no row another consumer uses |
| PipelineSafety.FailKeeps | src/main/java/info/ernestas/eventmonitor/service/EventServiceImpl.java:22-24 | so does a step that throws, with its transaction rolled back: a row it added goes, a row it replaced is as before |
| PipelineSafety.PipelineIsOrdered | src/main/java/info/ernestas/eventmonitor/service/activemq/IncomingEventListener.java:29-46 | for any number of consumers, any interleaving and failures, and any messages that pass the guard: the log about an id is a beginning of INSERT, UPDATE, DELETE with one and the same dto, and the table is that of the start but for the rows consumers have taken or added |
| PipelineSafety.PipelineLeavesNoTrace | src/main/java/info/ernestas/eventmonitor/service/activemq/IncomingEventListener.java:29-46 | when all consumers have finished, the table is as before less the rows that messages named and took, and the log holds three entries per message, which agree |
| PipelineSafety.SharedIdBreaksOrder | src/main/java/info/ernestas/eventmonitor/service/EventServiceImpl.java:65-71 | in every state: a message that names at its save a row that another consumer uses puts the log about that row out of order |
| PipelineSafety.InsertGuardIsExact | src/main/java/info/ernestas/eventmonitor/service/EventServiceImpl.java:65-71 | at a save of INSERT in any state: if the guard holds, no continuation under it is out of order; if it does not, some continuation is |
| PipelineSafety.NoIdsAreGuarded | src/main/java/info/ernestas/eventmonitor/service/EventServiceImpl.java:65-71 | messages without ids always pass the guard |
| EventService.TwoStepsAreOneCall | src/main/java/info/ernestas/eventmonitor/service/EventServiceImpl.java:62-89 | the interleaved steps, taken two at a time, are the calls of `processEvent`: table, notifications and returned dto, which the listener drops for DELETE |
| EventService.ProcessNotifiesOnce | src/main/java/info/ernestas/eventmonitor/service/EventServiceImpl.java:62-94 | every call notifies once, of its own action; INSERT and UPDATE leave the row of the dto they return, DELETE removes the row it was given, ERROR changes nothing |
| EventService.EventServiceImpl.ProcessEvent | src/main/java/info/ernestas/eventmonitor/service/EventServiceImpl.java:62-89 | all four cases on table and queue, the default one notifying ERROR; the result is the image of what the repository returns, null included |
| EventService.IncomingEventListener.OnMessage | src/main/java/info/ernestas/eventmonitor/service/activemq/IncomingEventListener.java:29-46 | an EventDto leads to three notifications of one dto and to the old table less the row it named; anything else is ignored |

## Left out

- The browser objects under the transports (XHR, XDR, ActiveX, script tags, forms, frames, unload hooks, user-agent tests): only the events they raise are modelled. Transport constructors do not throw.
- The EventSource, htmlfile and iframe facade transports, URL helpers and random strings: they bring no state of their own.
- The deferred branch that waits for the page to load (sockjs-0.3.4.js:1118-1129): this page connects from `onload`. Its load handler does not look at the ready state, so the lemmas on CLOSED are for runs without it.
- Whitelist entries that the library does not know, and the options `info`, `rtt` and `server`.
- The reason texts and the nested last event of close events.
- JSON decoding of frame payloads that are not arrays of strings: `Stack.Decoder` stands for `JSON.parse`, and may fail on any line.
- `send_destructor`: it reads `_send_stop`, a field nobody sets, and so does nothing. A POST that fails after CLOSED makes `_didClose` throw; that is modelled.
- Heart-beat intervals of the STOMP client: `now()` returns a function, so the check for a silent server compares with NaN and never fires. Their effects are among the calls that `Page` allows on any socket at any time. `_setupHeartbeat` is taken not to throw.
- Header or subscription names that every JavaScript object inherits (`__proto__`, `constructor`, ...), and header values that are not strings.
- `parseInt` beyond exact integers.
- The page's callbacks may use their client and its socket in any way but `disconnect`, which only `connect` calls. The client objects of `EventMonitor.Script` keep the state they are made with: the sockets run the handler of `StompHandler`, which `StompOverSockJs.Client.OnEvent` proves to be the client's.
- ACK, NACK, COMMIT and ABORT, which transmit one frame and change nothing; the closures on a delivered frame, which share variables across the frames of one message; and the `unsubscribe` of a returned subscription, which reads the caller's headers when it is called.
- Transaction isolation: what a consumer saves is seen by the others at once, before its transaction ends.
- The delay of UPDATE and its interruption, other than as a step that fails; failures of the message broker at commit.
- Java configuration, controllers, repositories, health check, version cache, getters and logging: JPA and JMS appear as a table with fresh keys and a queue.
