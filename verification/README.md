# Boost.Asio example programs, modelled and proved in Dafny

The repository carries the example programs of Boost.Asio. This project models those with the most state, protocol
or arithmetic in them and proves what they promise, for every input, every run and every reachable state.

- **HTTP request parsers.** `TableParser` is the 20-state parser of `http/server`, `CoroutineParser` the
  stackless-coroutine parser of `http/server4`, each as a step function, a run over bytes, and an object whose
  methods are proved to compute them. `RequestGrammar` states the language on its own, as syntax trees with a text
  and a meaning, after sections 2.2, 4.2 and 5.1 of RFC 1945. `TableParserCorrect` proves that the parser accepts
  exactly that language, `TableParserViable` that it rejects as early as can be, `ParsersAgree` relates the two parsers
  byte by byte, and `RequestPrinter` proves printing and parsing inverse to each other, with the HTTP client's request
  as an instance.
- **Chat.** `ChatMessage` is the wire format, `ChatModel` the server as a state machine over its completion handlers
  with any number of sessions and what its sessions send, `ChatInput` where that comes from, `ChatRuns` who is in the
  room and what is sent as the events alone tell, `ChatServer` the room, session and server objects proved to take its
  steps.
- **Timeouts.** `TimeoutModel` and `TimeoutServer` are the timeouts server, `ClientModel` and `AsyncClient` the
  asynchronous client, each as a state machine and as objects proved to take its steps. `TimeoutTimes` and
  `ClientTimes` state their deadlines, what they do and when they stop by the steps of a run alone. `Asio` holds what
  both need of the library.
- **Porthopper.** `HexFields` and `HopperCodec` are the wire formats, `HopperModel` server, clients and network as a
  state machine and what clients print, `HopperSubscriptions` who the server sends to, `HopperHandover` when a hop is
  seamless, `HopperStale` and `HopperRuns` when it is not, `HopperEvents` all of it as the events tell, `HopperPrograms`
  the server and client objects, alone and together. A datagram sent is under way, and may be received any number of
  times, until the network loses it.
- **ICMP.** `IcmpChecksum` is the header and its checksum against the one's-complement sum of section 1 of RFC 1071,
  `Ping` the pinger as a state machine and as an object.
- **Smaller programs.** `EchoModel` and `EchoServer` are the non-blocking echo connection, `Serialization` the
  length-prefixed framing, `Ticks` the wrapping tick arithmetic.

## How the asynchronous library is modelled

The programs run their handlers one at a time. An operation or a timer wait is outstanding until it completes; its
handler is then ready and stays ready until it is run, in any order with other ready handlers. Setting the expiry of
a timer, or cancelling it, makes its waits ready. Closing a socket makes its outstanding operations ready with an
error. Time, what arrives, when it arrives and every error are events of a run, so a theorem about every run is one
about all of them. Fields described as history record what happened and influence nothing; that they record what
did happen in the run is proved as well.

## Where the code differs from what is said of it

- The timeouts server is said to apply the output deadline to sending a message (`timeouts/server.cpp`, lines 127 to
  129). `handle_write` does not move the deadline away when a message has been sent, so the output actor also stops a
  session that has nothing left to send, 30 seconds after its last write was started. `OutputDeadline` and `IdleStop`
  state exactly when, `IdleSessionStopped` shows it in a run.
- The two parsers are for the same requests, but the coroutine parser refuses an empty URI and header values outside 7
  bits. `ParsersAgree` states the difference exactly.
- `less_than` on tick counts is also true of equal times, and of times exactly 2 to the 31 apart it is false in both
  directions: `LessThanItself` and `NeitherLessThan`. `LessThanMeans` states what it says.
- The ICMP checksum can be wrong once the 32-bit sum of words wraps. `ChecksumVerifies` gives the exact condition,
  `LongBodyFails` a body that breaks it, far longer than any packet.
- A frame on its new socket is said to show a porthopper client that the renegotiation is complete
  (`porthopper/client.cpp`, lines 99 to 103). A frame delayed since the port was last in use does so too: the client
  then closes its old socket while the server still sends there. `HandoverFails` and `StartFails` are such runs;
  `MisledIff` shows that exactly a datagram under way to the new port makes it possible, and `SeamlessHandover` holds
  where there is none.
- An asynchronous client started with no endpoint stops itself and is then left with one deadline wait, as
  `StopsAtStartIff` states.

## Model

| member | source | states |
|---|---|---|
| `TableParserCorrect.AcceptsExactlyTheGrammar` | doc_searcher/data/input/html/boost_asio/example/http/server/request_parser.cpp:27-283 | the table-driven parser accepts the first n bytes of any input as the request r if and only if those bytes are the text of a syntax tree of the separately stated request grammar that denotes r, folded header lines included |
| `TableParserCorrect.Sound` | doc_searcher/data/input/html/boost_asio/example/http/server/request_parser.cpp:27-283 | whatever is accepted is the text of a grammar tree, and the request filled in is what the tree denotes |
| `TableParserCorrect.Complete` | doc_searcher/data/input/html/boost_asio/example/http/server/request_parser.cpp:27-283 | every request of the grammar is accepted exactly at its last byte with exactly its meaning, whatever follows it and whatever the version fields held before |
| `TableParserCorrect.Builds` | doc_searcher/data/input/html/boost_asio/example/http/server/request_parser.cpp:27-283 | while a request is undecided, the bytes consumed so far are the text of a partial tree, and the partly filled request is its meaning |
| `TableParserViable.PendingIffViable` | doc_searcher/data/input/html/boost_asio/example/http/server/request_parser.cpp:27-283 | a request is undecided after some bytes if and only if they are a proper beginning of a text of the grammar, so that a wrong request is rejected at the first byte after which no request can follow |
| `HttpTypes.IsToken` | doc_searcher/data/input/html/boost_asio/example/http/server/request_parser.cpp:285-312 | a character is one of a token if and only if it is a letter, a digit or one of the fifteen marks listed |
| `HttpTypes.IsCtl` | doc_searcher/data/input/html/boost_asio/example/http/server/request_parser.cpp:290-293 | a character may stand in a header value if and only if it is one from space to tilde or above 127; the others are control characters |
| `TableParser.ChunkIndependence` | doc_searcher/data/input/html/boost_asio/example/http/server/request_parser.hpp:36-48 | however the input is cut over successive `parse` calls, verdict, request and total consumed are those of one call over the whole input |
| `TableParser.AcceptedAtFirstBlankLine` | doc_searcher/data/input/html/boost_asio/example/http/server/request_parser.cpp:186-283 | a request is accepted at the end of the first CR LF CR LF of the input, never earlier and never later |
| `TableParser.DecidedByBlankLine` | doc_searcher/data/input/html/boost_asio/example/http/server/request_parser.cpp:186-283 | no request is undecided once CR LF CR LF has been read, and one decided exactly there is accepted |
| `TableParser.DecidingByte` | doc_searcher/data/input/html/boost_asio/example/http/server/request_parser.cpp:27-283 | a verdict falls at one byte: before it the run is undecided, and an accepting or rejecting byte changes nothing in the request |
| `TableParser.RequestParser.Consume` | doc_searcher/data/input/html/boost_asio/example/http/server/request_parser.cpp:27-283 | one call of `consume` on the parser and request objects is one transition of the table: verdict, state and every request field; the last header is only touched where there is one |
| `TableParser.RequestParser.Parse` | doc_searcher/data/input/html/boost_asio/example/http/server/request_parser.hpp:36-48 | the `parse` loop leaves verdict, request, position and, while undecided, state as the run over the whole input does |
| `TableParser.RequestParser.constructor` | doc_searcher/data/input/html/boost_asio/example/http/server/request_parser.cpp:17-20 | a new parser is at the start of the method |
| `TableParser.RequestParser.Reset` | doc_searcher/data/input/html/boost_asio/example/http/server/request_parser.cpp:22-25 | a parser reset is as new |
| `ParsersAgree.ParsersAgree` | doc_searcher/data/input/html/boost_asio/example/http/server4/request_parser.cpp:24-176 | on every input, from any request object, the coroutine parser follows the table-driven one: it rejects what that rejects and, of what that accepts, exactly the requests with an empty URI, a header value outside 7 bits or an inconvertible Content-Length; the others it accepts with the same fields after exactly as many more bytes as the headers announce, and those bytes are the content |
| `ParsersAgree.ParsersAgreeOnChunks` | doc_searcher/data/input/html/boost_asio/example/http/server4/request_parser.hpp:32-44 | so they do when the same input reaches each parser in chunks, cut differently for each |
| `ParsersAgree.CoroutineAcceptsHeadAndContent` | doc_searcher/data/input/html/boost_asio/example/http/server4/request_parser.cpp:24-176 | whatever the coroutine parser accepts is a request the table-driven parser accepts with the same fields, followed by exactly the announced content |
| `ParsersAgree.StepTogether` | doc_searcher/data/input/html/boost_asio/example/http/server4/request_parser.cpp:24-148 | one byte takes both machines to corresponding states with equal fields, or the coroutine parser rejects something it refuses |
| `ParsersAgree.ContentRun` | doc_searcher/data/input/html/boost_asio/example/http/server4/request_parser.cpp:167-172 | from however much content is already there, the content loop takes exactly the missing bytes, unchanged |
| `CoroutineParser.LengthFails` | doc_searcher/data/input/html/boost_asio/example/http/server4/request_parser.cpp:150-165 | the headers are refused exactly when some header named Content-Length, in any case, has a value that does not convert |
| `CoroutineParser.LastLengthDecides` | doc_searcher/data/input/html/boost_asio/example/http/server4/request_parser.cpp:150-165 | when all convert, the last Content-Length header gives the length |
| `CoroutineParser.NoLengthIsZero` | doc_searcher/data/input/html/boost_asio/example/http/server4/request_parser.cpp:150-165 | without such a header the length is zero |
| `CoroutineParser.HeadersEqual` | doc_searcher/data/input/html/boost_asio/example/http/server4/request_parser.cpp:209-221 | names are compared letter by letter, the same letter in either case being the same, told on character codes |
| `CoroutineParser.RecasedLength` | doc_searcher/data/input/html/boost_asio/example/http/server4/request_parser.cpp:150-165 | writing header names in other letter cases changes neither the length nor whether the headers are refused |
| `CoroutineParser.RequestParser.FindLength` | doc_searcher/data/input/html/boost_asio/example/http/server4/request_parser.cpp:150-165 | the loop over the headers computes that length, and stops at the first value that does not convert |
| `CoroutineParser.RequestParser.Consume` | doc_searcher/data/input/html/boost_asio/example/http/server4/request_parser.cpp:24-176 | one call resumes after the last yield and returns the verdict, resume point, request, content and length of one step of the model; a call that does not yield leaves the coroutine finished |
| `CoroutineParser.RequestParser.constructor` | doc_searcher/data/input/html/boost_asio/example/http/server4/coroutine.hpp:14-38 | a new coroutine resumes at the beginning |
| `CoroutineParser.RequestParser.Parse` | doc_searcher/data/input/html/boost_asio/example/http/server4/request_parser.hpp:32-44 | the `parse` loop leaves verdict, request, resume point and position as the run over the whole input does |
| `CoroutineParser.ChunkIndependence` | doc_searcher/data/input/html/boost_asio/example/http/server4/request_parser.hpp:32-44 | however the input is cut over successive `parse` calls, verdict, request, content and total consumed are those of one call over the whole input |
| `RequestPrinter.PrintThenParse` | doc_searcher/data/input/html/boost_asio/example/http/server/reply.cpp:103-118 | a request with token method and header names, a URI without spaces and control characters and values without control characters, printed and parsed, comes back unchanged, accepted exactly at the last byte printed |
| `RequestPrinter.ReadBackIffPrintable` | doc_searcher/data/input/html/boost_asio/example/http/server/request_parser.cpp:27-283 | a request is read back from its printed text if and only if it is printable |
| `RequestPrinter.ReparseIsFixpoint` | doc_searcher/data/input/html/boost_asio/example/http/server/request_parser.cpp:27-283 | whatever text a request was accepted from, it is printable, and printing and parsing it again gives the same request |
| `RequestPrinter.CoroutineReadsBackIff` | doc_searcher/data/input/html/boost_asio/example/http/server4/request_parser.cpp:24-176 | the coroutine parser reads a request and its content back from the printed request followed by the content if and only if the request is printable, its URI is not empty, its values are 7-bit and its headers announce exactly that content |
| `RequestPrinter.ContentRoundTrip` | doc_searcher/data/input/html/boost_asio/example/http/server4/request_parser.cpp:150-172 | so any content is read back with its request once its length is in a last Content-Length header, in decimal |
| `RequestPrinter.RecasedReadsBack` | doc_searcher/data/input/html/boost_asio/example/http/server4/request_parser.cpp:24-221 | a request printed with its header names in other letter cases is read back with its content if and only if the request is |
| `RequestPrinter.WriteClientRequest` | doc_searcher/data/input/html/boost_asio/example/http/client/async_client.cpp:28-35 | the text the HTTP client writes piece by piece is the printed form of the request it means |
| `RequestPrinter.ServerReadsClient` | doc_searcher/data/input/html/boost_asio/example/http/client/async_client.cpp:28-35 | the table-driven server reads exactly the request the client meant if and only if the path has no space or control character and the server name no control character |
| `RequestPrinter.CoroutineServerReadsClient` | doc_searcher/data/input/html/boost_asio/example/http/client/async_client.cpp:28-35 | the coroutine server does if and only if, in addition, the path is not empty and the server name is 7-bit |
| `RequestPrinter.ToBuffers` | doc_searcher/data/input/html/boost_asio/example/http/server/reply.cpp:103-118 | the buffers gathered for a reply are the status line, the printed header lines, the blank line and the content |
| `ChatModel.TotalOrderBroadcast` | doc_searcher/data/input/html/boost_asio/example/chat/chat_server.cpp:45-164 | at every point of every run with any number of sessions, what a session has written followed by its queue is one contiguous slice of the delivery log, from min(100, log length) messages before it joined to the newest message, or to where it left |
| `ChatRuns.BroadcastOfTheRun` | doc_searcher/data/input/html/boost_asio/example/chat/chat_server.cpp:45-164 | the same told from the events: the messages whose writes have completed, followed by the queue, are the log from min(100, log length) messages before the accept to the newest message, or to the first error or unacceptable header of the session |
| `ChatRuns.MemberIff` | doc_searcher/data/input/html/boost_asio/example/chat/chat_server.cpp:45-205 | a session is in the room if and only if it has been accepted and has had no read error, no header that announces no length from 0 to 512 and no failed write |
| `ChatRuns.ReadsUntil` | doc_searcher/data/input/html/boost_asio/example/chat/chat_server.cpp:115-144 | a session stops reading if and only if one of its reads has failed or has given such a header |
| `ChatRuns.ReadsInTurn` | doc_searcher/data/input/html/boost_asio/example/chat/chat_server.cpp:115-144 | until then a header is followed by the body it announces and a body by the next header |
| `ChatRuns.WritesUntil` | doc_searcher/data/input/html/boost_asio/example/chat/chat_server.cpp:101-164 | a session is writing the front of its queue exactly while there is one and none of its writes has failed |
| `ChatModel.OneOutstandingWrite` | doc_searcher/data/input/html/boost_asio/example/chat/chat_server.cpp:101-164 | a session has at most one outstanding write, of the front of its queue, exactly when the queue is not empty and no write has failed; after a failed write it is no member |
| `ChatModel.FrontStaysUntilWritten` | doc_searcher/data/input/html/boost_asio/example/chat/chat_server.cpp:101-113 | no step but the session's own write completion removes or changes the front of its queue, writes anything for it, or starts a write while one is due |
| `ChatModel.ClientsReadTheLog` | doc_searcher/data/input/html/boost_asio/example/chat/chat_server.cpp:45-164 | the client's read loop, on the bytes a session has written and any part of the next message, reads exactly the session's slice of the log |
| `ChatInput.LogIsWhatWasSent` | doc_searcher/data/input/html/boost_asio/example/chat/chat_server.cpp:115-144 | at every point of every run the log is an interleaving of what the clients sent: each message came from one session, and those of a session, in the order of the log, are the messages in the bytes its error-free reads have taken; only a message with an empty body can be in those bytes and not yet, or after a failed read never, in the log |
| `ChatInput.SentInOrder` | doc_searcher/data/input/html/boost_asio/example/chat/chat_server.cpp:115-144 | so the messages of a client that sends a stream of them are in the log in the order sent, without gap or repetition |
| `ChatInput.StepHeard` | doc_searcher/data/input/html/boost_asio/example/chat/chat_server.cpp:91-164 | every completion handler keeps what that follows from |
| `ChatModel.StepKeepsInv` | doc_searcher/data/input/html/boost_asio/example/chat/chat_server.cpp:45-205 | every completion handler, with or without an error, keeps the invariant the above follow from |
| `ChatModel.RunKeepsInv` | doc_searcher/data/input/html/boost_asio/example/chat/chat_server.cpp:45-205 | the invariant holds at every point of every run |
| `ChatModel.TrimIsNewest` | doc_searcher/data/input/html/boost_asio/example/chat/chat_server.cpp:57-61 | trimming after each delivery keeps exactly the newest 100 messages of the whole log |
| `ChatServer.ChatRoom.Join` | doc_searcher/data/input/html/boost_asio/example/chat/chat_server.cpp:45-50 | joining adds the participant and delivers it the recent messages in order |
| `ChatServer.ChatRoom.Leave` | doc_searcher/data/input/html/boost_asio/example/chat/chat_server.cpp:52-55 | leaving removes the participant and nothing else |
| `ChatServer.ChatRoom.Deliver` | doc_searcher/data/input/html/boost_asio/example/chat/chat_server.cpp:57-65 | a message is appended to the log, the recent messages are trimmed, and every participant gets it exactly once |
| `ChatServer.ChatSession.Deliver` | doc_searcher/data/input/html/boost_asio/example/chat/chat_server.cpp:101-113 | the message goes to the end of the queue, and a write is started exactly when the queue was empty |
| `ChatServer.ChatSession.Start` | doc_searcher/data/input/html/boost_asio/example/chat/chat_server.cpp:91-99 | the session joins, gets the recent messages, and starts to read a header |
| `ChatServer.ChatSession.HandleReadHeader` | doc_searcher/data/input/html/boost_asio/example/chat/chat_server.cpp:115-128 | a header read without error that decodes leads to the body, any other to leaving the room |
| `ChatServer.ChatSession.HandleReadBody` | doc_searcher/data/input/html/boost_asio/example/chat/chat_server.cpp:130-144 | a body read without error is delivered to the room under the header bytes received; an error leads to leaving |
| `ChatServer.ChatSession.HandleWrite` | doc_searcher/data/input/html/boost_asio/example/chat/chat_server.cpp:146-164 | a completed write drops the front of the queue and starts the next; a failed one leads to leaving |
| `ChatServer.Server.HandleAccept` | doc_searcher/data/input/html/boost_asio/example/chat/chat_server.cpp:196-205 | on the objects of a whole server, accepting a connection is the step of the model |
| `ChatServer.Server.HandleReadHeader` | doc_searcher/data/input/html/boost_asio/example/chat/chat_server.cpp:115-128 | so is the header handler of any session |
| `ChatServer.Server.HandleReadBody` | doc_searcher/data/input/html/boost_asio/example/chat/chat_server.cpp:130-144 | so is its body handler, for the room and every other session too |
| `ChatServer.Server.HandleWrite` | doc_searcher/data/input/html/boost_asio/example/chat/chat_server.cpp:146-164 | so is its write handler |
| `ChatMessage.HeaderRoundTrip` | doc_searcher/data/input/html/boost_asio/example/chat/chat_message.hpp:66-86 | every body length up to 512 is read back from its encoded header |
| `ChatMessage.DecodesTo` | doc_searcher/data/input/html/boost_asio/example/chat/chat_message.hpp:66-78 | a header of white space, an optional sign, digits and anything else, cut at a NUL, announces the number the digits denote, and is refused if that is above 512 or negative |
| `ChatMessage.ReadsSomehow` | doc_searcher/data/input/html/boost_asio/example/chat/chat_message.hpp:66-78 | every header is of that form |
| `ChatMessage.RefusedIff` | doc_searcher/data/input/html/boost_asio/example/chat/chat_message.hpp:72-76 | a right-aligned number is refused if and only if it is above 512, and with a minus sign if and only if it is not zero |
| `ChatMessage.ReadLoopInvertsStream` | doc_searcher/data/input/html/boost_asio/example/chat/chat_message.hpp:59-86 | any concatenation of well-formed messages is read back message by message with the header bytes received, and reading goes on with the bytes after them |
| `ChatMessage.Buffer.SetBodyLength` | doc_searcher/data/input/html/boost_asio/example/chat/chat_message.hpp:59-64 | the length is cut to 512 |
| `ChatMessage.Buffer.DecodeHeader` | doc_searcher/data/input/html/boost_asio/example/chat/chat_message.hpp:66-78 | decoding succeeds exactly for headers that announce 0 to 512, and the buffer then holds a message whose header announces its body |
| `ChatMessage.Buffer.EncodeHeader` | doc_searcher/data/input/html/boost_asio/example/chat/chat_message.hpp:80-86 | encoding makes the buffer a message whose header announces its body, and leaves the body alone |
| `TimeoutModel.NoLostWakeup` | doc_searcher/data/input/html/boost_asio/example/timeouts/server.cpp:192-295 | while a session is open its output actor exists exactly once, as a wait on the timer, a ready handler or a write, never sleeps with something queued, and what it is sending or has just sent is the front of the queue |
| `TimeoutModel.SessionsSendTheLog` | doc_searcher/data/input/html/boost_asio/example/timeouts/server.cpp:192-295 | what a session has sent followed by what it has queued is, heartbeats aside, the channel log from where it joined to the newest message or to where it left |
| `TimeoutModel.MemberIffOpen` | doc_searcher/data/input/html/boost_asio/example/timeouts/server.cpp:158-190 | between handlers a started session is in the channel if and only if its socket is open |
| `TimeoutModel.AfterStop` | doc_searcher/data/input/html/boost_asio/example/timeouts/server.cpp:176-318 | once a session is stopped at most three more of its handlers ever run, and it never again has an operation or a wait outstanding |
| `TimeoutTimes.InputDeadline` | doc_searcher/data/input/html/boost_asio/example/timeouts/server.cpp:201-318 | the input check, however stale, stops an open session if and only if the last step that left a read outstanding where there was none is 30 seconds back or longer |
| `TimeoutTimes.OutputDeadline` | doc_searcher/data/input/html/boost_asio/example/timeouts/server.cpp:269-318 | the output check stops an open session if and only if some step has left a write outstanding where there was none and the last such step is 30 seconds back or longer, whether or not that write has completed |
| `TimeoutTimes.DeadlinesAreDue` | doc_searcher/data/input/html/boost_asio/example/timeouts/server.cpp:297-318 | an open session whose read, or whose last write, is 30 seconds old has the check of that deadline ready or about to be woken |
| `TimeoutTimes.NothingOutlivesItsDeadline` | doc_searcher/data/input/html/boost_asio/example/timeouts/server.cpp:201-318 | in every run whose handlers are run before time goes on, no read of an open session is ever older than 30 seconds, and neither is its last write |
| `TimeoutTimes.IdleStop` | doc_searcher/data/input/html/boost_asio/example/timeouts/server.cpp:280-318 | so a session with nothing to send, whose last read is not 30 seconds old, is stopped exactly when its last write is, which was then started before that read |
| `TimeoutTimes.TimesAreOfTheRun` | doc_searcher/data/input/html/boost_asio/example/timeouts/server.cpp:201-278 | the times an open session goes by are those of the last steps of the run that started a read and a write of it |
| `TimeoutTimes.StopsIff` | doc_searcher/data/input/html/boost_asio/example/timeouts/server.cpp:158-318 | an open session is stopped by a step if and only if that runs its read handler on an error, its write handler on a failure, or the check of a deadline that has passed |
| `TimeoutTimes.FourActors` | doc_searcher/data/input/html/boost_asio/example/timeouts/server.cpp:158-318 | an open session always has exactly one read, one output continuation, one input check and one output check, outstanding or ready |
| `TimeoutTimes.AcceptedIsOpen` | doc_searcher/data/input/html/boost_asio/example/timeouts/server.cpp:158-173 | a session that is accepted is open, in the channel, reading, and has nothing to send |
| `TimeoutTimes.DeliversWhatIsHeard` | doc_searcher/data/input/html/boost_asio/example/timeouts/server.cpp:192-295 | what a session has sent and has yet to send is, heartbeats aside, what was heard from all clients, in that order, from when it was accepted until it was stopped, all told from the handlers run |
| `TimeoutModel.IdleSessionStopped` | doc_searcher/data/input/html/boost_asio/example/timeouts/server.cpp:280-318 | a concrete run in which that happens to a session that has sent everything |
| `TimeoutModel.WriterHasFront` | doc_searcher/data/input/html/boost_asio/example/timeouts/server.cpp:280-295 | the write handler of an open session never finds the queue empty |
| `TimeoutModel.HeartbeatsInFront` | doc_searcher/data/input/html/boost_asio/example/timeouts/server.cpp:227-241 | at every point of every run a heartbeat in a queue is at its front, and a heartbeat heard adds one to the queue of its session exactly when nothing else is being or waiting to be sent, and to no other queue |
| `TimeoutModel.StepKeepsInv` | doc_searcher/data/input/html/boost_asio/example/timeouts/server.cpp:158-318 | every step of the clock, the library and the handlers keeps the invariant the above follow from |
| `TimeoutModel.RunKeepsInv` | doc_searcher/data/input/html/boost_asio/example/timeouts/server.cpp:158-388 | the invariant holds at every point of every run |
| `TimeoutServer.Channel.Join` | doc_searcher/data/input/html/boost_asio/example/timeouts/server.cpp:47-50 | joining adds the subscriber |
| `TimeoutServer.Channel.Leave` | doc_searcher/data/input/html/boost_asio/example/timeouts/server.cpp:52-55 | leaving removes it |
| `TimeoutServer.Channel.Deliver` | doc_searcher/data/input/html/boost_asio/example/timeouts/server.cpp:57-61 | every subscriber gets the message exactly once |
| `TimeoutServer.TcpSession.Start` | doc_searcher/data/input/html/boost_asio/example/timeouts/server.cpp:158-173 | the session joins and its four actors are started |
| `TimeoutServer.TcpSession.Stop` | doc_searcher/data/input/html/boost_asio/example/timeouts/server.cpp:176-185 | the session leaves, its socket is closed and its three timers are cancelled, so that whatever was outstanding has its handler ready |
| `TimeoutServer.TcpSession.Deliver` | doc_searcher/data/input/html/boost_asio/example/timeouts/server.cpp:192-199 | the message, with a newline, goes to the end of the queue, and the output actor is woken if it sleeps |
| `TimeoutServer.TcpSession.StartRead` | doc_searcher/data/input/html/boost_asio/example/timeouts/server.cpp:201-209 | a read is started with a deadline 30 seconds away, which wakes the input check |
| `TimeoutServer.TcpSession.HandleRead` | doc_searcher/data/input/html/boost_asio/example/timeouts/server.cpp:211-247 | a line is delivered to every subscriber, an empty line is answered if the queue is empty, and reading goes on; an error stops the session; a stopped session does nothing |
| `TimeoutServer.TcpSession.AwaitOutput` | doc_searcher/data/input/html/boost_asio/example/timeouts/server.cpp:249-267 | the output actor goes to sleep on an empty queue and otherwise starts to write |
| `TimeoutServer.TcpSession.StartWrite` | doc_searcher/data/input/html/boost_asio/example/timeouts/server.cpp:269-278 | a write of the front of the queue is started with a deadline 30 seconds away |
| `TimeoutServer.TcpSession.HandleWrite` | doc_searcher/data/input/html/boost_asio/example/timeouts/server.cpp:280-295 | a completed write drops the front of the queue and the actor waits for the next; a failed one stops the session |
| `TimeoutServer.TcpSession.CheckDeadline` | doc_searcher/data/input/html/boost_asio/example/timeouts/server.cpp:297-318 | a passed deadline stops the session, any other puts the actor back to sleep |
| `TimeoutServer.Server.HandleAccept` | doc_searcher/data/input/html/boost_asio/example/timeouts/server.cpp:379-388 | on the objects of a whole server, accepting a connection is the step of the model |
| `TimeoutServer.Server.RunHandler` | doc_searcher/data/input/html/boost_asio/example/timeouts/server.cpp:211-318 | so is running any ready handler of any session, for the channel and every other session too |
| `ClientModel.OneOperation` | doc_searcher/data/input/html/boost_asio/example/timeouts/async_tcp_client.cpp:96-272 | from its start until it is stopped, between handlers, the client has exactly one connect or read in progress or just completed, one deadline actor, and a heartbeat actor exactly when it has a reader |
| `ClientTimes.ClosesAtOwnDeadline` | doc_searcher/data/input/html/boost_asio/example/timeouts/async_tcp_client.cpp:120-272 | the deadline actor, however stale its handler, closes an open socket if and only if the last step that left a connect or read outstanding where there was none is 60 seconds back or longer, for a connect, or 30, for a read |
| `ClientModel.OnlyDeadlineCloses` | doc_searcher/data/input/html/boost_asio/example/timeouts/async_tcp_client.cpp:141-272 | while a connect or read is in progress, any step but the deadline actor and the completion of that operation stops the client or leaves the socket open and the operation, its start and its deadline as they were |
| `ClientTimes.DeadlineIsDue` | doc_searcher/data/input/html/boost_asio/example/timeouts/async_tcp_client.cpp:251-272 | a client whose operation has had its time has the deadline actor ready or about to be woken |
| `ClientTimes.NoOperationOutlivesItsDeadline` | doc_searcher/data/input/html/boost_asio/example/timeouts/async_tcp_client.cpp:120-272 | in every run whose handlers are run before time goes on, no connect is ever older than 60 seconds and no read than 30 while the socket is open |
| `ClientModel.StopsAtStartIff` | doc_searcher/data/input/html/boost_asio/example/timeouts/async_tcp_client.cpp:96-139 | a client stops as it starts if and only if it has no endpoint, and then it has one deadline wait outstanding |
| `ClientTimes.EndpointsInOrder` | doc_searcher/data/input/html/boost_asio/example/timeouts/async_tcp_client.cpp:120-182 | the endpoints that connects were started to are 0, 1, 2 and so on, each at most once, at most one connect is ever taken up, and from then on there are one reader and one heartbeat |
| `ClientTimes.HeartbeatsAreSpaced` | doc_searcher/data/input/html/boost_asio/example/timeouts/async_tcp_client.cpp:222-249 | any two steps of a run that start to send a heartbeat are at least ten seconds apart, and there is none once the client is stopped |
| `ClientTimes.StopsIff` | doc_searcher/data/input/html/boost_asio/example/timeouts/async_tcp_client.cpp:96-249 | a client that is not stopped is stopped by a step if and only if that is a call of `stop`, a start without endpoints, a read error, a failed heartbeat, or a failed or timed-out connect to the last endpoint |
| `ClientTimes.FirstEndpoint` | doc_searcher/data/input/html/boost_asio/example/timeouts/async_tcp_client.cpp:96-139 | starting connects to the first endpoint with a deadline 60 seconds away |
| `ClientTimes.AfterConnect` | doc_searcher/data/input/html/boost_asio/example/timeouts/async_tcp_client.cpp:141-192 | a connect in time is followed by one read, with a deadline 30 seconds away, and one heartbeat, a failed or timed-out one by a connect to the next endpoint with a deadline 60 seconds away |
| `ClientTimes.AfterLine` | doc_searcher/data/input/html/boost_asio/example/timeouts/async_tcp_client.cpp:184-220 | a line is followed by the next read with a deadline 30 seconds away, which has failed at once if the deadline has closed the socket |
| `ClientTimes.AfterHeartbeat` | doc_searcher/data/input/html/boost_asio/example/timeouts/async_tcp_client.cpp:222-249 | a heartbeat sent is followed by a wait of exactly ten seconds, and that by the next |
| `ClientTimes.AfterCheck` | doc_searcher/data/input/html/boost_asio/example/timeouts/async_tcp_client.cpp:251-272 | the deadline actor closes a socket whose operation has had its time, so that the operation has failed, changes nothing of any other, and goes on waiting |
| `ClientTimes.StartIsOfTheRun` | doc_searcher/data/input/html/boost_asio/example/timeouts/async_tcp_client.cpp:120-192 | the operation the deadline is for is the last one the run has started |
| `ClientModel.AfterStop` | doc_searcher/data/input/html/boost_asio/example/timeouts/async_tcp_client.cpp:110-272 | once stopped, the client runs at most three more handlers and has nothing outstanding, but for the deadline wait of a client that was given no endpoint |
| `ClientModel.StepKeepsInv` | doc_searcher/data/input/html/boost_asio/example/timeouts/async_tcp_client.cpp:96-272 | every step keeps the invariant the above follow from |
| `ClientModel.RunKeepsInv` | doc_searcher/data/input/html/boost_asio/example/timeouts/async_tcp_client.cpp:96-272 | the invariant holds at every point of every run |
| `AsyncClient.Client.constructor` | doc_searcher/data/input/html/boost_asio/example/timeouts/async_tcp_client.cpp:86-92 | a new client is in an initial state of the model |
| `AsyncClient.Client.Start` | doc_searcher/data/input/html/boost_asio/example/timeouts/async_tcp_client.cpp:96-105 | starting tries the first endpoint and then starts the deadline actor |
| `AsyncClient.Client.Stop` | doc_searcher/data/input/html/boost_asio/example/timeouts/async_tcp_client.cpp:110-117 | stopping closes the socket and cancels both timers, so that whatever was outstanding has its handler ready |
| `AsyncClient.Client.StartConnect` | doc_searcher/data/input/html/boost_asio/example/timeouts/async_tcp_client.cpp:120-139 | a connect is started with a deadline 60 seconds away; without an endpoint left the client stops |
| `AsyncClient.Client.HandleConnect` | doc_searcher/data/input/html/boost_asio/example/timeouts/async_tcp_client.cpp:141-182 | a timed-out or failed connect leads to the next endpoint, a successful one to reader and heartbeat |
| `AsyncClient.Client.StartRead` | doc_searcher/data/input/html/boost_asio/example/timeouts/async_tcp_client.cpp:184-192 | a read is started with a deadline 30 seconds away |
| `AsyncClient.Client.HandleRead` | doc_searcher/data/input/html/boost_asio/example/timeouts/async_tcp_client.cpp:194-220 | a line leads to the next read, an error stops the client |
| `AsyncClient.Client.StartWrite` | doc_searcher/data/input/html/boost_asio/example/timeouts/async_tcp_client.cpp:222-230 | a heartbeat is sent unless the client is stopped |
| `AsyncClient.Client.HandleWrite` | doc_searcher/data/input/html/boost_asio/example/timeouts/async_tcp_client.cpp:232-249 | after a heartbeat the next waits for 10 seconds; an error stops the client |
| `AsyncClient.Client.CheckDeadline` | doc_searcher/data/input/html/boost_asio/example/timeouts/async_tcp_client.cpp:251-272 | a passed deadline closes the socket and is set to infinity, and the actor goes back to sleep either way |
| `AsyncClient.Client.RunHandler` | doc_searcher/data/input/html/boost_asio/example/timeouts/async_tcp_client.cpp:141-272 | running any ready handler of the object is the step of the model |
| `HopperModel.PrintsInOrder` | doc_searcher/data/input/html/boost_asio/example/porthopper/client.cpp:62-185 | over a network that may lose, duplicate, delay and reorder, with any number of clients and of hops to whatever ports, the frame numbers a client has printed are strictly increasing, and while frames are numbered in 32 bits each payload printed is the one the server sent under that number |
| `HopperEvents.PrintsIff` | doc_searcher/data/input/html/boost_asio/example/porthopper/client.cpp:66-76 | while frames are numbered in 32 bits, a frame received on either socket is printed, as it was sent, if and only if its number is above all printed before |
| `HopperEvents.HopsAfterFifty` | doc_searcher/data/input/html/boost_asio/example/porthopper/client.cpp:63-97 | a client can hop if and only if it has received 50 frames since it last did, those of the renegotiation not counted, and never receives more than 50 |
| `HopperEvents.FramesGoOut` | doc_searcher/data/input/html/boost_asio/example/porthopper/server.cpp:120-145 | a frame goes to every subscriber and to nobody else, under the number of frames sent so far, itself included |
| `HopperEvents.NetworkKeeps` | doc_searcher/data/input/html/boost_asio/example/porthopper/server.cpp:133-140 | and nothing else puts a datagram under way |
| `HopperModel.StepKeepsShows` | doc_searcher/data/input/html/boost_asio/example/porthopper/server.cpp:69-145 | every step of clients, server and network keeps what that follows from |
| `HopperSubscriptions.SubscribersAreLastHandled` | doc_searcher/data/input/html/boost_asio/example/porthopper/server.cpp:69-116 | in every run in which no client takes a port that another client holds or has asked for since, the subscribers are exactly the new ports of the requests handled last, one for each client, for any interleaving of requests through their encoded form and any reuse of ports of its own |
| `HopperEvents.SubscribersOfTheEvents` | doc_searcher/data/input/html/boost_asio/example/porthopper/server.cpp:69-116 | the same told from the events: the subscribers are the endpoints of the k-th port each client has opened, k being how many of its requests have been handled |
| `HopperSubscriptions.HandleEffect` | doc_searcher/data/input/html/boost_asio/example/porthopper/server.cpp:84-116 | the request at the head of a control connection, decoded from its bytes, moves the subscription of its client from its last port to its next |
| `HopperSubscriptions.StepKeepsInv` | doc_searcher/data/input/html/boost_asio/example/porthopper/server.cpp:69-116 | every such step keeps the requests in order, what clients hold apart, and the subscribers those held |
| `HopperSubscriptions.RunKeepsInv` | doc_searcher/data/input/html/boost_asio/example/porthopper/server.cpp:69-116 | the invariant holds at every point of every such run |
| `HopperHandover.SeamlessHandover` | doc_searcher/data/input/html/boost_asio/example/porthopper/client.cpp:78-185 | in every run in which a new socket gets a port that no socket has and no datagram is under way to, a client that has hopped is subscribed where it receives, and while it renegotiates at exactly one of its two ports |
| `HopperHandover.FramesFindSockets` | doc_searcher/data/input/html/boost_asio/example/porthopper/client.cpp:78-185 | and every endpoint the server sends to has a socket open on it |
| `HopperStale.MisledIff` | doc_searcher/data/input/html/boost_asio/example/porthopper/client.cpp:58-118 | a client that connects or hops can, in some continuation of such a run, take a frame at its new port, and so close its old socket, before the server has handled its request, if and only if a datagram was under way to the port when the client opened it |
| `HopperRuns.HandoverFails` | doc_searcher/data/input/html/boost_asio/example/porthopper/client.cpp:99-118 | a run in which that happens to a hop: a client gets a port back that a delayed frame is still under way to, closes its other socket, and the server sends to the closed one |
| `HopperRuns.StartFails` | doc_searcher/data/input/html/boost_asio/example/porthopper/client.cpp:58-76 | a run in which it happens at the start: a client takes 50 delayed frames at a port another has left, hops to a port nothing is under way to, and is subscribed at neither |
| `HopperRuns.HopsForEver` | doc_searcher/data/input/html/boost_asio/example/porthopper/client.cpp:63-185 | runs as in SeamlessHandover in which a client hops between two ports any number of times, so that they do use ports again |
| `HopperHandover.QuietRunIsUnshared` | doc_searcher/data/input/html/boost_asio/example/porthopper/server.cpp:69-116 | runs as in SeamlessHandover are also runs as in SubscribersAreLastHandled |
| `HopperHandover.StepKeepsInv` | doc_searcher/data/input/html/boost_asio/example/porthopper/client.cpp:62-185 | every step of such a run keeps the phase of each renegotiation and the sockets apart |
| `HopperHandover.RunKeepsInv` | doc_searcher/data/input/html/boost_asio/example/porthopper/client.cpp:62-185 | the invariant holds at every point of every such run |
| `HopperPrograms.Server.HandleControlRequest` | doc_searcher/data/input/html/boost_asio/example/porthopper/server.cpp:84-116 | the old port of the request, if any, is removed and the new one, if any, is added |
| `HopperPrograms.Server.HandleTimer` | doc_searcher/data/input/html/boost_asio/example/porthopper/server.cpp:120-145 | each subscriber, and nobody else, is sent the frame with the next number |
| `HopperPrograms.HopperClient.constructor` | doc_searcher/data/input/html/boost_asio/example/porthopper/client.cpp:51-62 | a new client has one socket and has asked the server to start |
| `HopperPrograms.HopperClient.Look` | doc_searcher/data/input/html/boost_asio/example/porthopper/client.cpp:69-75 | a frame is printed exactly when its number is above that of every frame seen before |
| `HopperPrograms.HopperClient.Receive` | doc_searcher/data/input/html/boost_asio/example/porthopper/client.cpp:66-76 | a frame on the current socket is looked at, and counted unless the client renegotiates |
| `HopperPrograms.HopperClient.Renegotiate` | doc_searcher/data/input/html/boost_asio/example/porthopper/client.cpp:83-97 | the client has a second socket and has asked the server to change from the port of the first to that of the second |
| `HopperPrograms.HopperClient.ReceiveOnNew` | doc_searcher/data/input/html/boost_asio/example/porthopper/client.cpp:113-116 | a frame on the new socket leaves the client with that socket alone |
| `HopperPrograms.HopperClient.Round` | doc_searcher/data/input/html/boost_asio/example/porthopper/client.cpp:63-185 | one round of the program takes the steps of the model one after another, 50 frames, the hop, the frames on the old socket, the one on the new, and leaves the client ready for the next with the records of all frames seen printed |
| `HopperPrograms.System.Connect` | doc_searcher/data/input/html/boost_asio/example/porthopper/client.cpp:51-62 | on the objects of server, clients and network, a client that connects is the step of the model |
| `HopperPrograms.System.Hop` | doc_searcher/data/input/html/boost_asio/example/porthopper/client.cpp:83-97 | so is one that hops |
| `HopperPrograms.System.HandleRequest` | doc_searcher/data/input/html/boost_asio/example/porthopper/server.cpp:84-116 | so is a request that the server takes from a control connection and handles |
| `HopperPrograms.System.SendFrame` | doc_searcher/data/input/html/boost_asio/example/porthopper/server.cpp:120-145 | so is a frame sent to the subscribers |
| `HopperPrograms.System.Receive` | doc_searcher/data/input/html/boost_asio/example/porthopper/client.cpp:66-76 | so is a frame a client receives on its current socket |
| `HopperPrograms.System.ReceiveOnNew` | doc_searcher/data/input/html/boost_asio/example/porthopper/client.cpp:113-185 | so is one it receives on its new socket |
| `HopperPrograms.System.Lose` | doc_searcher/data/input/html/boost_asio/example/porthopper/server.cpp:133-140 | so is a datagram that the network loses |
| `HopperPrograms.RecordsIncrease` | doc_searcher/data/input/html/boost_asio/example/porthopper/client.cpp:62-185 | the records of any frames have strictly increasing numbers, the last of them the highest received |
| `HopperPrograms.HighestIsMaximum` | doc_searcher/data/input/html/boost_asio/example/porthopper/client.cpp:71-73 | the last frame number kept is the maximum of all received |
| `HopperCodec.RequestRoundTrip` | doc_searcher/data/input/html/boost_asio/example/porthopper/protocol.hpp:35-98 | both 16-bit ports of a control request are read back |
| `HopperCodec.FrameRoundTrip` | doc_searcher/data/input/html/boost_asio/example/porthopper/protocol.hpp:101-154 | a frame number is read back if and only if it is below 2 to the 32, and then so is the payload, padded or cut to 32 characters |
| `HexFields.FieldRoundTrip` | doc_searcher/data/input/html/boost_asio/example/porthopper/protocol.hpp:113-128 | a number written to a fixed-width hexadecimal field of a buffer and read from that field alone is the same number if and only if its digits fit |
| `HexFields.WrittenDigits` | doc_searcher/data/input/html/boost_asio/example/porthopper/protocol.hpp:113-118 | numbers are written in the digits 0 to 9 and a to f |
| `HexFields.HexDigits` | doc_searcher/data/input/html/boost_asio/example/porthopper/protocol.hpp:120-128 | and read in those and in A to F, each with its place as its value |
| `IcmpChecksum.ChecksumVerifies` | doc_searcher/data/input/html/boost_asio/example/icmp/icmp_header.hpp:74-92 | for words of any total, the one's-complement sum of all words with the checksum is 0xFFFF if and only if the number of carries out of the 32-bit sum is a multiple of 65535 |
| `IcmpChecksum.FoldedIsSum` | doc_searcher/data/input/html/boost_asio/example/icmp/icmp_header.hpp:89-90 | the two folds take a multiple of 65535 off any 32-bit sum, leave 16 bits, and give zero only for zero |
| `IcmpChecksum.OnesSumIsSum` | doc_searcher/data/input/html/boost_asio/example/icmp/icmp_header.hpp:74-92 | addition with end-around carry is addition modulo 65535, and only zeros sum to zero |
| `IcmpChecksum.WordsAre` | doc_searcher/data/input/html/boost_asio/example/icmp/icmp_header.hpp:81-87 | the words of a body hold its bytes two by two, the first of them high, an odd last byte padded with zero |
| `IcmpChecksum.ShortBodyVerifies` | doc_searcher/data/input/html/boost_asio/example/icmp/icmp_header.hpp:74-92 | for every header and every body of up to 131068 bytes, of even or odd length, the message verifies |
| `IcmpChecksum.LongBodyFails` | doc_searcher/data/input/html/boost_asio/example/icmp/icmp_header.hpp:74-92 | under a header of zeros a body of 131074 bytes of ones verifies and one of 131075 bytes does not |
| `IcmpChecksum.OnesVerifyIff` | doc_searcher/data/input/html/boost_asio/example/icmp/icmp_header.hpp:74-92 | for bodies of ones of any length, the exact condition on the length under which the message verifies |
| `IcmpChecksum.AddBody` | doc_searcher/data/input/html/boost_asio/example/icmp/icmp_header.hpp:81-87 | the loop computes the sum of the body's words, an odd last byte padded, modulo 2 to the 32 |
| `IcmpChecksum.IcmpHeader.ComputeChecksum` | doc_searcher/data/input/html/boost_asio/example/icmp/icmp_header.hpp:74-92 | the checksum stored is that of the header and body words, the other fields stay, and the message verifies under the condition above |
| `IcmpChecksum.IcmpHeader.Encode` | doc_searcher/data/input/html/boost_asio/example/icmp/icmp_header.hpp:62-69 | the high byte of the value goes to the first place and the low byte to the second, and other bytes stay |
| `Ping.RequestsArePaced` | doc_searcher/data/input/html/boost_asio/example/icmp/ping.cpp:39-120 | in every run, for every pattern of matching, late and repeated replies, any two of the times at which requests were sent are at least as many seconds apart as there are requests from one to the other, and the timer of a request is cancelled by at most one reply |
| `Ping.TimesOutAfterFiveSeconds` | doc_searcher/data/input/html/boost_asio/example/icmp/ping.cpp:60-69 | the timeout handler reports a request as timed out if and only if no reply with its number has come since it was sent, and five seconds have then passed |
| `Ping.ReplyCancels` | doc_searcher/data/input/html/boost_asio/example/icmp/ping.cpp:98-107 | a reply changes the pinger if and only if it carries the number of the last request; the first of those makes what is waited for ready, and no other reply does |
| `Ping.RunIsOfTheEvents` | doc_searcher/data/input/html/boost_asio/example/icmp/ping.cpp:39-58 | the k-th request carries k modulo 65536, and the replies counted are those to the last request since it was sent |
| `Ping.TimerIsExact` | doc_searcher/data/input/html/boost_asio/example/icmp/ping.cpp:55-74 | there is exactly one continuation; waiting for a timeout, the timer is five seconds after the last request, which is unanswered, and waiting to send it is one second after it |
| `Ping.HandlersAlternate` | doc_searcher/data/input/html/boost_asio/example/icmp/ping.cpp:39-74 | a request is followed by the wait for its timeout and that by the wait for the next request |
| `Ping.StepKeepsInv` | doc_searcher/data/input/html/boost_asio/example/icmp/ping.cpp:39-120 | every step of clock, timer and replies keeps one continuation and the times the pacing follows from |
| `Ping.EchoRequest` | doc_searcher/data/input/html/boost_asio/example/icmp/ping.cpp:43-49 | the request has type 8, code 0, the given identifier and sequence number, and verifies |
| `Ping.PingerObject.constructor` | doc_searcher/data/input/html/boost_asio/example/icmp/ping.cpp:27-36 | a new pinger sends its first request at once and is in an initial state of the model |
| `Ping.PingerObject.SendRequest` | doc_searcher/data/input/html/boost_asio/example/icmp/ping.cpp:39-64 | sending raises the 16-bit sequence number, sends a request that carries it, and waits for five seconds |
| `Ping.PingerObject.OnTimeout` | doc_searcher/data/input/html/boost_asio/example/icmp/ping.cpp:66-74 | the next request waits for one second after the last |
| `Ping.PingerObject.OnReply` | doc_searcher/data/input/html/boost_asio/example/icmp/ping.cpp:98-107 | only a reply to the current request counts, and only the first of those cancels the timer |
| `EchoModel.EchoConservation` | doc_searcher/data/input/html/boost_asio/example/nonblocking/third_party_lib.cpp:43-68 | at every point of every run, however reads and writes are cut, the bytes sent followed by the unsent part of the buffer are the bytes received |
| `EchoModel.EchoesItsInput` | doc_searcher/data/input/html/boost_asio/example/nonblocking/third_party_lib.cpp:43-68 | the same told from the events: the bytes the writes have taken, followed by the unsent part of the buffer, are the bytes the reads have given |
| `EchoModel.ClosesIff` | doc_searcher/data/input/html/boost_asio/example/nonblocking/third_party_lib.cpp:138-176 | a handler closes the socket if and only if its wait, or the read or write it performs, fails with something other than would-block |
| `EchoModel.OneOperation` | doc_searcher/data/input/html/boost_asio/example/nonblocking/third_party_lib.cpp:113-176 | between handlers an open connection waits for exactly one thing, the one its session wants, and the flags say so; a closed one waits for nothing and has no handler left |
| `EchoModel.ReadsWhenAllSent` | doc_searcher/data/input/html/boost_asio/example/nonblocking/third_party_lib.cpp:43-50 | the buffer is only read into when everything received has been sent |
| `EchoModel.StepKeepsInv` | doc_searcher/data/input/html/boost_asio/example/nonblocking/third_party_lib.cpp:43-176 | every step keeps the invariant the above follow from |
| `EchoServer.LibrarySession.DoRead` | doc_searcher/data/input/html/boost_asio/example/nonblocking/third_party_lib.cpp:43-50 | bytes read overwrite the beginning of the buffer and are then to be written; reading none changes nothing |
| `EchoServer.LibrarySession.DoWrite` | doc_searcher/data/input/html/boost_asio/example/nonblocking/third_party_lib.cpp:60-68 | bytes written are taken off the front of what is to be written, and the session reads again when none are left |
| `EchoServer.EchoConnection.StartOperations` | doc_searcher/data/input/html/boost_asio/example/nonblocking/third_party_lib.cpp:113-136 | a wait is started for what the session wants, unless one is in progress |
| `EchoServer.EchoConnection.HandleRead` | doc_searcher/data/input/html/boost_asio/example/nonblocking/third_party_lib.cpp:138-156 | the read handler takes the step of the model |
| `EchoServer.EchoConnection.HandleWrite` | doc_searcher/data/input/html/boost_asio/example/nonblocking/third_party_lib.cpp:158-176 | so does the write handler |
| `Serialization.WrittenIff` | doc_searcher/data/input/html/boost_asio/example/serialization/connection.hpp:60-71 | data is sent if and only if its size is below 2 to the 32, and its header then announces it |
| `Serialization.SizeOfIff` | doc_searcher/data/input/html/boost_asio/example/serialization/connection.hpp:112-124 | a header of spaces, hexadecimal digits and anything else announces the number the digits denote, and is refused if and only if there are no digits |
| `Serialization.HeaderParts` | doc_searcher/data/input/html/boost_asio/example/serialization/connection.hpp:112-124 | every header is of that form |
| `Serialization.ReadInvertsWrite` | doc_searcher/data/input/html/boost_asio/example/serialization/connection.hpp:50-130 | any sequence of messages written one after another is read back one by one, and reading goes on with the bytes after them |
| `Serialization.ReadsWhatIsComplete` | doc_searcher/data/input/html/boost_asio/example/serialization/connection.hpp:82-130 | with any part of the next message there, exactly the messages before it have been read and no error is reported |
| `Serialization.Connection.AsyncWrite` | doc_searcher/data/input/html/boost_asio/example/serialization/connection.hpp:52-79 | header and data are sent together, or nothing when the header does not fit |
| `Serialization.Connection.HandleReadHeader` | doc_searcher/data/input/html/boost_asio/example/serialization/connection.hpp:100-130 | the data buffer gets the size the header announces; a header without a number is refused |
| `Ticks.LessThanMeans` | doc_searcher/data/input/html/boost_asio/example/timers/tick_count_timer.cpp:75-82 | the comparison of two wrapped times holds if and only if, give or take whole wraps, the second true time is at or after the first by less than 2 to the 31 |
| `Ticks.LessThanItself` | doc_searcher/data/input/html/boost_asio/example/timers/tick_count_timer.cpp:75-82 | it holds of equal times |
| `Ticks.NeitherLessThan` | doc_searcher/data/input/html/boost_asio/example/timers/tick_count_timer.cpp:75-82 | it holds neither way of exactly the times that are 2 to the 31 apart |
| `Ticks.LessThanIsNotLater` | doc_searcher/data/input/html/boost_asio/example/timers/tick_count_timer.cpp:75-82 | for true times less than a wrap apart, it tells whether the first is not later than the second if and only if their difference is a 32-bit signed number |
| `Ticks.SubtractIsDifference` | doc_searcher/data/input/html/boost_asio/example/timers/tick_count_timer.cpp:64-72 | the difference of two wrapped times is the true difference if and only if that is a 32-bit signed number |
| `Ticks.AddThenSubtract` | doc_searcher/data/input/html/boost_asio/example/timers/tick_count_timer.cpp:56-72 | adding any duration and subtracting the time again gives the duration back |
| `Ticks.SubtractThenAdd` | doc_searcher/data/input/html/boost_asio/example/timers/tick_count_timer.cpp:56-72 | adding the difference of any two tick counts to the second gives the first |

## Left out

- The parsers, replies and handlers of `http/server2` and `http/server3`, and the reply and file handler of
  `http/server4`: copies of the code modelled here.
- `http/server/request_handler.cpp`: URL decoding, the checks on the path and the choice of file type are single-call
  string functions without state, and the rest reads files.
- Status lines and stock replies: `ToBuffers` takes the status line as a parameter.
- Version numbers are mathematical integers: a version too large for `int` is not modelled.
- `boost::lexical_cast` is a parameter, any function from text to a length or a failure; `content_length_` after a
  failed conversion, which nothing reads, keeps its old value in the model.
- Use of a parser after it has returned true or false, which its callers never do; the coroutine parser model covers
  it, the table-driven one has the same transitions as the code.
- Characters above 127 stand for the bytes 128 to 255, which both parsers treat alike.
- C library details of number formats: signs, prefixes and white space other than the space character in
  hexadecimal input, values above 32 bits in `atoi`, and the `%4d` conversion of a `size_t`, taken to print the number.
- Sockets, resolvers, SSL, daemons, Windows services and real threads: the library is modelled by its operations, its
  timers and its ready handlers.
- The accept loops go on after an error as after a success, and only the success starts a session; several chat
  servers in one process are independent of each other.
- `udp_broadcaster` of the timeouts server, and what the client prints of the lines it reads.
- Receive buffers of the timeouts programs: a completed read is a line or an error.
- A call of `stop` on an asynchronous client that has not been started.
- Control connections of the porthopper that break, and clients that end: a client's last subscription stays, as it
  does in the code.
- Frame payloads made with `std::sin`: any payload is allowed.
- The two-second delay before a control request is handled: it is handled at any time, in the order of its connection.
- Boost archives in the serialization example: data is any bytes. An empty archive, which is never written, is read as
  empty data.
- The order in which a room or channel delivers one message to its members, which nothing depends on.
- Decoding of IPv4 headers in `ping`: a reply is given by its sequence number once type and identifier have matched.
- The remaining examples (handler allocators, the mime table, SOCKS4, iostreams, local sockets, multicast, the
  one-operation echo servers): each is a short straight sequence of library calls, with no state of its own to reason
  about.
