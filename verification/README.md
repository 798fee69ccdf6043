# A verified model of h11r

`h11r` is a Sans-I/O HTTP/1.1 engine: a `Connection` owns the protocol state and
the input buffer of one endpoint, takes received bytes, reports events and
returns the bytes to send.  This project models its three core files and proves
what they promise, over every input and every sequence of calls.

## Layout

| files | what they hold |
|---|---|
| `Prelude`, `Bytes`, `Numbers` | byte classes, trimming and lists, checked number parsing |
| `Scan`, `Buffer`, `ChunkLine` | incremental searches, the compacting buffer, chunk-size lines and their grammar |
| `Fields`, `Heads` | header fields and framing, validity and serialization of heads |
| `Lifecycle`, `LifecycleRuns` | the joint lifecycle of both actors, its invariant, confluence and delivery |
| `ConnectionModel`, `Connection` | one connection as a value, and the object that updates it in place |
| `Coupling`, `Polling` | the invariant of every run, progress and byte conservation |
| `Fragmentation`, `FragmentedRuns`, `BodyFragments`, `EndOfStream` | cutting the stream, and where it ends |
| `ChunkedBodies`, `CloseDelimitedBodies`, `Agreement`, `RoundTrip` | what one endpoint sends, read by the other |
| `Cuts`, `TrailerCuts`, `Hints` | heads and trailers under any parser, and saved searches over whole runs |
| `Feeding`, `Exchanges`, `Endpoints` | whole exchanges, conversations and runs of two endpoints |
| `Pipelining`, `Legs` | requests that do not wait, and messages that travel in pieces and overtake each other |
| `History`, `HistoryLaws`, `Closure` | what whole runs let happen, and what they announce |
| `Inputs`, `EarlyVerdicts`, `Instances` | the inputs for what does not hold, and exchanges that meet the hypotheses of what does |

State the source updates in place is a class here: `ConnectionState`,
`SectionProgress`, `Buffer` and `Connection`.  Every method of `Connection` is
proved to have the effect that `ConnectionModel` gives it on the connection's
value, so that the theorems, which are about that value, hold of the object.

## Modelling decisions

- The head and trailer parser (`httparse`) and the syntax of a Host value are a
  parameter, `Externals`.  All that is assumed of it everywhere is that a
  completed parse has consumed at least one byte and no more than there are.
- Where a theorem needs more of the parser, it says so: `Judges` states that a
  section is judged only when complete, and then by its own bytes.  The theorems
  about body content need none of it.
- Bytes are characters below 256; `usize` is taken to be 64 bits wide.
- Errors carry the suggested status and no text.
- A poll of a closed peer reports the close again, as the source does.

## What turned out not to hold

- Moves of the two actors do not always commute.  `LifecycleRuns.DiamondExactly`
  gives the exact condition and `LifecycleRuns.EarlyAnswerRaces` the input.
- The chunk-line parser does not accept the whole grammar of section 7.1.1 of
  RFC 9112.  `ChunkLine.ChunkLineExact` gives the exact condition and
  `ChunkLine.LooseLineRefused` the input.
- The two endpoints can disagree on `client_is_waiting_for_100_continue`.  A client
  drops the flag when it ends its message; a server keeps it until content comes
  or it answers.  `HistoryLaws.WaitingExactly` says when either flag is set,
  `RoundTrip.RequestRoundTrip` when they differ, and `Inputs.FlagsDiffer` gives the
  input.
- A server does not always say that it will close.  What the head says is decided
  before the response itself can lose reuse, which it does when it refuses a CONNECT
  and when it answers without a request.  `Closure.ClosureExactly` gives the exact
  condition, `Inputs.ClosureUnsaid` and `Instances.EarlyClosureRun` the inputs.
- The diagnosis of a malformed head can depend on how it was cut, because a saved
  search postpones parsing: the parser sees the first fragment and then nothing
  until the head is complete.  `Cuts.HeadCutsExactly` says exactly when two cuts
  differ, `Cuts.HeadCutInTwo` and `FragmentedRuns.HeadHintExactly` for two pieces and
  for one poll.  `EarlyVerdicts.HeadPiecesShow` gives the inputs, for every parser that
  rejects a head before its end, and `EarlyVerdicts.NulShows` one of two bytes: `httparse`
  takes `a` for the beginning of a method and rejects a NUL in it, so a server
  rejects the two bytes received together and awaits more when they come apart.
- Nor is the diagnosis of malformed trailers independent of the fragments.  What
  counts is not the first fragment but what follows the last chunk line when that
  completes.  `TrailerCuts.TrailerCutsExactly` says exactly when two cuts differ,
  `TrailerCuts.TrailersCutInTwo` and `TrailerCuts.TrailersHintExactly` for two pieces and for
  one poll, and `EarlyVerdicts.TrailerPiecesShow` gives the inputs.

## Model

| member | source | states |
|---|---|---|
| `Lifecycle.RoundConverges` | crates/h11r/src/state.rs:241-284 | one round of the joint rules keeps what the rules converge to, and either lowers the rank or changes nothing, and then the state is that fixed point |
| `Lifecycle.ConnectionState.Stabilize` | crates/h11r/src/state.rs:241-284 | the rule loop terminates from every state and leaves the closed form `Settle` of where it started |
| `Lifecycle.ConnectionState.ProcessEvent` | crates/h11r/src/state.rs:153-209 | accepts an event exactly when the transition and its cross effect are allowed; the new joint state is the settled one, a refused event changes nothing |
| `Lifecycle.ConnectionState.Disable` | crates/h11r/src/state.rs:211-214 | losing reuse, then the joint rules |
| `Lifecycle.ConnectionState.ProcessError` | crates/h11r/src/state.rs:220-226 | the failed actor, then the joint rules |
| `Lifecycle.ConnectionState.StartNextCycle` | crates/h11r/src/state.rs:228-238 | succeeds exactly when both messages are done, reuse is intact and no proposal is pending; otherwise changes nothing |
| `LifecycleRuns.SettleIsStable` | crates/h11r/src/state.rs:241-284 | what the joint rules converge to is a fixed point of them |
| `LifecycleRuns.ActKeepsSound` | crates/h11r/src/state.rs:153-284 | every action keeps the joint invariant: stable, proposals only while the server owes an answer or has accepted one, switching beats closing, a finished actor means reuse is intact, no response obligation without a request |
| `LifecycleRuns.EveryRunIsSound` | crates/h11r/src/state.rs:153-284 | the joint invariant holds after every sequence of accepted and refused actions |
| `LifecycleRuns.LostReuseStaysLost` | crates/h11r/src/state.rs:211-238 | once reuse is lost, no continuation of the run ever starts another cycle |
| `LifecycleRuns.DisableCommutes` | crates/h11r/src/state.rs:153-214 | losing reuse commutes with every enabled event |
| `LifecycleRuns.DiamondExactly` | crates/h11r/src/state.rs:153-284 | an enabled client move and an enabled server move can be taken in either order with the same result if and only if they do not race on a fresh connection |
| `LifecycleRuns.EarlyAnswerRaces` | crates/h11r/src/state.rs:166-200 | such a race exists: a server that answers before the request has arrived can no longer accept it |
| `LifecycleRuns.OrderIndependence` | crates/h11r/src/state.rs:153-284 | two accepted words of moves and cycles in which each actor does the same things in the same order end in the same joint state, however they are interleaved |
| `LifecycleRuns.Delivery` | crates/h11r/src/state.rs:153-284 | over any number of cycles, a move the sender could make is accepted when it arrives, although the receiver has moved on meanwhile, as long as no server speaks before the request of its cycle |
| `Buffers.Buffer.Extend` | crates/h11r/src/wire.rs:43-53 | appends to the unread bytes; total bytes moved plus the dead prefix never exceed the bytes consumed, and storage is at most twice the unread bytes afterwards |
| `Buffers.Buffer.Consume` | crates/h11r/src/wire.rs:54-56 | drops exactly the first bytes and keeps the amortized bound |
| `Buffers.Buffer.Take` | crates/h11r/src/wire.rs:57-61 | returns and drops exactly the first bytes |
| `Numbers.ParseNumberExact` | crates/h11r/src/wire.rs:428-437 | a number is parsed as n if and only if it is non-empty, all digits and its value n fits a 64-bit `usize` |
| `Numbers.PrintThenParse` | crates/h11r/src/wire.rs:428-437 | parsing inverts printing in every radix from 2 to 16, and refuses numbers too large for a `usize` |
| `Scan.FindCrlfIsFirst` | crates/h11r/src/wire.rs:510-515 | the search finds the first CRLF at or after its start, or there is none |
| `Scan.ResumedSearch` | crates/h11r/src/connection.rs:374-387 | a search from a hint that skipped no CRLF equals a search from the beginning |
| `Scan.SavedHintIsSound` | crates/h11r/src/connection.rs:374-387 | the hint saved after an unsuccessful search is sound for every longer buffer |
| `Scan.SectionProgress.Poll` | crates/h11r/src/wire.rs:67-93 | the loop computes the recursive scan from the saved progress, and saves where it stopped |
| `Scan.PollFindsFirst` | crates/h11r/src/wire.rs:75-92 | from any progress that has missed no end, the scan reports the first section end, or none and progress that again has missed none |
| `Scan.SectionEndIsFirst` | crates/h11r/src/wire.rs:75-92 | a fresh scan finds the first byte position that ends a section, stated on the bytes alone |
| `Scan.ResumedPoll` | crates/h11r/src/connection.rs:237-270 | over any growth of the buffer, the resumed scan reports an end exactly when, and where, a fresh one does |
| `ChunkLine.SkipOws` | crates/h11r/src/wire.rs:500-508 | stops at the first byte that is not whitespace |
| `ChunkLine.ParseQuotedString` | crates/h11r/src/wire.rs:481-498 | stops after the closing quote of the quoted string, or fails |
| `ChunkLine.ParseExtension` | crates/h11r/src/wire.rs:446-477 | one extension: its end as the recursive definition has it, or a refusal |
| `ChunkLine.ParseChunkLine` | crates/h11r/src/wire.rs:439-479 | the loop over extensions computes `ParseChunkHeader` |
| `ChunkLine.AcceptedLineDerives` | crates/h11r/src/wire.rs:439-479 | every accepted line is derived by the chunk-size and chunk-ext grammar of sections 7.1 and 7.1.1 of RFC 9112, with that size |
| `ChunkLine.ChunkLineExact` | crates/h11r/src/wire.rs:439-479 | a line is accepted with a size if and only if the grammar derives it with that size and no extension without a value is followed by whitespace before the next |
| `ChunkLine.LooseLineDerives` | crates/h11r/src/wire.rs:459-476 | the exception is in the grammar |
| `ChunkLine.LooseLineRefused` | crates/h11r/src/wire.rs:459-476 | and the parser refuses it |
| `ChunkLine.ChunkSizeRoundTrip` | crates/h11r/src/connection.rs:740-755 | a printed chunk size is read back, for every `usize` |
| `Bytes.TrimSplits` | crates/h11r/src/wire.rs:726-740 | trimming removes whitespace at both ends and nothing else, leaving none there |
| `Bytes.JoinThenSplit` | crates/h11r/src/wire.rs:324-338 | joining list members with commas and splitting the result gives the members back |
| `Fields.FramingExact` | crates/h11r/src/wire.rs:346-415 | a field section selects chunked framing if and only if chunked is the one coding of an HTTP/1.1 message without a length, and a fixed length if and only if there is no coding and every length value denotes it |
| `Fields.RejectionExact` | crates/h11r/src/wire.rs:346-415 | rejected framing is 501 if and only if a legal order of HTTP/1.1 codings includes one besides chunked, and 400 otherwise |
| `Fields.CloseOptions` | crates/h11r/src/wire.rs:324-338 | signalling closure leaves the connection options as they were without close and keep-alive, then close, when split again |
| `Fields.CloseSignalled` | crates/h11r/src/wire.rs:324-338 | afterwards the options include close, and fields of every other name have the same values |
| `Heads.WriteHeaders` | crates/h11r/src/wire.rs:791-798 | the loop appends the header lines, each with its CRLF |
| `Heads.SerializeRequest` | crates/h11r/src/wire.rs:742-756 | the bytes of a request head |
| `Heads.SerializeResponse` | crates/h11r/src/wire.rs:758-780 | the bytes of a response head |
| `Heads.HeadLengthExact` | crates/h11r/src/wire.rs:782-789 | the precomputed capacity is the exact length of the output |
| `Heads.FindNonEmptyLine` | crates/h11r/src/wire.rs:239-251 | the loop returns the first line that is not empty, without its line ending |
| `Heads.RequestScanned` | crates/h11r/src/wire.rs:75-92 | for every valid request and any bytes behind it, the scanner stops exactly at the end of the printed head |
| `Heads.ResponseScanned` | crates/h11r/src/wire.rs:75-92 | the same for every valid response |
| `Heads.TrailersScanned` | crates/h11r/src/wire.rs:75-92 | the same for every valid trailer section |
| `Heads.ReasonRecovered` | crates/h11r/src/wire.rs:239-251 | the first non-empty line of a printed response, past its thirteenth byte, is the reason phrase |
| `Heads.CloseKeepsValid` | crates/h11r/src/wire.rs:324-338 | signalling closure keeps a field section valid |
| `Connections.Connection.constructor` | crates/h11r/src/connection.rs:54-71 | a new connection |
| `Connections.Connection.ReceiveData` | crates/h11r/src/connection.rs:109-119 | input grows by the data, empty data marks the end of the stream, data after it is refused and changes nothing |
| `Connections.Connection.NextEvent` | crates/h11r/src/connection.rs:127-138 | one poll; an error poisons the peer and a client hides the status |
| `Connections.Connection.NextEventInner` | crates/h11r/src/connection.rs:140-187 | dispatch on the peer's state and the reader |
| `Connections.Connection.ReadHead` | crates/h11r/src/connection.rs:205-235 | head parsing with its retry hint and limits |
| `Connections.Connection.SectionReady` | crates/h11r/src/connection.rs:237-244 | whether parsing is worth a try, remembering the search |
| `Connections.Connection.WaitForSection` | crates/h11r/src/connection.rs:246-270 | an incomplete section: too long, truncated, or more data needed |
| `Connections.Connection.AcceptRequest` | crates/h11r/src/connection.rs:272-306 | a request head: validity, framing, lifecycle move and what it leaves in the fields |
| `Connections.Connection.AcceptInformational` | crates/h11r/src/connection.rs:308-340 | a 1xx head, with the rules for 101 |
| `Connections.Connection.AcceptFinal` | crates/h11r/src/connection.rs:341-371 | a final head; rejected framing leaves the lifecycle moved, as in the source |
| `Connections.Connection.ReadSize` | crates/h11r/src/connection.rs:373-408 | chunk-size lines, resumed, limited and parsed |
| `Connections.Connection.ReadBody` | crates/h11r/src/connection.rs:409-425 | chunk data with its boundary marks |
| `Connections.Connection.ReadBodyEnd` | crates/h11r/src/connection.rs:426-436 | the CRLF behind a chunk |
| `Connections.Connection.ReadTrailers` | crates/h11r/src/connection.rs:437-455 | the trailer section |
| `Connections.Connection.SendRequest` | crates/h11r/src/connection.rs:527-560 | a request is sent and recorded, or refused with every field as it was |
| `Connections.Connection.SendInformationalResponse` | crates/h11r/src/connection.rs:568-607 | a 1xx response is sent and recorded, or refused with every field as it was |
| `Connections.Connection.FrameResponse` | crates/h11r/src/connection.rs:634-663 | the framing of a final response and the field it adds |
| `Connections.Connection.SendResponse` | crates/h11r/src/connection.rs:615-689 | a final response is sent and recorded, or refused with every field as it was |
| `Connections.Connection.SendDataFraming` | crates/h11r/src/connection.rs:736-760 | the bytes around a body, and the content still owed |
| `Connections.Connection.SendData` | crates/h11r/src/connection.rs:697-703 | a body is framed, or refused with every field as it was |
| `Connections.Connection.EndOfMessage` | crates/h11r/src/connection.rs:773-795 | the end of a message, or a refusal with every field as it was |
| `Connections.Connection.StartNextCycle` | crates/h11r/src/connection.rs:803-815 | a new cycle on the same bytes, or a refusal with every field as it was |
| `Connections.Connection.Close` | crates/h11r/src/connection.rs:823-827 | the local close, or a refusal with every field as it was |
| `Coupling.OwnActor` | crates/h11r/src/state.rs:289-335 | which state each accepted event leaves its actor in, and from which it is accepted |
| `Coupling.OtherActor` | crates/h11r/src/state.rs:153-284 | an event of one actor never ends, fails or closes the other's message |
| `Coupling.BodyEventsAccepted` | crates/h11r/src/connection.rs:457-478 | while a body is read, content changes no state and its end is never refused |
| `Coupling.AfterCoupled` | crates/h11r/src/connection.rs:54-827 | every call keeps the coupling of reader, writer and lifecycle |
| `Coupling.EveryRunIsCoupled` | crates/h11r/src/connection.rs:54-827 | after any calls: a reader exactly while the peer sends a body, a writer exactly while the local actor does, except behind a successful CONNECT or a failed peer; the local actor never fails; closed means at the end of the stream with nothing unread |
| `Coupling.NextReadsOn` | crates/h11r/src/connection.rs:127-187 | a poll consumes a prefix of the unread bytes and leaves role, limits, writer and end of stream alone |
| `Polling.NextAdvances` | crates/h11r/src/connection.rs:127-187 | each event uses up input or ends the peer's message |
| `Polling.DrainIsBounded` | crates/h11r/src/connection.rs:127-187 | from L unread bytes at most L + 1 events come before a poll has nothing new to report |
| `Polling.Conservation` | crates/h11r/src/connection.rs:99-119 | over any calls, the unread bytes are a suffix of everything received |
| `Polling.PausedKeepsInput` | crates/h11r/src/connection.rs:140-161 | while the peer is done, closing or switching, polls consume nothing |
| `Polling.CleanClose` | crates/h11r/src/connection.rs:480-483 | the close is reported only at the end of the stream with every byte consumed |
| `Fragmentation.PollContinues` | crates/h11r/src/connection.rs:140-187 | how one poll of a longer stream continues the poll of a shorter one, for every reader, when the parser judges only complete sections, and by their own bytes |
| `FragmentedRuns.HintsIrrelevant` | crates/h11r/src/connection.rs:237-270 | the saved search hints do not change what a poll reports, when the parser judges only complete sections, and by their own bytes |
| `FragmentedRuns.DrainSplit` | crates/h11r/src/connection.rs:127-187 | draining, receiving more and draining again reports what draining once does, under the same condition on the parser |
| `FragmentedRuns.FragmentationInvariance` | crates/h11r/src/connection.rs:109-187 | however a stream is cut, the trace of events, the outcome, the unread bytes and the whole state are the same, for every parser that judges complete sections by their own bytes |
| `FragmentedRuns.HeadHintExactly` | crates/h11r/src/connection.rs:237-270 | for every parser, a poll for a head reports the same with a saved search as without if and only if the head is complete, or not judged yet, or judged as a head that is too long would be; the search it asks about is the one `Hints.EveryRunKeepsHints` keeps |
| `Hints.EveryRunKeepsHints` | crates/h11r/src/connection.rs:237-270 | whatever the calls on a new connection, unless the peer has failed, a saved search is one of the section being awaited and has missed no end, for every parser that settles each section whose end has come |
| `Cuts.HeadCutsExactly` | crates/h11r/src/connection.rs:205-270 | for every parser, two cuts of a head that is incomplete or rejected come to the same if and only if they report the same, and what a cut reports is told from the verdict on its first fragment, from whether a fragment leaves the head incomplete and too long, and from the verdict on the complete head |
| `Cuts.HeadCutInTwo` | crates/h11r/src/connection.rs:205-270 | for every parser, a head awaited after its first piece comes to the same as the same bytes at once if and only if those are not judged yet, or judged as a head that is too long would be |
| `EarlyVerdicts.HeadPiecesShow` | crates/h11r/src/connection.rs:205-270 | for every parser that awaits one piece of a head and rejects two: a new server rejects both at once, and still awaits more after one and then the other |
| `EarlyVerdicts.NulShows` | crates/h11r/src/connection.rs:205-270 | such a head is the letter `a` and a NUL |
| `TrailerCuts.TrailersHintExactly` | crates/h11r/src/connection.rs:237-270 | for every parser, a poll for trailers reports the same with a saved search as without if and only if they are complete, or not judged yet, or too long |
| `TrailerCuts.TrailerCutsExactly` | crates/h11r/src/connection.rs:373-455 | for every parser, two cuts of a last chunk line and of trailers that are incomplete or rejected come to the same if and only if they report the same, and what a cut reports is told from the verdict on what follows that line when it completes, from whether a later fragment leaves them incomplete and too long, and from the verdict on the complete section |
| `TrailerCuts.TrailersCutInTwo` | crates/h11r/src/connection.rs:437-455 | for every parser, trailers awaited after a first piece, possibly empty, come to the same as the same bytes at once if and only if those are not judged yet, or too long |
| `EarlyVerdicts.TrailerPiecesShow` | crates/h11r/src/connection.rs:437-455 | for every parser that rejects trailers before their end: a new server that has received a chunked request head rejects them together with the last chunk line, and awaits more of them when they follow it |
| `EarlyVerdicts.StrictReads` | crates/h11r/src/connection.rs:205-235 | such a parser exists: one that rejects a NUL on sight and reads back every valid request |
| `Feeding.FeedIsRun` | crates/h11r/src/connection.rs:109-138 | feeding a stream in fragments and draining after each is a run of `receive_data` and `next_event` calls that has received exactly that stream |
| `BodyFragments.BodyFragmentation` | crates/h11r/src/connection.rs:162-187 | for every parser, body bytes and chunk boundaries do not depend on the fragments, for fixed-length, chunked and close-delimited bodies |
| `BodyFragments.BodyFragmentationExactly` | crates/h11r/src/connection.rs:373-435 | and up to a trailer section nothing does: error status, reader, unread bytes, state |
| `FragmentedRuns.PlainBodiesAreOrderly` | crates/h11r/src/connection.rs:162-187 | fixed-length and close-delimited bodies never consult the parser |
| `EndOfStream.EndsOnlyWhole` | crates/h11r/src/connection.rs:162-187 | the end of a message is reported only with its declared length read, or at the end of the stream for a close-delimited body, or behind the last chunk and a parsed trailer section, and the unread bytes start right there |
| `EndOfStream.NoWaiting` | crates/h11r/src/connection.rs:485-491 | at the end of the stream no poll asks for more |
| `EndOfStream.EofSettles` | crates/h11r/src/connection.rs:127-187 | draining at the end of the stream ends closed, failed or paused |
| `ChunkedBodies.BodiesSent` | crates/h11r/src/connection.rs:697-760 | every list of bodies of a chunked message can be sent; empty ones write nothing |
| `ChunkedBodies.ChunkedEnds` | crates/h11r/src/connection.rs:773-795 | a chunked message ends exactly with valid trailers, writing the last chunk and the trailer section |
| `ChunkedBodies.ChunksRead` | crates/h11r/src/connection.rs:373-435 | the written chunks drain as the same bytes in the same chunks, and the reader stands exactly at the trailer section |
| `RoundTrip.ContentRoundTrip` | crates/h11r/src/connection.rs:373-435 | for any fragments, any parser and anything behind the last chunk, the content reported is the bodies, byte for byte and chunk for chunk |
| `RoundTrip.ChunksStand` | crates/h11r/src/connection.rs:373-408 | for any fragments, when the last chunk is all there is, the reader stands at the trailer section with nothing unread and nothing else changed |
| `RoundTrip.FixedRead` | crates/h11r/src/connection.rs:162-175 | a body of a declared length drains as its bytes and its end, leaving what follows unread |
| `RoundTrip.FixedContentSent` | crates/h11r/src/connection.rs:736-795 | a message of a declared length that can be ended has written exactly that many bytes, and no trailers |
| `RoundTrip.BodyRead` | crates/h11r/src/connection.rs:373-455 | chunks and trailer section together drain to the end of the message, leaving what follows unread |
| `RoundTrip.ContentSent` | crates/h11r/src/connection.rs:697-795 | a chunked message can always be sent to its end |
| `RoundTrip.RequestRoundTrip` | crates/h11r/src/connection.rs:272-306 | a request with its content, chunked or of a declared length, as the client writes it and the transport cuts it, is what the server reports, with the rest unread, both lifecycles equal, and the method, offers and version recorded; the server's 100 (Continue) flag survives exactly when it was set and no content came, the client's never does |
| `RoundTrip.ResponseRoundTrip` | crates/h11r/src/connection.rs:308-371 | the same for a response, with the head as the server completed it |
| `CloseDelimitedBodies.CloseDelimitedRoundTrip` | crates/h11r/src/connection.rs:174-184 | the same for a response that ends with the connection: head and body are reported as the fragments come, the end of the stream ends the body and closes the connection, and a server that closes after its message is in the client's state |
| `Exchanges.WholeExchange` | crates/h11r/src/connection.rs:54-827 | a ready client and a ready server exchange a request and its response in any fragments: each reports exactly what the other sent, both end in the same joint state, and both can start the next cycle exactly when neither message gave up reuse and the request was no CONNECT, and are then ready again |
| `Exchanges.Conversation` | crates/h11r/src/connection.rs:54-827 | over any number of such exchanges on one connection, the server reports exactly the requests and the client exactly the responses, in order, and both are in the same joint state |
| `Pipelining.PipelinedRequests` | crates/h11r/src/connection.rs:140-161 | requests sent back to back, whatever the schedule of arrivals and answers: what the server has reported begins the list of all requests, and once all bytes have arrived it has reported exactly the requests it answered and the next one, and keeps exactly the bytes of the others unread |
| `Legs.LegArrives` | crates/h11r/src/connection.rs:54-827 | a request head, content, an informational response, a response head or a whole message, sent by either endpoint and received in any fragments, is reported by the other and leaves both in the same joint state with what each is sending matched by what the other reads |
| `Legs.EverySchedule` | crates/h11r/src/connection.rs:54-827 | over any schedule of such legs and new cycles, informational responses and answers that overtake the upload included, each endpoint has reported exactly what the other said, in order, and both are in the same joint state |
| `Instances.FetchCarried` | crates/h11r/src/connection.rs:54-827 | from two new connections, `GET /` answered with 204 meets the hypotheses of the exchange |
| `Instances.FetchClosed` | crates/h11r/src/connection.rs:174-184 | from two new connections, `GET /` over HTTP/1.0 answered with any content that ends with the connection is reported by the client and closes it |
| `Instances.FetchTravels` | crates/h11r/src/connection.rs:54-827 | from two new connections, the same request can travel as a leg |
| `Instances.TwoFetches` | crates/h11r/src/connection.rs:140-161 | a new server that receives `GET /` twice in one piece reports it once and keeps the bytes of the second |
| `Agreement.PlansAgree` | crates/h11r/src/connection.rs:527-553 | what the sender decided about its request is what the receiver decides |
| `Agreement.RequestAgreement` | crates/h11r/src/connection.rs:272-306 | an emitted request is accepted, selects the reader of the sender's writer and makes the same lifecycle move on both sides |
| `Agreement.InformationalAgreement` | crates/h11r/src/connection.rs:308-342 | the same for informational responses |
| `Agreement.PlanFraming` | crates/h11r/src/connection.rs:615-672 | the planned head selects the planned framing for its reader, and a body that ends with the connection always says close |
| `Agreement.ResponseAgreement` | crates/h11r/src/connection.rs:308-371 | every head `send_response` emits is accepted, selects the matching reader and leaves both sides with the same lifecycle |
| `Agreement.EmittedHeadIsValid` | crates/h11r/src/connection.rs:615-672 | completing a response keeps its field section valid |
| `Endpoints.CallMoved` | crates/h11r/src/connection.rs:54-827 | every call that does not fail moves the lifecycle by exactly the move recorded for what it sent or reported |
| `Endpoints.EndpointsAgree` | crates/h11r/src/connection.rs:54-827 | a client and a server, each driven by any calls, that have seen the same moves of each actor in whatever interleaving are in the same joint state, and may start the next cycle only together |
| `History.CallKept` | crates/h11r/src/connection.rs:54-827 | whatever a call sends or reports, the book kept from the history alone allows it, and stays in agreement with the connection |
| `History.EveryRunIsAllowed` | crates/h11r/src/connection.rs:54-827 | every history of every run is one the book allows |
| `HistoryLaws.RequestsSeparated` | crates/h11r/src/state.rs:166-238 | between two requests, sent or received, the first request, its final response and both endings have happened and a cycle was started after them |
| `HistoryLaws.NoReuseAfterLoss` | crates/h11r/src/connection.rs:493-498 | after a close token, HTTP/1.0, a close-delimited body, an early response or a rejected CONNECT, no cycle ever starts |
| `HistoryLaws.NoReuseAfterSwitch` | crates/h11r/src/state.rs:228-238 | after a 101 or a successful answer to a CONNECT, no cycle ever starts |
| `HistoryLaws.DeclaredLengthExact` | crates/h11r/src/connection.rs:736-795 | a message of declared length ends, sent or received, only after exactly that much content |
| `HistoryLaws.SwitchAsOffered` | crates/h11r/src/connection.rs:315-340 | a 101 names only protocols its request offered, and follows a 100 when the request expected one (sections 7.8 and 10.1.1 of RFC 9110) |
| `HistoryLaws.WaitingExactly` | crates/h11r/src/connection.rs:92-94 | `client_is_waiting_for_100_continue` is set exactly when some request expected a 100 and nothing has lifted that since, unless the peer failed |
| `Inputs.FlagsDiffer` | crates/h11r/src/connection.rs:472-478 | from new connections: the client sends a chunked request that expects a 100 and ends it without content, the server receives exactly those bytes and polls; the lifecycles are equal and the flags differ, for every parser that reads the request back |
| `Inputs.CannedReads` | crates/h11r/src/connection.rs:205-235 | such parsers exist for every valid request |
| `Closure.EmittedOptions` | crates/h11r/src/connection.rs:664-672 | the head that goes out says close if and only if the caller said so, or it is no switch and reuse was lost before or either side speaks HTTP/1.0 |
| `Closure.ClosureExactly` | crates/h11r/src/connection.rs:664-678 | a response that leaves the connection not reusable says so if and only if reuse was not lost by this very response, as the refusal of a CONNECT or as an answer without a request; and a response that says close is never followed by reuse |
| `Closure.ClosureOfRuns` | crates/h11r/src/connection.rs:664-678 | the same over every run of a server, in terms of the request it is answering |
| `Inputs.ClosureUnsaid` | crates/h11r/src/connection.rs:664-678 | from a new server: a CONNECT over HTTP/1.1 is received, polled and refused, the response does not say close and the connection is not reusable |
| `Inputs.EarlyClosureUnsaid` | crates/h11r/src/connection.rs:664-678 | nor does an answer without a request in any later cycle of an HTTP/1.1 connection |
| `Instances.EarlyClosureRun` | crates/h11r/src/connection.rs:664-678 | from a new server: `GET /` over HTTP/1.1 is received, polled and answered with 204, the next cycle is started and answered before there is a request; that response does not say close and the connection is not reusable |

## Left out

- `httparse`, with `parse_request_head`, `parse_response_head`, `copy_headers` and the unfolding of obsolete line folding: external parsing; a parameter here.
- Host and authority syntax: a flat predicate over one value; a parameter here.
- Cuts of a head or a trailer section that a parser completes before its end, or judges differently once its end has come: `Cuts.HeadCutsExactly` and `TrailerCuts.TrailerCutsExactly` are about sections that are incomplete or rejected; for accepted ones `FragmentedRuns.FragmentationInvariance` asks that the parser judge complete sections by their own bytes. Trailers on the client side are unfolded in the whole buffer, which belongs to the parser.
- `send_data_parts`: the same bytes as `send_data`, around a body object that is passed through.
- Error texts, formatting, and allocation tactics such as borrowed buffers and uninitialized header storage.
- The Python bindings, examples, benchmarks and fuzz harnesses: no protocol logic of their own.
- Word sizes other than 64 bits.
- LifecycleRuns.Delivery: one direction only; the converse would have to speak of moves a receiver accepts by accident. It assumes that no server speaks before the request of its cycle, and `LifecycleRuns.EarlyAnswerRaces` shows why.
- RoundTrip.ResponseRoundTrip: leaves out bodies that end with the connection, whose end is not on the wire; `CloseDelimitedBodies.CloseDelimitedRoundTrip` is their round trip.
- Exchanges.WholeExchange: one final response after the whole request; `Legs.EverySchedule` covers informational responses and answers that overtake the upload, and `Pipelining.PipelinedRequests` requests that do not wait for the answer.
- Exchanges.Conversation: the same, exchange by exchange.
- Legs.EverySchedule: each leg arrives before the next one is sent, and a head travels ahead of its content only when that is not empty and does not end with the connection; legs that cross on the wire are covered by `LifecycleRuns.Delivery` and `Endpoints.EndpointsAgree`, not as bytes end to end.
- Endpoints.EndpointsAgree: assumes that no poll failed, since an error at one endpoint is not visible to the other, and takes as given that both have seen the same moves of each actor; `Legs.EverySchedule` and `Exchanges.Conversation` derive that from the bytes for the schedules they cover.
- Inputs.EarlyClosureUnsaid: stated of one state; `Instances.EarlyClosureRun` is the run that reaches it.
