# A model of lambdatech networking

A Dafny model of the networking library's core: the DNS wire codec, the event loop with its poller,
`tcp::socket`, `tcp::server`, the DNS client, the thread pool and the latency histograms. It proves what
these keep over every input, every run or every interleaving. `dafny verify dfyconfig.toml` checks it all.

How it is laid out:

- `Wire`, `Names`, `NameEncoding`, `Messages` are the codec as functions of octets; `Bits` ties their ranges
  and quotients to the masks and shifts of the source; `Codec` is the reader, the writer, `parse` and
  `serialize` as loops over a cursor or a growing buffer, proved equal to those functions.
- `SocketModel` gives `tcp::socket` as a function of arbitrary finite scripts: what the kernel answers to
  send and recv, and what listeners call back, re-entrantly. `SocketFrame`, `SocketProofs`, `SocketInput` and
  `SocketHalfClose` hold the theorems over all runs, `SocketTraces` what each call emits for every sequence of
  kernel answers, `Socket` the class whose methods are proved equal to the model. `Server` follows the same
  plan, and `ServerSockets` joins it with the sockets of its connections. `ClientModel`, `ClientProofs`,
  `ClientTimers`, `ClientDeadlines`, `ClientEarly`, `ClientReplies`, `Client` are the DNS client.
- `LoopTables`, `Timers`, `LoopModel` are the event loop as a step system in which every lock section and
  every system call is one step and any threads interleave. `LoopProofs`, `LoopRaces`, `LoopDispatch` and
  `LoopCalls` hold the theorems, the last by the calls in the steps of a run; `EventLoop` holds its lock sections as loops. `PoolModel`, `PoolProofs`, `Pool` do the same
  for the thread pool.
- `HistogramModel` and `Histogram` compare the table of counts with sorting the samples.

What the code does against its intent; each has its example and its condition in the table:

- A drain listener that writes and calls `end()` makes `on_io` shut the write side down over the new backlog
  (`PrematureShutdown`, `EarlyShutdownExact`).
- An `end()` called while connecting shuts the write side down only with the first drain or the next `end()`
  (`EndedWhileConnecting`, `HalfCloseIssued`).
- Threads that change the watch of one descriptor at a time can leave the loop's and the poller's tables
  different (`RacedTables`, `LastChangeLastIsNotEnough`, `RacesDecided`, and `RaceDecided` for two threads).
- An interrupted `poll` counts as zero events without clearing the event list, so old events run again
  (`DispatchedTwice`, `InterruptedWaitExact`).
- A timeout of 2^31 ms or more is cut to 32 bits, and may become an infinite wait (`FarTimerWaitsForEver`,
  `PollWaitsNoLonger`).
- More than 65535 questions are all written under a count cut to 16 bits (`RoundTrip`, `TruncationDetected`).
- A DNS query whose random id is still outstanding loses its handler: it is never answered, nor timed out
  (`ClashLosesHandler`, `ClashExactly`, `ExactlyOnce`).
- The timer of such a query stays armed, and may answer a query with that id, without an answer, before the
  deadline of that query (`ClashTimesOutAnother`, `EarlyTimeoutExact`).
- A DNS query that cannot be sent resolves its id, so it answers an outstanding query that drew the same one
  (`FailedSendAnswersAnother`, `FailedSendExact`).
- For percentiles above one, one histogram returns its last bucket and the other 0 (`SummaryAgrees`).

## Model

| member | source | states |
|---|---|---|
| Names.CapIsExact | include/lambdatech/networking/protocol/dns/wire/reader.hpp:76-127 | the walk capped at the buffer size yields labels and a final cursor exactly when the unbounded pointer walk of section 4.1.4 of RFC 1035 does |
| Names.TrailDistinct | include/lambdatech/networking/protocol/dns/wire/reader.hpp:80-100 | a walk that ends never visits a position twice, so a pointer loop never ends |
| Names.TrailShort | include/lambdatech/networking/protocol/dns/wire/reader.hpp:80-82 | pigeonhole: a walk that ends has at most as many steps as the buffer has octets |
| Names.WalkBounds | include/lambdatech/networking/protocol/dns/wire/reader.hpp:94-110 | the cursor stays within the buffer, and is strictly past its old place when a name was read |
| Names.WalkStable | include/lambdatech/networking/protocol/dns/wire/reader.hpp:76-127 | octets appended to the buffer change neither a name that was read nor where the cursor went |
| Codec.Reader.ReadU16 | include/lambdatech/networking/protocol/dns/wire/reader.hpp:41-49 | big-endian word at the cursor; on truncation nothing is read and the cursor stays |
| Codec.Reader.ReadName | include/lambdatech/networking/protocol/dns/wire/reader.hpp:76-127 | the loop computes the capped walk, joins the labels with dots, leaves the cursor past the name in the original stream; the name is at most 64 times the buffer size |
| Codec.Reader.ReadHeader | include/lambdatech/networking/protocol/dns/header.hpp:54-80 | the six words become the unpacked header; fails exactly when fewer than 12 octets remain, and then leaves the cursor past the whole words that were there |
| Codec.Writer.WriteU16 | include/lambdatech/networking/protocol/dns/wire/writer.hpp:31-34 | appends the two octets, high one first |
| Codec.Writer.WriteName | include/lambdatech/networking/protocol/dns/wire/writer.hpp:48-68 | the nested loops append the length-prefixed labels and the terminator; on refusal the labels before the bad one stay written |
| Codec.Writer.WriteHeader | include/lambdatech/networking/protocol/dns/header.hpp:82-98 | appends the 12 octets of the packed header |
| Codec.ParseMessage | include/lambdatech/networking/protocol/dns/message.hpp:60-87 | the loop over the question count computes the parse of the datagram, failures included |
| Codec.SerializeMessage | include/lambdatech/networking/protocol/dns/message.hpp:89-105 | the loop over the questions computes the serialized octets, or none when a name is refused |
| Bits.CellsByMasks | include/lambdatech/networking/protocol/dns/wire/reader.hpp:84-112 | the cell that the masks 0xC0 and 0x3F, the shift and the disjunction of read_name give is the cell of the model, for every buffer and cursor |
| Bits.FlagsArePacked | include/lambdatech/networking/protocol/dns/header.hpp:82-90 | the disjunction of masked and shifted fields that write builds up is the flag word of the model, for every header |
| Bits.HeadersByMasks | include/lambdatech/networking/protocol/dns/header.hpp:66-79 | taking the flag word apart by shifts and masks gives the header of the model, for all six words |
| NameEncoding.AcceptedExactly | include/lambdatech/networking/protocol/dns/wire/writer.hpp:45-68 | write_name accepts exactly dot-joined labels of 1 to 63 octets with at most one trailing dot |
| NameEncoding.AcceptedLocally | include/lambdatech/networking/protocol/dns/wire/writer.hpp:50-56 | the same by a local test: no two adjacent dots, no leading dot, a dot in every 64 octets |
| NameEncoding.PrefixFree | include/lambdatech/networking/protocol/dns/wire/writer.hpp:45-68 | no encoding is a proper prefix of another, and equal encodings come from names equal up to one trailing dot |
| NameEncoding.WireNameReads | include/lambdatech/networking/protocol/dns/wire/writer.hpp:48-68 | a written name, anywhere in a buffer, reads back as its labels and ends where it ends |
| Messages.FlagsRoundTrip | include/lambdatech/networking/protocol/dns/header.hpp:66-90 | unpacking the packed flag word gives every flag back, and the two codes cut to four bits |
| Messages.SerializeParses | include/lambdatech/networking/protocol/dns/message.hpp:60-105 | every serialized message parses, to itself with the codes cut, one trailing dot dropped per name and the questions cut to the 16-bit count; the cursor ends at the end when the count fits |
| Messages.RoundTrip | include/lambdatech/networking/protocol/dns/message.hpp:107-117 | the parsed message equals the original exactly when both codes are below 16, the count fits 16 bits and no name ends in a dot |
| Messages.SameMessageExactly | include/lambdatech/networking/protocol/dns/message.hpp:107-117 | two messages compare equal exactly when id, flags, both codes and questions agree; the four counts do not take part |
| Messages.DecompressionNormalises | include/lambdatech/networking/protocol/dns/message.hpp:60-105 | serializing any parsed datagram, whatever pointers and Z bits it used, reparses to the same message exactly when no name has an empty label or a trailing dot |
| Messages.DotFreeLabelsAreTidy | include/lambdatech/networking/protocol/dns/wire/reader.hpp:117-122 | labels without a dot octet always join to such a name |
| Messages.OrdinaryDatagramNormalises | include/lambdatech/networking/protocol/dns/message.hpp:60-105 | a datagram whose question labels hold no dot octet, however compressed, serializes and reparses to the same message |
| Messages.ParseStable | include/lambdatech/networking/protocol/dns/message.hpp:60-87 | a datagram that parses, followed by any octets, parses to the same message with the same cursor |
| Messages.TruncationDetected | include/lambdatech/networking/protocol/dns/message.hpp:89-105 | no strict prefix of a serialized message parses, exactly when the question count fits 16 bits |
| SocketProofs.RunKeeps | include/lambdatech/networking/protocol/tcp/socket.hpp:94-306 | every run of a dialed or adopted socket, over any kernel answers and any re-entrant listener calls, keeps the invariant below |
| SocketProofs.ByteConservation | include/lambdatech/networking/protocol/tcp/socket.hpp:94-111 | octets taken by the kernel followed by the backlog are the accepted chunks in order, across partial sends, blocks, interrupts, errors and re-entrant writes |
| SocketProofs.InterestMatchesBacklog | include/lambdatech/networking/protocol/tcp/socket.hpp:195-227 | while open, both tables hold the descriptor with read interest, and with write interest exactly when there is a backlog |
| SocketProofs.WriteReturns | include/lambdatech/networking/protocol/tcp/socket.hpp:92-111 | write on a socket that stays open returns false exactly when it leaves write interest, so a drain, behind; at every point where the invariant holds, so for the writes of listeners too |
| SocketTraces.DispatchTrace | include/lambdatech/networking/protocol/tcp/socket.hpp:206-283 | every dispatch at every open point, for all answers of the kernel and listeners that do nothing: the events in order, the octets sent, the answers left unread and whether it closes; data up to the first end, block or error, drain exactly when the backlog is gone, and a second error when a socket that failed to send is read |
| SocketTraces.WriteTrace | include/lambdatech/networking/protocol/tcp/socket.hpp:102-111 | write on an open socket queues behind a backlog, otherwise sends at once all that the kernel takes; true exactly when nothing is left |
| SocketTraces.WriteRefused | include/lambdatech/networking/protocol/tcp/socket.hpp:96-101 | write on any other socket returns false, emits an error, and close if it was connecting |
| SocketTraces.ConnectTrace | include/lambdatech/networking/protocol/tcp/socket.hpp:189-206 | a connecting socket reports the connection, or an error and close |
| SocketTraces.DialTrace | include/lambdatech/networking/protocol/tcp/socket.hpp:149-180 | a failed dial is one error on a closed socket; any other waits for the connection with write interest |
| SocketTraces.DestroyTrace | include/lambdatech/networking/protocol/tcp/socket.hpp:122-123 | destroy closes, and says so exactly when the socket was live |
| SocketTraces.EndTrace | include/lambdatech/networking/protocol/tcp/socket.hpp:113-120 | end shuts the write side down at once exactly when the socket is open with nothing to send |
| SocketTraces.DeadDispatch | include/lambdatech/networking/protocol/tcp/socket.hpp:208-210 | a dispatch to an idle or closed socket does nothing |
| SocketTraces.ListenersRun | include/lambdatech/networking/protocol/tcp/socket.hpp:189-306 | a listener that calls end does so whichever of data, end, error, close and connect it listens to |
| SocketProofs.ClosedAtMostOnce | include/lambdatech/networking/protocol/tcp/socket.hpp:285-306 | close is emitted at most once; a live socket is registered in both tables with equal interest; after close it is in neither; no other entry is touched |
| SocketProofs.HalfCloseIssued | include/lambdatech/networking/protocol/tcp/socket.hpp:113-120 | an ended open socket with an empty buffer has its write side shut down exactly when some end came while it was open or a drain was emitted |
| SocketProofs.EndedWhileConnecting | include/lambdatech/networking/protocol/tcp/socket.hpp:113-120 | a run that dials, ends and connects leaves an open, ended, empty socket that is not shut down |
| SocketProofs.ShutdownAfterFlush | include/lambdatech/networking/protocol/tcp/socket.hpp:212-227 | drain finds the buffer empty; the write side is never shut down over a backlog exactly when no drain listener returns leaving one on an ended live socket |
| SocketProofs.PrematureShutdown | include/lambdatech/networking/protocol/tcp/socket.hpp:219-226 | a run in which a drain listener writes, then ends, and the write side is shut down with an octet still buffered |
| SocketHalfClose.EarlyShutdownExact | include/lambdatech/networking/protocol/tcp/socket.hpp:212-227 | at every open point of every run, a writable dispatch whose listeners make given calls is followed by a shutdown over a backlog for some answers of the kernel, exactly when these calls write something, do not destroy the socket, and end it or find it ended |
| SocketHalfClose.CarefulListenersFlush | include/lambdatech/networking/protocol/tcp/socket.hpp:212-227 | over every run whose writable dispatches meet no such listeners, the write side is shut down only with nothing left to send |
| SocketHalfClose.QuietIsCareful | include/lambdatech/networking/protocol/tcp/socket.hpp:221-225 | listeners that never write are among those |
| SocketInput.ReceivedInOrder | include/lambdatech/networking/protocol/tcp/socket.hpp:234-258 | over every run the data events carry exactly the octets that recv handed over, in order, none lost or repeated, even when listeners write or close the socket between two chunks |
| SocketInput.DrainInputTakesInOrder | include/lambdatech/networking/protocol/tcp/socket.hpp:236-257 | the receive loop takes the kernel's answers from the front: those it leaves are the last of those given |
| Socket.TcpSocket.Write | include/lambdatech/networking/protocol/tcp/socket.hpp:92-111 | the new socket and the result are those of the model |
| Socket.TcpSocket.End | include/lambdatech/networking/protocol/tcp/socket.hpp:113-120 | the new socket is that of the model |
| Socket.TcpSocket.StartConnect | include/lambdatech/networking/protocol/tcp/socket.hpp:149-180 | the new socket is that of the model, failures included |
| Socket.TcpSocket.OnIo | include/lambdatech/networking/protocol/tcp/socket.hpp:182-232 | the new socket is that of the model for every state and readiness |
| Socket.TcpSocket.PumpOutput | include/lambdatech/networking/protocol/tcp/socket.hpp:262-283 | the send loop takes the script of kernel answers to the end state of the model |
| Socket.TcpSocket.DrainInput | include/lambdatech/networking/protocol/tcp/socket.hpp:234-258 | the receive loop, with listeners that may close the socket between two chunks, ends in the state of the model |
| Socket.TcpSocket.CloseWith | include/lambdatech/networking/protocol/tcp/socket.hpp:290-306 | the new socket is that of the model |
| LoopProofs.NoLostWakeup | include/lambdatech/networking/core/event_loop.hpp:95-141 | in every interleaving, a loop that waits with a timeout other than zero while deferred work, an earlier timer, a changed watch set or a quit request is there has a positive wake counter or a thread still on its way to the poke |
| LoopProofs.TablesAgree | include/lambdatech/networking/core/event_loop.hpp:60-90 | the loop's and the poller's tables agree at a handle never changed by two threads at a time, when no call is under way |
| LoopRaces.RacesDecided | include/lambdatech/networking/core/event_loop.hpp:60-90 | any number of threads, every run from the start: the tables agree at a handle exactly when the changes that reached the poller, folded in the poller's order, give what the last change of the loop's table wants |
| LoopRaces.EntriesFollowOrders | include/lambdatech/networking/core/event_loop.hpp:60-90 | from every state: the loop's entry is that of the last change begun, the poller's is the fold over the changes that reached it |
| LoopRaces.EachReachesPoller | include/lambdatech/networking/core/event_loop.hpp:60-90 | the changes of each thread reach the poller in its order, each once |
| LoopRaces.LastChangeLastIsNotEnough | include/lambdatech/networking/core/event_loop.hpp:60-90 | a run of three threads in which the poller sees the last change last and the tables differ |
| LoopRaces.RaceDecided | include/lambdatech/networking/core/event_loop.hpp:60-90 | with exactly two threads in flight on a handle, and whatever any thread does meanwhile, the tables end up equal there exactly when the poller saw the two changes in the order of the loop's table, or both drop, or an update comes after a drop, or both register the same interest |
| LoopRaces.FirstRaceDecided | include/lambdatech/networking/core/event_loop.hpp:60-90 | the same for the first race on a handle in every run from the start |
| LoopRaces.AloneSettles | include/lambdatech/networking/core/event_loop.hpp:60-90 | a call on a handle where the tables agree, with nobody in flight there, leaves the poller's step to make them agree again; a second call then starts such a race |
| LoopRaces.RacedTables | include/lambdatech/networking/core/event_loop.hpp:60-66 | a run in which two threads watch one handle and the tables differ with no call under way |
| LoopProofs.DeferredInOrder | include/lambdatech/networking/core/event_loop.hpp:209-216 | deferred functions run in the order of defer, each once, none skipped |
| LoopCalls.EveryDeferRuns | include/lambdatech/networking/core/event_loop.hpp:95-101 | in every run the defer calls, read off the steps, are what has run, the batch in progress and the queue, in this order |
| LoopCalls.RecordsAreCalls | include/lambdatech/networking/core/event_loop.hpp:95-141 | deferrals, reports, time and pending pokes of a run are those of its steps |
| LoopCalls.PassRunsAllDeferred | include/lambdatech/networking/core/event_loop.hpp:211-218 | a batch that has been run is everything that was queued at the swap |
| LoopCalls.PassFiresAllDue | include/lambdatech/networking/core/event_loop.hpp:180-197 | timers that have fired after a harvest are, in order, exactly those whose deadline had come; the others stay |
| LoopProofs.TimersFireOnce | include/lambdatech/networking/core/event_loop.hpp:180-197 | each timer fires at most once, never before its deadline, and never after it was cleared before harvest |
| LoopCalls.FiresWhenAsked | include/lambdatech/networking/core/event_loop.hpp:103-112 | a timer that fires was set by the call with its number, and not before the time of that call plus its delay |
| LoopCalls.ClearedNeverFires | include/lambdatech/networking/core/event_loop.hpp:114-117 | a timer cleared before it was harvested never fires, whatever follows |
| LoopCalls.QuitStops | include/lambdatech/networking/core/event_loop.hpp:130-141 | after a quit, until a restart, a loop at the top of its iteration stays there |
| LoopCalls.WaitOutcomes | include/lambdatech/networking/core/event_loop.hpp:204-209 | a wait that returns has seen the pokes that arrived; a failed one starts the iteration over |
| LoopProofs.NewWorkWaits | include/lambdatech/networking/core/event_loop.hpp:199-218 | a pass runs only what it took at its start, whatever is deferred or armed meanwhile |
| LoopDispatch.DispatchedAsReported | include/lambdatech/networking/core/event_loop.hpp:220-234 | conservation in every run: the events reported, and those found left over at an interrupted wait, are those dispatched, skipped because unwatched at their turn, dropped because of quitting, and still to come |
| LoopDispatch.UninterruptedDispatch | include/lambdatech/networking/core/event_loop.hpp:220-234 | the same for the reported events alone in every run without an interrupted wait |
| LoopDispatch.PassDispatchesAll | include/lambdatech/networking/core/event_loop.hpp:220-234 | a pass, whatever threads and callbacks do meanwhile, gives the events of its list their turns in order, dispatches exactly those watched at their turn, and leaves none out unless it stops for quitting |
| LoopDispatch.InterruptedWaitExact | include/lambdatech/networking/core/impl/posix/poller.hpp:91-101 | at every wait of every run: once it is interrupted, which reports nothing, the rest of the iteration can dispatch an event exactly when the event list of an earlier wait is not empty |
| LoopDispatch.DispatchedTwice | include/lambdatech/networking/core/impl/posix/poller.hpp:91-101 | a run from the start in which one event is reported once and dispatched twice |
| Timers.NextTimeoutExact | include/lambdatech/networking/core/event_loop.hpp:164-178 | without deferred work the timeout is the largest number of whole milliseconds that no deadline cuts short |
| Timers.NextTimeoutCases | include/lambdatech/networking/core/event_loop.hpp:164-172 | the loop waits without limit exactly with neither deferred work nor timers, and not at all with deferred work |
| Timers.PollWaitsNoLonger | include/lambdatech/networking/core/impl/posix/poller.hpp:89-90 | after the cast to a 32-bit int, poll waits no longer than the chosen timeout exactly when bit 31 of the millisecond count is clear |
| Timers.FarTimerWaitsForEver | include/lambdatech/networking/core/impl/posix/poller.hpp:89-90 | with one timer 2147483648 ms ahead the loop waits for ever |
| EventLoop.TimerQueue.SetTimeout | include/lambdatech/networking/core/event_loop.hpp:103-112 | ids count up from 1; the timer is appended, for any delay, negative ones included |
| EventLoop.TimerQueue.ClearTimeout | include/lambdatech/networking/core/event_loop.hpp:114-117 | every timer with the id is removed, the others keep their order |
| EventLoop.TimerQueue.ChooseTimeout | include/lambdatech/networking/core/event_loop.hpp:164-178 | the scan returns the timeout of the model |
| EventLoop.TimerQueue.HarvestDue | include/lambdatech/networking/core/event_loop.hpp:180-193 | erasing in place moves out exactly the due timers, in order, and keeps the others in order |
| ClientProofs.ExactlyOnce | include/lambdatech/networking/protocol/dns/client.hpp:55-114 | over every run with loss, repeats, reordering, send failure, several timers due at a time and handlers and error listeners that query again: a query whose id was already outstanding is never answered; any other is answered exactly once or still pending |
| ClientProofs.ClashExactly | include/lambdatech/networking/protocol/dns/client.hpp:55-71 | at every point of every run a query clashes exactly when its name is accepted and its id is pending at the call |
| ClientProofs.ClashLosesHandler | include/lambdatech/networking/protocol/dns/client.hpp:69-71 | a run of two queries with one id in which the second clashes and its handler never runs |
| ClientProofs.AnswersMatchIds | include/lambdatech/networking/protocol/dns/client.hpp:92-99 | a message reaches only the handler of the query with its id |
| ClientReplies.ReplyReachesHandler | include/lambdatech/networking/protocol/dns/client.hpp:92-114 | at every point of every run after the timer pass: the handler of the query with the id of a reply runs next, at once, and gets the message as parsed; a reply for any other id changes nothing |
| ClientReplies.ReplySettles | include/lambdatech/networking/protocol/dns/client.hpp:105-114 | then exactly that entry and its timer are gone |
| ClientReplies.MalformedChangesNothing | include/lambdatech/networking/protocol/dns/client.hpp:92-97 | a datagram that does not parse changes nothing of its own |
| ClientReplies.ErrorListenersAsk | include/lambdatech/networking/protocol/dns/client.hpp:93-97 | its error listeners run, and what they ask is asked |
| ClientReplies.QueryIsAsked | include/lambdatech/networking/protocol/dns/client.hpp:52-71 | every query is asked, with the time of the call plus the last timeout set, or 5000 ms, as its deadline |
| ClientReplies.SentIsPending | include/lambdatech/networking/protocol/dns/client.hpp:68-71 | one that is accepted and sent under a free id is pending, with a timer for that deadline |
| ClientReplies.RefusedIsAnswered | include/lambdatech/networking/protocol/dns/client.hpp:61-66 | a refused name gets no answer at once, after the error listeners |
| ClientReplies.FailedIsAnswered | include/lambdatech/networking/protocol/dns/client.hpp:73-75 | a failed send under a free id likewise |
| ClientReplies.OtherTimersAsk | include/lambdatech/networking/core/event_loop.hpp:193-197 | a timer that is not the client's may query when it runs |
| ClientProofs.RequestReadsBack | include/lambdatech/networking/protocol/dns/client.hpp:55-61 | what a query sends parses, at the other end, to a plain recursive query with its id, every other header field zero, and one question of its type, class 1 and its name up to one trailing dot |
| ClientTimers.EachOwnsTimer | include/lambdatech/networking/protocol/dns/client.hpp:68-71 | in every run, clashes or not, a pending query has its own timer armed or harvested, once, and that timer expires its id |
| ClientTimers.OneTimerEach | include/lambdatech/networking/protocol/dns/client.hpp:68-71 | a pending query under whose id no query was lost to a clash has no other timer for that id |
| ClientDeadlines.NoneOverdue | include/lambdatech/networking/protocol/dns/client.hpp:52-76 | in every run, after a timer pass every pending query has its deadline ahead |
| ClientDeadlines.NeverEarly | include/lambdatech/networking/protocol/dns/client.hpp:52-76 | a handler of a query under whose id no query was lost to a clash runs without an answer only for a refused name, for a datagram that could not be sent, or at or after its deadline |
| ClientEarly.EarlyTimeoutExact | include/lambdatech/networking/protocol/dns/client.hpp:68-114 | in every run, clashes or not: a pending query whose deadline lies ahead may be answered before it by time and timers alone, exactly when another timer for its id is armed or harvested with an earlier deadline |
| ClientEarly.FailedSendExact | include/lambdatech/networking/protocol/dns/client.hpp:73-75 | at every point of every run a new query, with handlers that do nothing, answers a pending one at once exactly when its name is accepted, it cannot be sent and it drew the same id |
| ClientEarly.FailedSendAnswersAnother | include/lambdatech/networking/protocol/dns/client.hpp:73-75 | a run of two queries with one id in which the failed send of the second answers the first before its deadline |
| ClientEarly.ClashTimesOutAnother | include/lambdatech/networking/protocol/dns/client.hpp:69-71 | a run in which the timer of a lost query answers a later query that did not clash, before its deadline |
| Client.DnsClient.Query | include/lambdatech/networking/protocol/dns/client.hpp:55-76 | the new client is that of the model, including a refused name, an id clash and a failed send, and the error listeners that run before the handler |
| Client.DnsClient.Resolve | include/lambdatech/networking/protocol/dns/client.hpp:105-114 | the entry goes, its timer is cleared, its handler runs; an unknown id changes nothing |
| Client.DnsClient.OnMessage | include/lambdatech/networking/protocol/dns/client.hpp:92-99 | a datagram that does not parse runs the error listeners and nothing else; any other resolves its id |
| PoolProofs.EveryTaskOnce | include/lambdatech/networking/core/thread_pool.hpp:79-129 | in every interleaving each submitted task is exactly one of queued, running or finished |
| PoolProofs.StrictPriority | include/lambdatech/networking/core/thread_pool.hpp:96-105 | every take finds all higher levels empty and takes the oldest task of its level |
| PoolProofs.SubmittedAsCalled | include/lambdatech/networking/core/thread_pool.hpp:79-85 | the tasks of each level are those of the submit calls that name it, in order |
| PoolProofs.IdleWorkerFinishes | include/lambdatech/networking/core/thread_pool.hpp:107-129 | at every point of every run an idle worker alone can run every queued task to its end |
| PoolProofs.DrainedAtShutdown | include/lambdatech/networking/core/thread_pool.hpp:107-119 | once all workers have exited the queues are empty exactly when nothing was submitted after the last exit |
| PoolProofs.AllFinishedAtShutdown | include/lambdatech/networking/core/thread_pool.hpp:107-119 | then every task has finished once |
| PoolProofs.ExitsWhenAsked | include/lambdatech/networking/core/thread_pool.hpp:111-116 | a worker that has exited was asked to stop before it exited |
| PoolProofs.NobodyExitsUnasked | include/lambdatech/networking/core/thread_pool.hpp:111-116 | without a stop request no worker exits and no task comes too late |
| PoolProofs.StoppedExits | include/lambdatech/networking/core/thread_pool.hpp:111-116 | an idle worker that was asked to stop exits once the queues are empty |
| PoolProofs.WorkersAsAsked | include/lambdatech/networking/core/thread_pool.hpp:68-77 | the pool keeps as many workers as it was asked for, and at least one |
| Pool.TaskQueues.Submit | include/lambdatech/networking/core/thread_pool.hpp:79-85 | the task goes to the end of its level only |
| Pool.TaskQueues.AnyPending | include/lambdatech/networking/core/thread_pool.hpp:92-94 | true exactly when some level is not empty |
| Pool.TaskQueues.DequeueHighest | include/lambdatech/networking/core/thread_pool.hpp:96-105 | the scan takes the front of the first level that is not empty; with all levels empty it returns nothing and changes nothing |
| Server.RetainedUntilClosed | include/lambdatech/networking/protocol/tcp/server.hpp:122-162 | over every run, re-entrant destroys from the connect listener included, the list holds exactly the accepted connections that have not emitted close, once each and in order |
| Server.ReadyTrace | include/lambdatech/networking/protocol/tcp/server.hpp:122-157 | one readiness at any point of any run, listeners doing nothing: exactly the connections up to the first answer that blocks or fails are retained and reported, in order; a closed server reports an error |
| Server.AcceptsAll | include/lambdatech/networking/protocol/tcp/server.hpp:122-157 | the same count, and the answers left, whatever the listeners do, as long as the server still listens |
| Server.CloseTrace | include/lambdatech/networking/protocol/tcp/server.hpp:108-115 | a close is reported once and ends listening; a connection that closes is dropped and reported once |
| Server.ListenersRun | include/lambdatech/networking/protocol/tcp/server.hpp:122-157 | a connection listener that closes the server keeps the next connection from being accepted; error and close listeners run too |
| Server.CloseListenersRun | include/lambdatech/networking/protocol/tcp/server.hpp:108-115 | a close listener of the server that destroys a live connection drops it |
| ServerSockets.JoinedRefinesServer | include/lambdatech/networking/protocol/tcp/server.hpp:122-162 | the server over real sockets that share the loop's tables refines the server of numbered connections: a socket that emits close is always one that the server still keeps |
| ServerSockets.LiveConnectionsRetained | include/lambdatech/networking/protocol/tcp/server.hpp:122-162 | over every run of the two together the list holds, once each in order, exactly the connections that have not emitted close; these are the live ones, each registered in both shared tables with write interest exactly when it has a backlog; none emits close twice |
| Server.TcpServer.OnReady | include/lambdatech/networking/protocol/tcp/server.hpp:122-157 | the accept loop, with listeners that may close connections or the server, ends in the state of the model |
| Server.TcpServer.Drop | include/lambdatech/networking/protocol/tcp/server.hpp:159-162 | every occurrence of the connection is erased, the others keep their order |
| Server.TcpServer.OnConnClose | include/lambdatech/networking/protocol/tcp/server.hpp:147-153 | the connection is dropped before other listeners run |
| Server.TcpServer.Close | include/lambdatech/networking/protocol/tcp/server.hpp:108-115 | closing twice does nothing the second time |
| HistogramModel.AgreesWithSorting | benchmarks/cpp/bench_common.hpp:115-153 | percentile_us is the sample of rank max(1, ceil(p n)) in sorted order, in whole microseconds, or the last bucket if smaller; the scan falls through exactly for p above one |
| HistogramModel.SortPermutes | benchmarks/cpp/bench_common.hpp:139-153 | the reference order is a sorted permutation of the samples |
| Histogram.LatencyHistogram.Record | benchmarks/cpp/bench_common.hpp:115-126 | the table counts the samples per bucket, the last bucket taking all larger ones; sum, minimum, maximum and overflow are those of the samples |
| Histogram.ExtremesAreSamples | benchmarks/cpp/bench_common.hpp:124-125 | the running minimum and maximum are the least and the largest sample |
| Histogram.LatencyHistogram.Reset | benchmarks/cpp/bench_common.hpp:128-132 | table, sum, minimum, maximum and overflow describe no samples |
| Histogram.LatencyHistogram.Percentile | benchmarks/cpp/bench_common.hpp:139-153 | the scan returns the percentile, and that is the sample found by sorting |
| Histogram.LatencyHistogram.Summary | benchmarks/python/common.py:88-109 | the merged pass that skips empty buckets reports under every per-mille name the largest value that the scans of the percentiles with that name would find, and no other name |
| Histogram.OwnNameOwnValue | benchmarks/python/common.py:97-109 | a name that no two percentiles share carries the value of its percentile |
| Histogram.SummaryAgrees | benchmarks/python/common.py:97-109 | the two histograms report the same value exactly when there are no samples or the percentile is at most one |

## Left out

- System calls, descriptors and address resolution are scripts or handles: what the kernel answers is arbitrary.
- `tcp::socket` is driven from the loop thread only; calls from other threads and the socket's own lock are not modelled.
- Destruction of sockets and servers, and the lifetime of shared and weak pointers.
- The mapping of poll flags to readiness, and which events the kernel reports: the reported handles are arbitrary.
- Starting, pausing and joining the loop thread, `run()` and the condition variables, so no liveness of threads.
- The random quality of DNS ids: any id may be drawn at any time.
- `signal` and `event` subscriptions: an emit is a mark in a log followed by arbitrary listener calls.
- `udp::peer` and `dns::server`: the network is any sequence of datagrams.
- ServerSockets.LiveConnectionsRetained: calls reach one connection at a time; listeners of one connection that call another are covered by `Server` only.
- `read_u8`, `read_u32`, `read_bytes`, `seek`, `write_u32`, `write_bytes`: no part of the codec's parse or serialize uses them.
- The mean of the histograms, and 64-bit overflow of counters and sums; percentiles are exact ratios, not floating point.
- The Python histogram starts its minimum at 2^63; samples of that size or more are not told apart from the C++ ones.
- HistogramModel.AgreesWithSorting: for a negative percentile the model takes rank 1, as the Python histogram does; the C++ conversion of a negative double to an unsigned integer is undefined.
- Histogram.LatencyHistogram.Summary: goals of equal rank are taken in any order, because the order does not change the values.
