# An epoll HTTP/1.1 server: model and proofs

The server accepts sockets on one thread, hands each to one of several sub-reactors, and answers GET
requests over persistent, pipelined connections, with or without a thread pool. This project models its
three hard parts and proves what they are for.

1. **Bytes to responses.** `Buffer` is the growing array with two indices, `HttpProcess` the incremental
   parser, `Connection` the object that reads, parses, answers and writes. `HttpSpec` gives their meaning
   on values, and an independent reference that sees only the complete lines of a stream. `Client` and
   `ClientRead` are the printer and the reader of the acceptance client.
2. **The life of a connection.** `ConnSpec` has every handler as a function of one connection and what it
   can reach; the class `Connection` is proved to be that function, method by method. `Reactor` runs any
   number of connections through I/O pass, timer pass and task pass, with workers that finish in any
   order. `ReactorTheorems`, `IdleTimeout` and `FatalWrites` state what is true of every run.
3. **The threads.** `EventLoop`, `ThreadPool` and `Shutdown` are machines of interleaved atomic steps, for
   any number of producers, workers and sub-reactors.

System calls are scripts: the list of answers `readv` and `write` will give, in the order of the calls.
An exhausted script answers EAGAIN. A statement for every script is a statement for every behaviour of
the kernel. Times are read from a monotone clock.

## How the parts fit

| module | role |
|---|---|
| Algebra | laws of sequences, multisets and maps |
| Bytes, Socket | byte strings, CRLF search, decimal numbers; the kernel's answers |
| Buffer, HttpProcess, Timers, Channel, Connection, SubReactor | the objects, each proved against functions on values |
| HttpSpec, HttpFacts, HttpGrammar | the parser on values, the line reference, bounds, and which texts are requests |
| Client, ClientRead, Announce | the acceptance client's printer and response reader; what the responses say |
| ConnSpec | the connection on values |
| ConnLaws, ReadLaws | every handler told from the outside: states, masks and bytes as functions of the kernel's answers |
| ConnFacts, ConnOutput, ConnLife, ConnJobs, CleanWrites, Reasons, Eof | what the handlers keep |
| Reactor, ReactorInv, ReactorSteps | the loop with all its connections, its invariant and its proof |
| Opening, ReactorTheorems, IdleTimeout, Deaths, Accepted, FatalWrites, LostAnswer | the results over runs |
| EventLoop, ThreadPool, Shutdown | the cross-thread protocols |

A handler boundary is the end of one `Channel::handle`, one timer scan or one queued task. A connection is
*healthy* when it is not dead and no closing response of it has met a fatal write result. That history
matters because `sendHttpOnLoop` makes the state `peerClose` after the attempt to write, even if the
attempt has just torn the connection down; `FatalWrites` has a run in which this revives a connection, and
shows that without fatal write results it never happens.

Where the code and its comments disagree, the model follows the code. include/Connection.h:26-28 says that
everything read before the end of file is processed and put into the buffer. Without the pool this is
false: the first response that drains ends the connection (`LostAnswer.AnswerLostInARun` is a run), and
`Eof.AnsweredBeforeEof` says exactly when all is answered. Every method of `Connection` also promises
that the other descriptors in the loop's epoll set keep their entries.

## Model

| member | source | states |
|---|---|---|
| Buffer.Buffer.DataIn | src/server/Buffer.cpp:14-30 | appends to the byte queue, by a write in place, a compaction or a resize; the recursion ends within one extra call; capacity stays within max(1024, twice the largest queue) |
| Buffer.Buffer.Compact | src/server/Buffer.cpp:18-24 | the overlapping move to the front changes no byte of the queue |
| Buffer.Buffer.DataOut | src/server/Buffer.cpp:32-40 | returns and drops the first bytes of the queue |
| Buffer.Buffer.SckToBuffer | src/server/Buffer.cpp:45-68 | one readv appends exactly the delivered bytes, whether they fit or spill into the 64 KB area |
| Buffer.Buffer.Absorb | src/server/Buffer.cpp:61-66 | free space first, spill area second, together the delivered bytes in order |
| Buffer.Buffer.BufferToSck | src/server/Buffer.cpp:70-80 | exactly the bytes the kernel took leave the queue, and they are its first |
| Buffer.Buffer.BufToBuf | src/server/Buffer.cpp:82-104 | a prefix of one queue moves to the end of another; both stay valid and within the space bound |
| Buffer.Buffer.FindCRLF | src/server/Buffer.cpp:106-113 | the first CRLF of the queue, or none |
| Bytes.FindCrlf | src/server/Buffer.cpp:106-113 | the position found is a CRLF with none before it; none means there is none |
| Buffer.Buffer.Retrieve | src/server/Buffer.cpp:115-122 | drops a prefix; an emptied queue sits at the front |
| Buffer.Buffer.Peek | include/Buffer.h:38-41 | the view is the queue, and starts inside the array |
| HttpProcess.HttpProcess.RetrieveLine | src/server/HttpProcess.cpp:40-52 | takes the first line with its CRLF, leaves an over-long line in place, or asks for more |
| HttpProcess.HttpProcess.Parse | src/server/HttpProcess.cpp:104-140 | result, parser fields and buffer after one call are those of ParseStep |
| HttpProcess.HttpProcess.ParseHeaders | src/server/HttpProcess.cpp:119-139 | the header loop leaves only through its returns, so the last return is unreachable |
| HttpProcess.HttpProcess.TakeHeader | src/server/HttpProcess.cpp:126-136 | one header line has the effect FeedLine gives it |
| HttpProcess.HttpProcess.ReleaseRequest | src/server/HttpProcess.cpp:142-149 | hands out the request and leaves a fresh parser |
| HttpProcess.HttpProcess.Reset | src/server/HttpProcess.cpp:151-156 | leaves a fresh parser |
| HttpSpec.ParseStep | src/server/HttpProcess.cpp:104-140 | asking for more leaves no CRLF in the buffer; a completed request shrinks the buffer, which ends the parse loop |
| HttpSpec.SplitThreeExact | src/server/HttpProcess.cpp:19-30 | a line splits into three exactly if it is three space-free words joined by single spaces |
| HttpSpec.DrainIsInterpret | src/server/HttpProcess.cpp:104-149 | parse and release over a whole stream are a fold over its complete lines |
| HttpSpec.DrainAppend | src/server/HttpProcess.cpp:40-52 | when more bytes arrive, a finished parse stands and an open one resumes from its own state and leftovers |
| HttpSpec.ChunkingInvariance | src/server/HttpProcess.cpp:104-149 | any split of a stream into reads gives the same requests and end, and, when parsing is open, the same parser and leftovers |
| HttpFacts.ParseShape | src/server/HttpProcess.cpp:119-137 | across calls, one request is at most 1 request line, 100 header lines of at most 8192 bytes, and an empty line |
| HttpFacts.ParseCost | src/server/HttpProcess.cpp:104-140 | what a call consumes is covered by the request's remaining budget |
| HttpFacts.RequestCostIsBounded | src/server/HttpProcess.cpp:45-51 | however many calls it takes, one request takes at most 827596 bytes |
| HttpFacts.LinesTotal | src/server/HttpProcess.cpp:40-52 | splitting into lines loses no byte |
| HttpFacts.DrainSound | src/server/HttpProcess.cpp:54-66 | every completed request is a GET of a path that starts with '/', free of spaces and CRLF, at most 8179 bytes, with a known version |
| HttpGrammar.RequestLineExact | src/server/HttpProcess.cpp:54-66 | a line is a request line exactly if it reads GET, a path from '/', and HTTP/1.1 or HTTP/1.0, with single spaces; the version alone sets keepAlive |
| HttpGrammar.KeepAliveExact | src/server/HttpProcess.cpp:68-75 | `close` in a Connection value, in any letter case, wins over `keep-alive`, and anything else changes nothing |
| HttpGrammar.HeaderEffect | src/server/HttpProcess.cpp:126-136 | the effect of one header line behind any others: the 101st is refused, one without colon or with a Content-Length that is no number is rejected |
| HttpGrammar.CompletesExactly | src/server/HttpProcess.cpp:104-140 | lines up to the empty one complete exactly if the request line is valid, there are at most 100 headers, each at most 8192 bytes with a colon and a numeric Content-Length, and the last Content-Length is zero or absent; host and keepAlive of the result; which malformed texts are refused and which rejected |
| HttpGrammar.CompleteIsWellFormed | src/server/HttpProcess.cpp:104-140 | a fresh parser completes a request on a byte string exactly if it begins with such lines |
| Client.RequestReadBack | src/client/main.cpp:120-129 | a printed request in front of any bytes is parsed back and leaves those bytes |
| Client.RoundTripExact | src/client/main.cpp:120-129 | printing and parsing give the request back exactly if its path is valid |
| Client.PipelinedRoundTrip | src/client/main.cpp:120-129 | any list of printed requests, cut in any way, parses to that list with nothing left over |
| ClientRead.FindContentLength | src/client/main.cpp:96-108 | the value of the last Content-Length line as `stoul` reads it, 0 without one, an error where `stoul` throws |
| ClientRead.ReadHead | src/client/main.cpp:85-91 | goes on exactly if the head is complete within 65536 bytes; otherwise says which value is returned and why |
| ClientRead.ReadHttpResponse | src/client/main.cpp:81-118 | one framed response with a body of any length, cut into non-empty reads in any way, is returned byte for byte exactly if what was read by the end of its head is at most 65536 bytes; for every other script, what is returned and why |
| ClientRead.ResponseIsFramed | src/server/HttpProcess.cpp:158-170 | a 200 answer with any body whose length fits `unsigned long` announces that length |
| ClientRead.AnswersAreFramed | src/server/HttpProcess.cpp:158-177 | both kinds of answer meet the precondition of the client's reader |
| Announce.ReplyAnnounces | src/server/HttpProcess.cpp:158-177 | read line by line, a response announces 200 or 400, the length of its body, and keep-alive exactly if the reply keeps the connection |
| Timers.BeforeIsEarlier | src/server/TimerQueue.cpp:51-53 | the two-field comparison is the order of instants, and a deadline is 60 s after the addition |
| Timers.AddKeepsOrder | src/server/TimerQueue.cpp:87-95 | a new timer keeps ids in the order of deadlines and the timerfd programmed |
| Timers.RemovalKeepsOrder | src/server/TimerQueue.cpp:97-102 | so does a deletion |
| Timers.ScanFindsExpired | src/server/TimerQueue.cpp:50-57 | the scan with its early break collects exactly the expired timers |
| Timers.ScanAscends | src/server/TimerQueue.cpp:50-57 | in ascending order, each once |
| Timers.AlarmIsEarliest | src/server/TimerQueue.cpp:67-83 | the programmed time is the earliest deadline, disarmed exactly if there is no timer |
| Timers.FireOneIsLocal | src/server/TimerQueue.cpp:59-62 | a callback that deletes from the same map removes no id but its own |
| Timers.TimerPassExact | src/server/TimerQueue.cpp:47-64 | a pass kills exactly the owners of expired timers and removes exactly those timers |
| Timers.TimerQueue.RefreshClock | src/server/TimerQueue.cpp:67-83 | programs the first timer's deadline or disarms |
| Timers.TimerQueue.AddTimer | src/server/TimerQueue.cpp:87-95 | new id, new entry, refreshed clock |
| Timers.TimerQueue.DeleteTimer | src/server/TimerQueue.cpp:97-102 | removes an id that is there, leaves the rest |
| Timers.TimerQueue.CollectExpired | src/server/TimerQueue.cpp:50-57 | the scan loop |
| Timers.TimerQueue.HandleRead | src/server/TimerQueue.cpp:30-65 | nothing if the timerfd has not expired, else scan, callbacks that mutate the map, and erasures: no lookup misses, and the result is that of the pass as a whole |
| Channel.Epoll.UpdateChannel | src/server/Epoll.cpp:21-33 | ADD or MOD by the flag, never against the kernel's own set |
| Channel.Epoll.RemoveChannel | src/server/Epoll.cpp:54-60 | DEL exactly if the descriptor is there |
| Channel.Epoll.Poll | src/server/Epoll.cpp:35-52 | after any number of interruptions, lists the reported channels in order, each with its events, or takes the error exit |
| Channel.Channel.EnableReading | src/server/Channel.cpp:11-14 | the mask and the kernel's copy gain EPOLLIN and EPOLLET, other descriptors keep theirs |
| Channel.Channel.DisableReading | src/server/Channel.cpp:16-19 | they lose EPOLLIN and nothing else |
| Channel.Channel.EnableWriting | src/server/Channel.cpp:21-24 | they gain EPOLLOUT and nothing else |
| Channel.Channel.DisableWriting | src/server/Channel.cpp:26-29 | they lose EPOLLOUT and nothing else |
| Channel.Channel.EnableListen | src/server/Channel.cpp:31-35 | level-triggered reading for a new channel, an error for a mounted one |
| Channel.Channel.DisableAll | src/server/Channel.cpp:37-40 | an empty mask that stays mounted |
| Channel.Channel.Remove | src/server/Channel.cpp:42 | the descriptor leaves the kernel's set |
| Connection.Connection.constructor | src/server/Connection.cpp:15-25 | a connected connection with empty buffers, a fresh parser and no timer |
| Connection.Connection.StartConnect | src/server/Connection.cpp:27-30 | acts as ConnSpec.StartConnect on the whole connection |
| Connection.Connection.ReadFromSck | src/server/Connection.cpp:34-54 | acts as ConnSpec.ReadLoop, however readv cuts the arriving bytes |
| Connection.Connection.RefreshTimer | src/server/Connection.cpp:56-59 | acts as ConnSpec.RefreshTimer |
| Connection.Connection.CheckEmptyReadAfterEof | src/server/Connection.cpp:66-71 | acts as ConnSpec.CheckEmpty |
| Connection.Connection.SendHttpOnLoop | src/server/Connection.cpp:73-80 | acts as ConnSpec.Send |
| Connection.Connection.OnHttp | src/server/Connection.cpp:82-140 | acts as ConnSpec.OnHttp |
| Connection.Connection.ProcessInput | src/server/Connection.cpp:91-139 | the parse loop, proved to end, acts as ConnSpec.HttpLoop |
| Connection.Connection.ServeRequest | src/server/Connection.cpp:115-136 | acts as ConnSpec.Serve: a job for the pool, or an answer at once |
| Connection.Connection.FinishRequest | src/server/Connection.cpp:122-128 | acts as ConnSpec.RunAnswer |
| Connection.Connection.TrySendToSck | src/server/Connection.cpp:142-172 | acts as ConnSpec.TrySend over every script of writes |
| Connection.Connection.HandleWriteCallBack | src/server/Connection.cpp:174-209 | acts as ConnSpec.WriteCallback |
| Connection.Connection.HandleReadCallBack | src/server/Connection.cpp:61-64 | acts as ConnSpec.ReadCallback |
| Connection.Connection.Handle | src/server/Channel.cpp:46-51 | reading before writing, on the events poll stored: acts as ConnSpec.Handle |
| Connection.Connection.HandleDead | src/server/Connection.cpp:211-222 | acts as ConnSpec.HandleDead: once, out of epoll, without timer, one remove request; other descriptors keep their entries |
| Connection.Connection.Stop | src/server/Connection.cpp:224-230 | acts as ConnSpec.StopConn, and leaves other descriptors alone |
| SubReactor.SubReactor.AdoptSocket | src/server/SubReactor.cpp:14-46 | a new connection enters table, epoll and timers and disturbs no other |
| SubReactor.SubReactor.StopConnections | src/server/SubReactor.cpp:59-64 | after the stop task every connection of the table is dead, out of epoll and without a timer, the timerfd is watched for nothing, and the loop will end |
| SubReactor.SubReactor.TableAtBoundary | src/server/SubReactor.cpp:59-64 | connections at a handler boundary meet what the stop task needs |
| SubReactor.SubReactor.HandleEvent | src/server/EventLoop.cpp:36-41 | handling one connection's event leaves the kernel's entries of all others true |
| SubReactor.SubReactor.StopLoop | src/server/EventLoop.cpp:92-95 | the timerfd gets an empty mask, the flag goes up, other descriptors keep theirs |
| ConnFacts.TrySendShape | src/server/Connection.cpp:142-172 | any number of interruptions and one write: bytes go out in order, and the attempt fails exactly if the first answer that counts is fatal |
| ConnFacts.WriteLoopShape | src/server/Connection.cpp:184-208 | the write callback sends bytes in order until drained, blocked or failed |
| ConnFacts.SendAndCheckSendsReply | src/server/Connection.cpp:73-80 | whatever the kernel takes, sent bytes and buffer together grow by exactly the response |
| ConnFacts.ReadsUntilBlocked | src/server/Connection.cpp:34-54 | the read loop takes all bytes up to EAGAIN, the end of file or an error, as edge-triggered polling needs |
| ConnFacts.WritesUntilBlocked | src/server/Connection.cpp:184-208 | bytes stay behind on a live connection only after EAGAIN |
| ConnFacts.HttpLoopNoLinger | src/server/Connection.cpp:91-139 | after the parse loop, a half-closed connection with nothing to send and no worker out is dead or in the middle of a request |
| ConnFacts.EofMidRequest | src/server/Connection.cpp:96-97 | with no complete request left at the end of file, a drained connection survives exactly if bytes of a request are buffered |
| ConnLaws.FlushIsFirstAnswer | src/server/Connection.cpp:142-172 | one attempt to write is decided by the first answer that is no interruption |
| ConnLaws.AnswerObeysLaw | src/server/Connection.cpp:73-80 | state, both masks, buffered length and bytes after a response and the check behind it, from what they were and that answer |
| ConnLaws.WritingIsScript | src/server/Connection.cpp:184-208 | which answers the write callback uses, and how many bytes they take |
| ConnLaws.WriteCallbackLaw | src/server/Connection.cpp:174-209 | by the answers alone: dead exactly if a fatal one was used or all went out of a half-closed connection without workers; otherwise the old state, and interest in writing exactly while bytes stay behind |
| ConnLaws.ReadLoopObeysLaw | src/server/Connection.cpp:34-54 | the state after reading follows from the answer that ended it: dead on a failure, half closed at the end of file, else as before |
| ConnLaws.RunAnswerLaw | src/server/Connection.cpp:122-128 | a worker's answer is a response with one worker less out |
| ConnLaws.DeadIsLeftAlone | src/server/Connection.cpp:123-125 | a dead connection drops the answer and is not written to |
| ReadLaws.HttpLoopDeals | src/server/Connection.cpp:91-139 | the parse loop gives the replies, hands out the jobs and reaches the state that a small machine over states and kernel answers computes from the outcomes of the parse |
| ReadLaws.HttpLoopTakesIn | src/server/Connection.cpp:91-139 | and takes in exactly the requests it deals with |
| ReadLaws.ReadCallbackLaw | src/server/Connection.cpp:82-140 | the whole read event: a failed read ends the connection and does nothing else; an end of file with nothing buffered ends it exactly if nothing is to be written and no worker is out; anything buffered is dealt with |
| ReadLaws.HandleLaw | src/server/Channel.cpp:46-51 | reading first, then writing if the connection still lives, each by its law |
| ConnOutput.HandleAtRest | src/server/Connection.cpp:61-209 | every event handler keeps the accounting of requests, replies and bytes |
| ConnOutput.RunAnswerAtRest | src/server/Connection.cpp:122-128 | so does every worker's answer |
| ConnOutput.PoolOffOutput | src/server/Connection.cpp:82-140 | without pool: output is the response stream of a prefix of the outcomes; of all of them at a boundary of a live connection |
| ConnOutput.PoolOnOutput | src/server/Connection.cpp:117-129 | with pool: connected and no worker out means the output a server without pool would have produced |
| ConnOutput.HalfCloseOwesNothing | src/server/Connection.cpp:66-71 | a connection ended by a half-close guard with the pool on has sent a response for every complete request |
| ConnOutput.RequestsAccounted | src/server/Connection.cpp:117-129 | completed requests are 200 responses plus requests with a worker |
| ConnLife.SendAndCheckLife | src/server/Connection.cpp:73-80 | after a response the connection is live with its timer and a true mask, dead without, or a failed closing response |
| ConnLife.ClosingBreaksExactlyOnFatalWrite | src/server/Connection.cpp:73-80 | a closing response breaks the agreement of state and timer exactly if its first write answer is fatal |
| ConnLife.HandleStep | src/server/Connection.cpp:174-209 | every handler keeps state, mask, timer and remove request in agreement, and leaves the timers of others alone |
| ConnLife.RunAnswerStep | src/server/Connection.cpp:122-128 | so does a worker's answer, which is no activity of the peer |
| ConnLife.HandleDeadStep | src/server/Connection.cpp:211-222 | so does the idle callback |
| ConnJobs.HandleJobs | src/server/Connection.cpp:117-129 | requests in flight are exactly the jobs handed to the pool |
| CleanWrites.HandleSpared | src/server/Connection.cpp:73-80 | a handler that meets no fatal write revives nothing |
| Reasons.HandleReasoned | src/server/Connection.cpp:61-209 | without failed calls an event half-closes a connection exactly for a reason seen from outside, and it dies only when it owes nothing |
| Reasons.RunAnswerReasoned | src/server/Connection.cpp:122-128 | so does a worker's answer |
| Eof.AnsweredBeforeEof | src/server/Connection.cpp:142-172 | without pool, all that was read before the end of file is answered, by bytes sent or buffered, exactly if no answer but the last drains the buffer or fails while keeping alive |
| Eof.LoopAfterEof | src/server/Connection.cpp:91-139 | the same of the parse loop alone, from any buffered output |
| Eof.SecondAnswerLost | src/server/Connection.cpp:148-154 | two valid requests and the end of file, a kernel that takes the first answer whole: the second is never sent |
| LostAnswer.AnswerLostInARun | src/server/Connection.cpp:148-154 | a run of seven steps, for any two valid requests, that ends with one of them answered and the connection dead |
| ReactorInv.HandleNextInv | src/server/EventLoop.cpp:36-41 | the I/O pass keeps the invariant of the loop, and later reported events stay valid |
| ReactorInv.AnswerInv | src/server/Connection.cpp:122-128 | the answer task keeps it |
| ReactorSteps.FireAllEffect | src/server/TimerQueue.cpp:59-62 | the firing loop over real connections removes exactly the given timers and kills exactly their owners |
| ReactorSteps.TimerPassInv | src/server/TimerQueue.cpp:30-65 | the timer pass keeps the invariant |
| ReactorSteps.AdoptInv | src/server/SubReactor.cpp:16-29 | adopting a socket keeps it |
| ReactorSteps.RemoveInv | src/server/SubReactor.cpp:20-21 | the remove task keeps it: it never takes a healthy connection out of the table |
| ReactorSteps.FinishInv | src/server/Connection.cpp:119-122 | a worker that finishes any job keeps it |
| ReactorSteps.StepInv | src/server/EventLoop.cpp:28-59 | every step of the loop and of other threads keeps it |
| ReactorSteps.ReachableInv | src/server/EventLoop.cpp:28-59 | it holds in every reachable state |
| ReactorTheorems.OutputWithoutPool | src/server/Connection.cpp:82-170 | in every reachable state without pool, output is the response stream of a prefix of the outcomes, of all of them while live |
| ReactorTheorems.OutputWithPool | src/server/Connection.cpp:82-140 | in every reachable state, for every order of workers, connected and no worker out means the response stream of all bytes read |
| ReactorTheorems.OutputInEveryState | src/server/Connection.cpp:82-140 | in every reachable state: output is the replies' text; requests completed are answered, on the pool, queued or dropped by a dead connection, and are a prefix of the whole-stream parse, all of it while live |
| ReactorTheorems.HalfCloseWithPool | src/server/Connection.cpp:117-129 | a half-closed end with the pool on has sent a response for every request, and nothing is left with a worker or queued; before, requests are responses plus jobs plus queued answers |
| ReactorTheorems.OnlyPartialRequestsLinger | src/server/Connection.cpp:66-71 | in every reachable state, half-closed, drained and idle means dead or in the middle of a request |
| ReactorTheorems.LifeCycleAgreement | src/server/Connection.cpp:211-222 | not dead, in epoll and one timer agree; live is in the table; dead in the table has a remove request; EPOLLOUT exactly with something to write; EPOLLIN while connected |
| ReactorTheorems.TimerOwnership | src/server/Connection.cpp:56-59 | each registered id is the current timer of exactly one connection |
| ReactorTheorems.AlarmInEveryState | src/server/TimerQueue.cpp:67-83 | the timerfd holds the earliest deadline, disarmed exactly if there is none |
| ReactorTheorems.DeadIsForever | src/server/Connection.cpp:211-213 | from no reachable state does any run bring a dead connection back |
| Deaths.EndsForAReason | src/server/Connection.cpp:66-71 | over every run without failed calls on it and without idle expiry, a connection is connected exactly as long as there was no end of file, no bad or refused input and no closing response; a dead one has sent every response, one per completed request, with nothing out, and with the pool has completed every request it read |
| Deaths.EndsAsAnnounced | src/server/Connection.cpp:73-80 | the same, by the Connection lines of the responses |
| Deaths.AnnouncedCloseIsKept | src/server/Connection.cpp:76-79 | in every reachable state a connection that has announced `close` is not connected |
| Deaths.FailedReadKills | src/server/Connection.cpp:45-52 | a failed read that is reached ends the connection, and the end of file ends its being connected |
| Accepted.AcceptedBecomesConnection | src/server/SubReactor.cpp:14-46 | in every reachable state an accepted socket is a connection or queued to become one, never both |
| IdleTimeout.IdleTimeoutExact | src/server/TimerQueue.cpp:47-64 | a timer pass at t kills a healthy connection exactly if t is past its last activation plus 60 s, and leaves no earlier deadline |
| IdleTimeout.TimerPassIsHandleRead | src/server/TimerQueue.cpp:47-64 | in every reachable state the timer queue's method may be called, and its effect on timers and lives is that of the loop's timer pass |
| IdleTimeout.ActivationIsRecorded | src/server/Connection.cpp:61-62 | a handled event sets the last activation of its connection, of no other |
| IdleTimeout.OnlyEventsActivate | src/server/Connection.cpp:56-59 | no other step does |
| IdleTimeout.IdleTimeoutOverRuns | src/server/EventLoop.cpp:36-44 | over any run, the activations that count are the adoption and the handled events, those of the same poll included |
| FatalWrites.LifeCycleWithoutFatalWrites | src/server/Connection.cpp:56-80 | on every run without a fatal write result the life cycle agrees with no exception |
| FatalWrites.RevivedInARun | src/server/Connection.cpp:73-80 | a run of seven steps whose last leaves a connection in epoll, not dead, without timer and with its remove request queued |
| EventLoop.NoLostWakeup | src/server/EventLoop.cpp:79-88 | the loop blocks with a task queued only if another thread is about to write the eventfd |
| EventLoop.QuietMeansDone | src/server/EventLoop.cpp:28-59 | loop asleep and no producer inside means all accepted tasks have run |
| EventLoop.NoCountIsForgotten | src/server/EventLoop.cpp:63-77 | a positive count has a report to come or is about to be read, and a sleeping loop's eventfd is empty |
| EventLoop.ExactlyOnceInOrder | src/server/EventLoop.cpp:46-57 | executed, batch and queue are always the accepted sequence |
| EventLoop.StopKeepsWhatCameBefore | src/server/EventLoop.cpp:92-95 | when the loop has ended, all accepted before the first stop task has run |
| EventLoop.RefusedOnlyAfterStop | src/server/EventLoop.cpp:80 | a task is dropped only after a stop task has run |
| EventLoop.StoppedLoopAcceptsNothing | src/server/EventLoop.cpp:79-80 | once the flag is up and nobody is inside, no run accepts another task |
| EventLoop.StoppedLoopEnds | src/server/EventLoop.cpp:28-29 | after a stop task the loop ends by its own steps, with its batch run |
| EventLoop.RoundRunsAll | src/server/EventLoop.cpp:28-59 | with no producer inside, the loop's own steps suffice to run all that was accepted |
| EventLoop.EnqueueIsARun | src/server/EventLoop.cpp:79-88 | an undisturbed call is look, push and write, or a refusal |
| EventLoop.RanIsARun | src/server/EventLoop.cpp:57 | a batch whose tasks enqueue more is a run of the loop's own steps |
| EventLoop.Ran | src/server/EventLoop.cpp:57-88 | the whole batch has been executed once and in order; no queued task is lost, and later ones are dropped only behind a stop task |
| EventLoop.EventLoop.ReadCallback | src/server/EventLoop.cpp:63-77 | the eventfd is read once, however often a signal interrupts |
| EventLoop.EventLoop.TakeTasks | src/server/EventLoop.cpp:47-55 | the drain loop moves the whole queue in order |
| EventLoop.EventLoop.RunTasks | src/server/EventLoop.cpp:57 | the batch runs to its end, even past a stop task, while its tasks enqueue more, which stays behind the queue |
| ThreadPool.NoLostNotify | src/server/ThreadPool.cpp:16-18 | while a worker sleeps, queued tasks are matched by notifies on the way and workers on the way to the lock; a task without a pending notify has an awake worker |
| ThreadPool.ExactlyOnceInOrder | src/server/ThreadPool.cpp:25-33 | dequeued and queued are the accepted sequence; what was dequeued is finished or in a worker's hands |
| ThreadPool.StopRunsEverything | src/server/ThreadPool.cpp:41-53 | after stop, everything accepted has run exactly if there was a worker or nothing was accepted |
| ThreadPool.TaskLostWithoutWorkers | src/server/ThreadPool.cpp:3-7 | a pool of size 0 accepts a task, stops, and never runs it |
| ThreadPool.StopMakesProgress | src/server/ThreadPool.cpp:41-53 | after notify_all every worker step takes work away, and one is possible until all have left |
| ThreadPool.ThreadPool.WorkerTurn | src/server/ThreadPool.cpp:12-28 | a worker takes the first task, waits, or leaves |
| ThreadPool.ThreadPool.NotifyEveryone | src/server/ThreadPool.cpp:48 | exactly the waiting workers wake up |
| Shutdown.NothingIsRefused | src/server/Server.cpp:24-28 | no accepted socket meets a raised stop flag, and the pool is given no task after it stopped |
| Shutdown.StoppedSubHasAdoptedAll | src/server/SubReactor.cpp:53-68 | when a sub-reactor's stop task has run, all its sockets had become connections, in order, and none is alive |
| Shutdown.ShutdownLosesNothing | src/server/Server.cpp:24-45 | after `stop`, the k-th accepted socket had become a connection of sub-reactor k mod n, all loops have ended with no connection alive, and the pool has been stopped if there is one |
| Shutdown.PoolOutlivesItsUsers | src/server/Server.cpp:24-28 | in every reachable state the pool is stopped exactly if there is one and `stop` is done, and then no thread that could submit is left |
| Shutdown.JoinsAreAnswered | src/server/MainReactor.cpp:26-37 | the stopping thread waits only for loops whose stop task is queued or has run |
| Shutdown.JoinedLoopEnds | src/server/SubReactor.cpp:66-67 | from every reachable state the loop that is being joined can end, by its own steps |
| Shutdown.SubExits | src/server/EventLoop.cpp:28-59 | a sub-reactor told to stop ends by steps of its own |
| Shutdown.MainExits | src/server/MainReactor.cpp:26-37 | so does the main reactor, which first hands on the socket it holds |
| Shutdown.ShutdownCanComplete | src/server/Server.cpp:24-28 | from every reachable state `Server::stop` can run to its end, with the pool stopped if there is one |

## Left out

- ReactorTheorems.OutputWithoutPool: speaks of handler boundaries; between two boundaries the same prefix
  form holds at each turn of the parse loop (`ConnOutput.PoolOffOutput` asks only for the loop's invariant).
- ReactorTheorems.OutputWithPool: no order of responses is claimed while workers are out, because the code
  gives none.
- HttpProcess.HttpProcess.TakeHeader: a Content-Length value out of the range of `unsigned long` is an
  unbounded number here, where `std::stoul` throws; only whether it is positive matters.
- ClientRead.ReadHttpResponse: `select` is part of the read, and its timeout a read of 0 bytes.
- Connection.Connection.Handle: callbacks are direct calls; shared ownership, destruction and the closing of
  descriptors are not modelled, only membership in the table and the epoll set.
- Connection.Connection.TrySendToSck: a `write` of a positive count never returns 0 here.
- Buffer.Buffer.BufToBuf: the two buffers are different objects.
- Buffer.Buffer.BufferToSck: at least one byte is to be written, as in both of its calls.
- SubReactor.SubReactor.StopConnections: takes the objects of its connections as a ghost argument; the order
  of stop and adopt tasks is the matter of Shutdown.
- EventLoop.EventLoop.RunTasks: the calls of one thread; what other threads do in between is in the step
  machine of the same module. The eventfd counter has no upper bound.
- ThreadPool.ThreadPool.WorkerTurn: threads, mutex and condition variable are steps of a machine on values;
  the futures that `enqueue` returns are dropped.
- Shutdown.ShutdownCanComplete: some run reaches the end; a scheduler that never runs a thread is not
  excluded.
- Timers.TimerQueue.HandleRead: a callback is what `handleDead` does to the timers and to the life of its
  connection; the rest of it is in `Reactor`.
- Shutdown.ShutdownLosesNothing: Server, MainReactor and SubReactor are records changed by steps, not
  objects, because their threads interleave; wake-ups are taken from EventLoop, not composed with it.
- Reactor covers a loop before its stop task; what the stop task does to connections is in SubReactor.
- Ids of timers are unbounded integers; the signed overflow of `timerId` is not modelled.
- Bytes are characters; classification and lower-casing are those of the C locale for ASCII.
- Nothing bounds a line that never gets its CRLF, and nothing is claimed that the code does not do: requests
  behind a closing request are still answered while its response is blocked.
- Socket creation, accepting, listening, epoll, timerfd and eventfd creation, fatal `errif` exits and signals
  are not modelled beyond the answers of read and write.
- The client's test cases and options, `prev_main.cpp`, and the benchmark scripts are not modelled.
